/** The client's language selection (client/app/context/LanguageContext.tsx):
    a provider holding the current language, which it keeps in the browser's
    `localStorage` under "userLang", and a translation lookup that falls back
    to the key. The locale tables (locales/en/common.json and
    locales/ru/common.json) are parameters of the provider; their contents
    are not part of this model. */
module LanguageContext {
  import opened Support

  /** The supported languages. */
  datatype Lang = En | Ru

  function Code(lang: Lang): string {
    match lang
    case En => "en"
    case Ru => "ru"
  }

  const StorageKey := "userLang"

  type Table = map<string, string>

  /** The guard on a language code: only the codes of the supported
      languages are accepted. */
  function ParseLang(code: string): (r: Option<Lang>)
    ensures r.Some? <==> code == "en" || code == "ru"
    ensures r.Some? ==> Code(r.value) == code
  {
    if code == "en" then Some(En) else if code == "ru" then Some(Ru) else None
  }

  /** Every language's code is accepted back as that language. */
  lemma ParseCode(lang: Lang)
    ensures ParseLang(Code(lang)) == Some(lang)
  {
    match lang
    case En =>
    case Ru => assert Code(Ru) != "en" by { assert Code(Ru)[0] != "en"[0]; }
  }

  /** `translations[lang][key] || key`: the table's entry, unless it is
      missing or empty, in which case the key itself. */
  function Translate(table: Table, key: string): (r: string)
    ensures r == key || (key in table && r == table[key])
    ensures key in table && table[key] != "" ==> r == table[key]
    ensures key !in table || table[key] == "" ==> r == key
    ensures r == "" ==> key == ""
  {
    if key in table && table[key] != "" then table[key] else key
  }

  /** The start-up effect's choice: the stored value when it names a
      supported language, English otherwise (nothing stored, an empty value,
      or anything else). */
  function StartupLanguage(stored: Option<string>): (lang: Lang)
    ensures stored.Some? && ParseLang(stored.value).Some? ==> lang == ParseLang(stored.value).value
    ensures stored.None? || ParseLang(stored.value).None? ==> lang == En
  {
    if stored.Some? && ParseLang(stored.value).Some? then ParseLang(stored.value).value else En
  }

  /** A language written by the setter is the one the start-up effect
      restores from that storage. */
  lemma {:induction false} StoredLanguageRestored(storage: map<string, string>, lang: Lang)
    ensures StartupLanguage(Get(storage[StorageKey := Code(lang)], StorageKey)) == lang
  {
    ParseCode(lang);
  }

  /** What a component reading the context sees. */
  datatype ContextValue = ContextValue(userLang: Lang, table: Table)

  /** The context's default value, used without a provider: English, and a
      `t` that returns its key (an empty table); its `setUserLang` does
      nothing, so this value never changes. */
  const DefaultContext := ContextValue(En, map[])

  lemma DefaultContextTranslatesToKey(key: string)
    ensures DefaultContext.userLang == En
    ensures Translate(DefaultContext.table, key) == key
  {
  }

  /** `LanguageProvider`: the `userLang` state and the `localStorage` entries
      it reads and writes. */
  class LanguageProvider {
    const en: Table
    const ru: Table
    var userLang: Lang
    var storage: map<string, string>

    /** The first render: English, whatever is stored. */
    constructor (en: Table, ru: Table, storage: map<string, string>)
      ensures this.en == en && this.ru == ru
      ensures userLang == En && this.storage == storage
    {
      this.en := en;
      this.ru := ru;
      userLang := En;
      this.storage := storage;
    }

    /** The translation table of the current language. */
    function Current(): Table
      reads this
    {
      if userLang == En then en else ru
    }

    /** The mount effect: adopt a stored supported language, otherwise set
        English; storage is only read. */
    method LoadStoredLanguage()
      modifies this
      ensures userLang == StartupLanguage(Get(storage, StorageKey))
      ensures storage == old(storage)
    {
      var stored := Get(storage, StorageKey);
      if stored.Some? && ParseLang(stored.value).Some? {
        userLang := ParseLang(stored.value).value;
      } else {
        userLang := En;
      }
    }

    /** `setUserLang`: an unsupported code changes nothing; a supported one
        becomes the current language and is stored, so that the next
        start-up restores it. */
    method SetUserLang(lang: string)
      modifies this
      ensures ParseLang(lang).None? ==> userLang == old(userLang) && storage == old(storage)
      ensures ParseLang(lang).Some? ==>
                userLang == ParseLang(lang).value && storage == old(storage)[StorageKey := lang]
      ensures ParseLang(lang).Some? ==> StartupLanguage(Get(storage, StorageKey)) == userLang
    {
      var parsed := ParseLang(lang);
      if parsed.None? {
        return;
      }
      userLang := parsed.value;
      storage := storage[StorageKey := lang];
    }

    /** `t`: the current language's entry for `key`, or `key`. */
    function T(key: string): (r: string)
      reads this
      ensures r == key || (key in Current() && r == Current()[key])
      ensures key in Current() && Current()[key] != "" ==> r == Current()[key]
      ensures key !in Current() || Current()[key] == "" ==> r == key
    {
      Translate(Current(), key)
    }
  }

  /** The names JavaScript objects inherit from `Object.prototype`; indexing
      the `translations` record with any of them yields a truthy value. */
  const InheritedKeys: set<string> := {
    "constructor", "__proto__", "hasOwnProperty", "isPrototypeOf",
    "propertyIsEnumerable", "toString", "toLocaleString", "valueOf",
    "__defineGetter__", "__defineSetter__", "__lookupGetter__", "__lookupSetter__"
  }

  /** The guard as written, `translations[code]` being truthy: true for the
      two language codes and also for every inherited name. */
  predicate AsWrittenAccepts(code: string) {
    code == "en" || code == "ru" || code in InheritedKeys
  }

  /** The start-up choice as written: a non-empty stored value that passes
      `translations[stored]` is adopted as the language code. */
  function AsWrittenStartupCode(stored: Option<string>): (code: string)
    ensures stored.None? || stored.value == "" || !AsWrittenAccepts(stored.value) ==> code == "en"
    ensures stored.Some? && stored.value != "" && AsWrittenAccepts(stored.value) ==> code == stored.value
  {
    if stored.Some? && stored.value != "" && AsWrittenAccepts(stored.value) then stored.value else "en"
  }

  /** "constructor" passes the guard as written, in the setter and at
      start-up, where a stored "constructor" becomes the language code,
      although it names no supported language; the corrected guard refuses
      it. */
  lemma AsWrittenAdoptsInheritedName(stored: string)
    requires stored == "constructor"
    ensures AsWrittenAccepts(stored)
    ensures AsWrittenStartupCode(Some(stored)) == stored
    ensures ParseLang(stored).None?
    ensures StartupLanguage(Some(stored)) == En
  {
    assert stored in InheritedKeys;
    assert stored[0] != 'e' && stored[0] != 'r';
  }

  /** Apart from the inherited names, the guard as written and the corrected
      one choose the same language. */
  lemma {:induction false} StartupAgreesOffPrototype(stored: Option<string>)
    requires stored.None? || stored.value !in InheritedKeys
    ensures AsWrittenStartupCode(stored) == Code(StartupLanguage(stored))
  {
    if stored.Some? && ParseLang(stored.value).Some? {
      assert stored.value != "";
    }
  }
}
