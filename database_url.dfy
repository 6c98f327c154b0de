/** The server's database-URL normalisation (server/app/database.py): a
    missing setting is an error, a legacy `postgres://` scheme is renamed,
    and a scheme-less `user:password@host/db` string gets a scheme. */
module DatabaseUrl {
  import opened Support

  const LegacyScheme := "postgres://"
  const Scheme := "postgresql://"
  const MissingUrlMessage := "DATABASE_URL environment variable is required"

  /** `pat` occurs in `s` starting at position `i`. */
  ghost predicate OccursAt(s: string, pat: string, i: nat) {
    i + |pat| <= |s| && s[i..i + |pat|] == pat
  }

  /** Python's `s.replace(pat, rep, 1)`: the first occurrence of `pat`, if
      any, is replaced by `rep`; an empty `pat` occurs at the very start. */
  function ReplaceFirst(s: string, pat: string, rep: string): string
    decreases |s|
  {
    if |s| < |pat| then s
    else if s[..|pat|] == pat then rep + s[|pat|..]
    else [s[0]] + ReplaceFirst(s[1..], pat, rep)
  }

  lemma OccursAtTail(s: string, pat: string, j: nat)
    requires |s| > 0
    ensures OccursAt(s[1..], pat, j) <==> OccursAt(s, pat, j + 1)
  {
    if j + 1 + |pat| <= |s| {
      assert s[1..][j..j + |pat|] == s[j + 1..j + 1 + |pat|];
    }
  }

  /** Where `pat` occurs at the start, that occurrence is replaced. */
  lemma ReplaceFirstHere(s: string, pat: string, rep: string)
    requires OccursAt(s, pat, 0)
    ensures ReplaceFirst(s, pat, rep) == rep + s[|pat|..]
  {
    assert s[..|pat|] == s[0..|pat|];
  }

  /** Where `pat` does not occur at the start, the first character is kept. */
  lemma ReplaceFirstSkip(s: string, pat: string, rep: string)
    requires |pat| <= |s| && !OccursAt(s, pat, 0)
    ensures |s| > 0 && ReplaceFirst(s, pat, rep) == [s[0]] + ReplaceFirst(s[1..], pat, rep)
  {
    assert s[..|pat|] == s[0..|pat|];
  }

  /** Replacing the first occurrence keeps what precedes and follows it. */
  lemma {:induction false} ReplaceFirstAtFirstOccurrence(s: string, pat: string, rep: string, i: nat)
    requires OccursAt(s, pat, i)
    requires forall j :: 0 <= j < i ==> !OccursAt(s, pat, j)
    ensures ReplaceFirst(s, pat, rep) == s[..i] + rep + s[i + |pat|..]
    decreases i
  {
    if i == 0 {
      ReplaceFirstHere(s, pat, rep);
      assert s[..0] == [];
    } else {
      ReplaceFirstSkip(s, pat, rep);
      var t := s[1..];
      OccursAtTail(s, pat, i - 1);
      forall j | 0 <= j < i - 1 ensures !OccursAt(t, pat, j) {
        OccursAtTail(s, pat, j);
      }
      ReplaceFirstAtFirstOccurrence(t, pat, rep, i - 1);
      ConsSplice(s, i, rep, i + |pat|);
    }
  }

  /** Putting the first character back in front of a splice of the rest. */
  lemma ConsSplice(s: string, i: nat, rep: string, m: nat)
    requires 0 < i <= m <= |s|
    ensures [s[0]] + (s[1..][..i - 1] + rep + s[1..][m - 1..]) == s[..i] + rep + s[m..]
  {
    assert [s[0]] + s[1..][..i - 1] == s[..i];
    assert s[1..][m - 1..] == s[m..];
  }

  /** Without an occurrence nothing is replaced. */
  lemma {:induction false} ReplaceFirstWithoutOccurrence(s: string, pat: string, rep: string)
    requires forall j :: 0 <= j <= |s| ==> !OccursAt(s, pat, j)
    ensures ReplaceFirst(s, pat, rep) == s
    decreases |s|
  {
    if |s| >= |pat| {
      assert !OccursAt(s, pat, 0);
      forall j | 0 <= j <= |s| - 1 ensures !OccursAt(s[1..], pat, j) {
        OccursAtTail(s, pat, j);
      }
      ReplaceFirstWithoutOccurrence(s[1..], pat, rep);
    }
  }

  /** `url.split('@')[0]`: the text before the first `@` (all of it when there
      is none). */
  function BeforeFirstAt(url: string): (r: string)
    ensures '@' !in r
    ensures StartsWith(url, r)
    ensures '@' in url ==> StartsWith(url, r + "@")
  {
    url[..IndexOf(url, '@')]
  }

  /** The shape test for a scheme-less `user:password@host...` string; it
      looks only for `@` and a `:` before it, so an existing other scheme
      such as `mysql://u:p@h` passes it too. */
  predicate LooksLikeCredentials(url: string) {
    '@' in url && ':' in BeforeFirstAt(url)
  }

  /** A URL with the current scheme does not also carry the legacy one. */
  lemma SchemeExcludesLegacy(s: string)
    ensures StartsWith(s, Scheme) ==> !StartsWith(s, LegacyScheme)
  {
    if StartsWith(s, Scheme) {
      assert s[8] == Scheme[8] != LegacyScheme[8];
    }
  }

  /** `fix_database_url`. */
  function FixDatabaseUrl(url: string): (r: string)
    ensures StartsWith(url, LegacyScheme) ==> r == Scheme + url[|LegacyScheme|..]
    ensures StartsWith(url, Scheme) ==> r == url
    ensures !StartsWith(url, LegacyScheme) && !StartsWith(url, Scheme) ==>
              (r == Scheme + url <==> LooksLikeCredentials(url)) &&
              (r == url <==> !LooksLikeCredentials(url))
  {
    var renamed := if StartsWith(url, LegacyScheme) then ReplaceFirst(url, LegacyScheme, Scheme) else url;
    SchemeExcludesLegacy(url);
    assert StartsWith(url, LegacyScheme) ==> renamed[..|Scheme|] == Scheme;
    if !StartsWith(renamed, Scheme) && LooksLikeCredentials(renamed) then Scheme + renamed else renamed
  }

  /** Only the leading `postgres://` is rewritten: any later occurrence in the
      rest of the URL is kept verbatim. */
  lemma LegacySchemeRewrittenOnce(rest: string)
    ensures FixDatabaseUrl(LegacyScheme + rest) == Scheme + rest
  {
    assert (LegacyScheme + rest)[|LegacyScheme|..] == rest;
  }

  lemma ForeignSchemeExampleShape(url: string)
    requires url == "mysql://u:p@h/db"
    ensures !StartsWith(url, LegacyScheme) && !StartsWith(url, Scheme)
    ensures LooksLikeCredentials(url)
  {
    var head := url[..11];
    assert url == head + ['@'] + url[12..];
    assert '@' !in head;
    IndexOfAfterPrefix(head, '@', url[12..]);
    assert BeforeFirstAt(url)[9] == ':';
    assert url[..|Scheme|][0] != Scheme[0];
    assert url[..|LegacyScheme|][0] != LegacyScheme[0];
  }

  /** The credentials test ignores any scheme already present, so
      `mysql://u:p@h/db` becomes `postgresql://mysql://u:p@h/db`. */
  lemma OtherSchemeGetsPrefixed(url: string)
    requires url == "mysql://u:p@h/db"
    ensures FixDatabaseUrl(url) == Scheme + url
  {
    ForeignSchemeExampleShape(url);
  }

  /** Fixing an already fixed URL changes nothing. */
  lemma {:induction false} FixIsIdempotent(url: string)
    ensures FixDatabaseUrl(FixDatabaseUrl(url)) == FixDatabaseUrl(url)
  {
    var r := FixDatabaseUrl(url);
    assert !StartsWith(Scheme, LegacyScheme) by { assert Scheme[8] != LegacyScheme[8]; }
    if StartsWith(url, LegacyScheme) || StartsWith(url, Scheme) || LooksLikeCredentials(url) {
      assert StartsWith(r, Scheme) || r == url;
      if StartsWith(r, Scheme) {
        assert r[..|LegacyScheme|] == Scheme[..|LegacyScheme|];
        assert !StartsWith(r, LegacyScheme);
      }
    }
  }

  /** The module-level start-up step: an unset or empty DATABASE_URL is
      rejected before any fixing; otherwise the fixed URL is used. */
  function ResolveDatabaseUrl(setting: Option<string>): (r: Result<string, string>)
    ensures r.Err? <==> setting.None? || setting.value == ""
    ensures r.Err? ==> r.error == MissingUrlMessage
    ensures r.Ok? ==> r.value == FixDatabaseUrl(setting.value) && r.value != ""
  {
    if setting.None? || setting.value == "" then Err(MissingUrlMessage)
    else Ok(FixDatabaseUrl(setting.value))
  }
}
