# FoodFinder core, modelled in Dafny

FoodFinder recognises a dish in a photo and lists restaurants that serve it.
This project models the decision logic of its three tiers and proves
properties of it:

- **Server** (`server/app`):
  - the database-URL normaliser (`fix_database_url`) and the check that a URL is configured;
  - the food endpoints: image validation and status mapping for `/recognize`, and the fixed `/dishes` catalogue;
  - the mock restaurant search, which echoes its query.
- **ML service** (`ml/inference.py`): `POST /predict`. It checks the content type, picks the three best-scoring classes best first, and shapes them into result records.
- **Browser client**:
  - the API service: base URL, the `URLSearchParams` query of the restaurant search, the header and option merge, and how a fetch outcome becomes a value or an error;
  - the language provider, with its stored language, guarded setter and translation fallback;
  - the restaurant map's `initMap`: centre, zoom, placemarks in order, fitted bounds, and the directions deep link;
  - the food scanner's selected-image state.

There is one module per source file, plus `Support`, which holds shared datatypes and string lemmas:

| Dafny file | source file | form |
|---|---|---|
| database_url.dfy | `server/app/database.py` | functions and lemmas |
| api_client.dfy | `client/services/api.ts` | functions and lemmas |
| restaurants_route.dfy | `server/app/routes/restaurants.py` | functions |
| food_route.dfy | `server/app/routes/food.py` | functions |
| inference.dfy | `ml/inference.py` | functions for the ranking; a method with a loop for the result list |
| language_context.dfy | `client/app/context/LanguageContext.tsx` | a class with `userLang` and the storage map; a pure lookup |
| restaurant_map.dfy | `client/app/components/RestaurantMap.tsx` | a class for the map widget; `initMap` as a method with a loop |
| food_scanner.dfy | `client/app/components/FoodScanner.tsx` | a class with `selectedImage` |

Some of the program's surroundings are passed in as parameters:

- The network is an input: the outcomes of `fetch`, `httpx` and the ML service, and whether the bytes decode as an image.
- The model's score vector is an input.
- `process.env`, `os.getenv` and `localStorage` are inputs.
- JavaScript's number-to-text conversion is a parameter `show`.
- Whether the Yandex Maps script has loaded is a parameter.

The scanner panel promises a flow: take a picture, have it recognised, find
restaurants (`client/app/components/FoodScanner.tsx:37-38`, `:118-138`).
The code does not implement that flow, and this model covers only what the
code does:

- no component chains recognition into a restaurant search: the "Search Restaurants" button has no handler, and no component calls the API service;
- there is no geolocation request;
- there is no guard against overlapping requests, and no discarding of stale responses;
- an upload accepts any file, despite the "PNG, JPG, JPEG up to 10MB" text (`FoodScanner.tsx:64`): the input's `accept="image/*"` (`FoodScanner.tsx:69`) is only a hint to the file picker, and nothing checks the chosen file's type or size;
- the map is not built at all when the restaurant list is empty;
- `recognizeFood` reports only the status text, not the status code;
- the ML service emits a `food` field, where the client type expects `food_name` (`client/services/api.ts:4`). Each side is modelled as written.

The language provider's start-up effect and setter use the corrected guard
`ParseLang`, which accepts only `en` and `ru`. The guard as written is
modelled separately and compared with it under "## Findings".

## Model

| member | source | states |
|---|---|---|
| DatabaseUrl.FixDatabaseUrl | server/app/database.py:17-32 | A `postgres://` URL becomes `postgresql://` followed by the same remainder. A `postgresql://` URL is returned unchanged. Any other URL gets `postgresql://` prepended exactly when it contains `@` and the text before the first `@` contains `:`; otherwise it is returned unchanged. |
| DatabaseUrl.ReplaceFirstAtFirstOccurrence | server/app/database.py:20 | `replace(pat, rep, 1)` replaces the first occurrence of the pattern and keeps everything before and after it. |
| DatabaseUrl.ReplaceFirstWithoutOccurrence | server/app/database.py:20 | Without an occurrence of the pattern, `replace` returns the string unchanged. |
| DatabaseUrl.BeforeFirstAt | server/app/database.py:27 | `url.split('@')[0]` contains no `@`, is a prefix of the URL, and is followed by `@` when the URL has one. |
| DatabaseUrl.SchemeExcludesLegacy | server/app/database.py:19-23 | A URL that starts with `postgresql://` does not start with `postgres://`, so the two prefix tests never both fire. |
| DatabaseUrl.LegacySchemeRewrittenOnce | server/app/database.py:19-20 | Only the leading `postgres://` is rewritten. A later `postgres://` inside the URL is kept verbatim. |
| DatabaseUrl.ForeignSchemeExampleShape | server/app/database.py:23-27 | `mysql://u:p@h/db` has neither Postgres scheme, yet it passes the credentials shape test. |
| DatabaseUrl.OtherSchemeGetsPrefixed | server/app/database.py:27-28 | The credentials test ignores any existing scheme, so `mysql://u:p@h/db` becomes `postgresql://mysql://u:p@h/db`. |
| DatabaseUrl.FixIsIdempotent | server/app/database.py:17-32 | Fixing an already fixed URL changes nothing. |
| DatabaseUrl.ResolveDatabaseUrl | server/app/database.py:10-13 | An unset or empty `DATABASE_URL` is an error with the message `DATABASE_URL environment variable is required`, raised before any fixing. Otherwise the result is the fixed URL, which is non-empty. |
| ApiClient.BaseUrl | client/services/api.ts:1 | The base URL is `NEXT_PUBLIC_API_URL`, or `http://localhost:8000` when that is unset or empty. It is never empty. |
| ApiClient.Encode | client/services/api.ts:80-86 | A form-encoded name or value contains no `&` and no `=`. |
| ApiClient.EncodeAlphabet | client/services/api.ts:80-86 | An encoded name or value uses only unreserved characters, `+` and `%`, and is never shorter than its input. |
| ApiClient.PercentEncodeAlphabet | client/services/api.ts:80-86 | Percent-encoded bytes use only `%` and hexadecimal digits. |
| ApiClient.Field | client/services/api.ts:80-88 | A serialised `name=value` field contains no `&`, and splits at `=` into exactly the encoded name and the encoded value. |
| ApiClient.QueryFieldsRecoverable | client/services/api.ts:80-88 | A serialised query splits at `&` into exactly one field per parameter, in order. Each field splits back into its encoded name and value. |
| ApiClient.SearchParams | client/services/api.ts:79-86 | The parameters are `dish` first, then `lat` and `lon` in that order. `lat` is present exactly when a location is given, and so is `lon`: never one without the other. |
| ApiClient.SearchQueryFields | client/services/api.ts:80-88 | The search URL's query holds 3 fields with a location and 1 without. They are the fields of the `dish`, `lat`, `lon` parameters, in that order. |
| ApiClient.NamesUnchanged | client/services/api.ts:80-86 | The names `dish`, `lat` and `lon` are serialised unchanged. |
| ApiClient.RequestConfig | client/services/api.ts:38-44 | Without caller headers, the headers are `Content-Type: application/json`. With caller headers, the trailing `...options` spread replaces the merged object with the caller's own. The content type is set exactly when the caller gives no headers or its headers set it. The method and body pass through. |
| ApiClient.PrepareRequest | client/services/api.ts:36-47 | The request URL is the base URL followed by the endpoint, and the options are the merged configuration. |
| ApiClient.Call | client/services/api.ts:61-99 | Recognition POSTs a multipart form with the file under `image` to `/api/food/recognize` and sets no headers. Search goes to `/api/restaurants/search?<query>`, dishes to `/api/food/dishes` and health to `/health`, all through `request` with the JSON headers. Every URL starts with the base URL. |
| ApiClient.ApiErrorMessageCarriesStatus | client/services/api.ts:49-51 | The `API error: <status> <statusText>` message parses back to the same status code and status text. |
| ApiClient.RequestOutcome | client/services/api.ts:46-57 | A rejected fetch is rethrown unchanged, with no retry. A non-ok status throws an error whose message carries the status and the status text. An ok response yields its parsed body, or the JSON parser's error. |
| ApiClient.RecognizeOutcome | client/services/api.ts:71-75 | A non-ok status throws `Recognition failed: <statusText>`. A rejection propagates unchanged. An ok response is handled as in `request`. |
| ApiClient.OutcomesSucceedTogether | client/services/api.ts:49-53 | Both outcome rules succeed exactly on an ok response with a parsable body, and then both yield that body. |
| RestaurantsRoute.SearchRestaurants | server/app/routes/restaurants.py:24-47 | The response echoes the dish unchanged and `lat`/`lon` as given (null when omitted). It always lists the same two restaurants, ids 1 and 2, in that order. |
| RestaurantsRoute.ResponseIgnoresRadiusAndLocation | server/app/routes/restaurants.py:16-47 | The radius has no effect on the response, and the coordinates have no effect on the restaurant list. |
| RestaurantsRoute.HandleSearchQuery | server/app/routes/restaurants.py:12-17 | A request without `dish` is refused with 422, and exactly such requests are. Otherwise the search runs with `radius` defaulting to 5000. |
| FoodRoute.MlServiceUrl | server/app/routes/food.py:10 | The ML service URL is `ML_SERVICE_URL` when set, and `http://localhost:8001` otherwise. |
| FoodRoute.RecognizeFood | server/app/routes/food.py:13-33 | A request without an `image` part is refused with 422. A part without a content type fails before the `try`, giving a bare 500. A non-image content type gets 400 `File must be an image`. In all three cases the ML service is not contacted. Otherwise the image goes to `<ML>/predict` under field `image`, with its filename, bytes and content type. The result is Ok exactly when the service answers 200 with a JSON body, and it is that body. Any other outcome is a 500 whose detail starts with `Recognition failed: `: a non-200 status gives `Recognition failed: 500: ML service error`, and a transport error gives the prefix followed by its message. |
| FoodRoute.PopularDishes | server/app/routes/food.py:36-47 | The catalogue has five dishes, with ids 1 to 5 in order. |
| FoodRoute.DishIdsDistinct | server/app/routes/food.py:40-47 | The catalogue's ids are pairwise distinct. |
| Inference.SelectTop | ml/inference.py:71 | Selecting the `k` best of distinct candidates gives min(k, number of candidates) distinct candidates. Their scores never increase along the selection. No candidate left out scores above a selected one. |
| Inference.TopIndices | ml/inference.py:71 | `argsort(...)[-3:][::-1]` gives min(3, number of scores) distinct valid indices in non-increasing order of score. Every selected score is at least every unselected score. |
| Inference.BuildResults | ml/inference.py:72-79 | The loop yields one record per selected index, in order: `food` is the class name, `confidence` is the index's score, and `description` is `This appears to be <food>`. An index past the ten classes raises `list index out of range`, and exactly such an index does. |
| Inference.PredictFood | ml/inference.py:53-87 | A request without an `image` part is refused with 422. A part without a content type fails before the `try`, giving a bare 500. A non-image content type gets 400 before any processing. An undecodable image gets 500 `Prediction failed: <message>`. Otherwise the response reports the selected records, with `top_prediction` the first record or None. With the ten-class score vector there are always three records and a top prediction. A longer vector whose selection reaches past the ten classes gets 500 `Prediction failed: list index out of range`. |
| Inference.ReportedRanking | ml/inference.py:71-84 | The reported records number min(3, number of scores) and come in non-increasing order of confidence. None of them has a lower confidence than a class that was not selected. |
| LanguageContext.ParseLang | client/app/context/LanguageContext.tsx:9-20 | A language code is accepted exactly when it is `en` or `ru`, and it maps to the language with that code. |
| LanguageContext.ParseCode | client/app/context/LanguageContext.tsx:9-20 | Every supported language's code is accepted as that language. |
| LanguageContext.Translate | client/app/context/LanguageContext.tsx:49-51 | The result is the table's entry for the key when that entry is present and non-empty, and the key itself otherwise. It is empty only for an empty key. |
| LanguageContext.StartupLanguage | client/app/context/LanguageContext.tsx:31-38 | At start-up a stored value is adopted only when it names a supported language. Otherwise the language is English. |
| LanguageContext.StoredLanguageRestored | client/app/context/LanguageContext.tsx:33-44 | The language the setter stores is the one start-up restores. |
| LanguageContext.DefaultContextTranslatesToKey | client/app/context/LanguageContext.tsx:22-26 | Without a provider the language is English and `t` returns its key. |
| LanguageContext.LanguageProvider.constructor | client/app/context/LanguageContext.tsx:29 | The provider starts in English, with storage as given. |
| LanguageContext.LanguageProvider.LoadStoredLanguage | client/app/context/LanguageContext.tsx:31-39 | The mount effect sets the start-up language that the corrected guard `ParseLang` chooses from the stored value, and it only reads storage. |
| LanguageContext.LanguageProvider.SetUserLang | client/app/context/LanguageContext.tsx:41-46 | Through the corrected guard `ParseLang`: an unsupported code changes neither the language nor the storage. A supported code becomes the language and is stored under `userLang`, so the next start-up restores it. |
| LanguageContext.LanguageProvider.T | client/app/context/LanguageContext.tsx:49-51 | `t` returns the current language's entry for the key when it is present and non-empty, and the key otherwise. |
| LanguageContext.AsWrittenStartupCode | client/app/context/LanguageContext.tsx:33-38 | As written, a non-empty stored value that passes the `translations[stored]` guard is adopted as the language code, inherited object names included. Anything else gives `en`. |
| LanguageContext.AsWrittenAdoptsInheritedName | client/app/context/LanguageContext.tsx:34-42 | A stored `constructor` passes the guard as written and is adopted as the language code. The corrected guard refuses it and starts in English. |
| LanguageContext.StartupAgreesOffPrototype | client/app/context/LanguageContext.tsx:33-38 | Apart from inherited object names, the guard as written and the corrected guard choose the same language. |
| RestaurantMap.DirectionsUrlNamesLonThenLat | client/app/components/RestaurantMap.tsx:76 | The directions link `https://yandex.com/maps/?pt=<lon>,<lat>&z=15&l=map` carries a `pt` parameter that reads back as the longitude and then the latitude. |
| RestaurantMap.PairReadsBack | client/app/components/RestaurantMap.tsx:76 | A comma-separated pair before a `&` reads back as its two parts, whatever the prefix. |
| RestaurantMap.RestaurantMarkers | client/app/components/RestaurantMap.tsx:61-90 | There is one placemark per restaurant, in list order. |
| RestaurantMap.MarkerPlanOrder | client/app/components/RestaurantMap.tsx:44-90 | A user placemark is added exactly when the user's location is known, and then it comes first. After it comes exactly one placemark per restaurant, in list order. |
| RestaurantMap.OnlyUserMarkerLooksLikeUser | client/app/components/RestaurantMap.tsx:52-87 | Only the first placemark, and only when the user's location is known, carries the user's icon preset. |
| RestaurantMap.InitialCenter | client/app/components/RestaurantMap.tsx:38 | The map is centred on the user when the location is known, and on the first restaurant otherwise. |
| RestaurantMap.BoundsOf | client/app/components/RestaurantMap.tsx:94 | `getBounds()` is a rectangle that holds every placemark, and each of whose four sides passes through a placemark, so it is the smallest such rectangle. |
| RestaurantMap.YandexMap.constructor | client/app/components/RestaurantMap.tsx:37-41 | A new map has the given centre and zoom, no placemarks, and no fitted bounds. |
| RestaurantMap.YandexMap.Add | client/app/components/RestaurantMap.tsx:57-89 | `geoObjects.add` appends the placemark and changes nothing else. |
| RestaurantMap.YandexMap.SetBounds | client/app/components/RestaurantMap.tsx:94-97 | `setBounds` records the rectangle and changes nothing else. |
| RestaurantMap.InitMap | client/app/components/RestaurantMap.tsx:23-99 | No map is built without restaurants, without a mounted container, or without the map library. Otherwise the map is centred as `InitialCenter` says, at zoom 13, and holds the placemarks of the plan in order. It is fitted to the rectangle of its placemarks exactly when there is more than one restaurant or a user location. |
| RestaurantMap.FooterCountsRestaurants | client/app/components/RestaurantMap.tsx:124 | The caption `Found <n> restaurants` carries the length of the restaurant list as its decimal number. |
| FoodScanner.ScreenFor | client/app/components/FoodScanner.tsx:50-104 | The upload prompt shows exactly when no image is selected (or the data URL is empty, which is falsy). Otherwise the preview shows the selected image. |
| FoodScanner.FirstFile | client/app/components/FoodScanner.tsx:14 | Only the first chosen file is used, and there is none when no file was chosen. |
| FoodScanner.Scanner.constructor | client/app/components/FoodScanner.tsx:11 | Initially no image is selected. |
| FoodScanner.Scanner.HandleImageUpload | client/app/components/FoodScanner.tsx:13-22 | The handler starts reading exactly the file `FirstFile` picks, whatever its size or type, and changes no state. Without a file nothing happens. |
| FoodScanner.Scanner.OnReaderLoad | client/app/components/FoodScanner.tsx:17-19 | The reader's data URL replaces any earlier image, and the preview shows it. |
| FoodScanner.Scanner.Retake | client/app/components/FoodScanner.tsx:97 | Retake clears the image whatever the prior state, and the upload prompt shows. |
| FoodScanner.Scanner.PressSearchRestaurants | client/app/components/FoodScanner.tsx:86-93 | The "Search Restaurants" button has no handler, so pressing it changes nothing. |

## Left out

- Engine creation, the connection test, sessions and `create_tables` in `server/app/database.py`: database I/O.
- The ORM models, `server/app/main.py`, `ml/train.py` and `ml/config.py`: not part of this model. They are wiring, training numerics and unused defaults.
- Presentational components (Navbar, Footer, About, Hero, layout): not part of this model.
- `fetch`, `httpx`, `FileReader`, `console.error` and the `ymaps` API: their outcomes are inputs, and logging is dropped.
- Injection of the Yandex Maps script (`RestaurantMap.tsx:102-112`): reduced to the flag saying whether the library is loaded.
- Image decoding, the torch transforms and the random placeholder model in `ml/inference.py`: floating-point and foreign code. The decoding outcome and the score vector are inputs.
- Scores, ratings and coordinates are Dafny `real`s. Python and JavaScript floats, NaN included, are not modelled. Neither is the text JavaScript renders for a number, which is the parameter `show`.
- The HTML markup of a restaurant's balloon: modelled as the values interpolated into it and the directions link.
- The `setBounds` options (`checkZoomRange`, `zoomMargin`), the map controls and the `height` prop: presentation only.
- Inference.SelectTop: the order of equal scores under `np.argsort` is not specified. The model breaks ties by taking the earliest candidate, and its contract claims only the order and dominance properties, which hold for any tie order.
- Inference.PredictFood: it reports the classes `TopIndices` selects, so under tied scores the reported classes follow the model's earliest-index choice (ten equal scores give pizza, burger, sushi), where `np.argsort(...)[-3:][::-1]` may report other tied classes (a stable sort gives sandwich, curry, ramen). Only the ordering and dominance of the reported confidences, as `Inference.ReportedRanking` states, hold for every tie order.
- Inference.ReportedRanking: it states order and dominance of the reported confidences, not which of several tied classes are reported.
- ApiClient.Encode: JavaScript strings are UTF-16. The replacement of lone surrogates by U+FFFD before encoding is not modelled, because Dafny characters are Unicode scalar values.
- RestaurantsRoute.HandleSearchQuery: FastAPI's 422 validation document and its type coercion of `lat`, `lon` and `radius` are reduced to the status code and to already-typed inputs.
- FoodRoute.RecognizeFood: the text of a transport exception and of a JSON decoding error is an input message. FastAPI's 422 validation document for a missing `image` part is reduced to its status.
- Inference.PredictFood: FastAPI's 422 validation document for a missing `image` part is reduced to its status.
- LanguageContext.Translate: keys that name `Object.prototype` members (`toString`, `constructor`, ...) are not modelled. On the plain objects the source indexes, such a key yields the inherited member, a function, rather than a string. The model's tables are maps of strings, so it returns the key.
- LanguageContext.LanguageProvider.T: it is `Translate` on the current table, so the same `Object.prototype` keys are not modelled.
- The `except` branch of `search_restaurants`: nothing inside its `try` can raise, so it is not modelled.
- Exceptions of the ML service other than decoding and class indexing (for example, an error inside the model): the score vector is taken as given.

## Findings

| source | as written | input that shows it | evidently intended | confidence | as-written member | corrected member |
|---|---|---|---|---|---|---|
| client/app/context/LanguageContext.tsx:34 | The start-up guard `stored && translations[stored]`, like the setter's guard on line 42, tests a property of a plain object. Names inherited from `Object.prototype` are truthy there, so they pass. | A `userLang` entry of `constructor` in `localStorage` is adopted as the language code. | Only `en` and `ru` are accepted, and anything else starts in English. | medium, not executed | `LanguageContext.AsWrittenAdoptsInheritedName` | `LanguageContext.StartupLanguage` |
