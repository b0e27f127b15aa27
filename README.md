# Cultural-tourism app core, modelled in Dafny

This project models the logic at the centre of an Expo tourism app for New York. The rest of the app moves data between the screens and storage. Four parts are modelled:

- **Voice commands** (`voice_service.dfy`, module `VoiceService`). `processVoiceCommand` lower-cases a spoken command once. It then runs a fixed chain of substring tests:
  - nearby places;
  - history;
  - "where am I";
  - navigation;
  - fallback.

  Each branch answers with a reply text and, for some branches, the POI the reply is about. The chain is split in two:
  - `Classify` decides the case, as an `Intent` value.
  - `Respond` renders it as the `{response, poi}` record.

  `Dispatch` over the `Precedence` table is an independent, table-driven statement of the keyword order, and the chain is proved to follow it. Substring search, ASCII lower-casing, number formatting and the `/key(.+)/` capture of the navigation branch live in `text.dfy` (module `Text`).
- **POI catalog** (`poi_service.dfy`, module `PoiService`).
  - The five `mockPOIs` records.
  - `getPOIById`: a first-match search over the catalog that fails with "POI not found".
  - `getNearbyPOIs`: the catalog in order, each record moved to a position the caller supplies.
- **Favorites** (`favorite_service.dfy`, module `FavoriteService`). The favorite POI ids are one list stored under the key `user_favorites`.
  - The list operations are pure functions: `RemoveAll` and `Toggled`.
  - The store is the class `FavoriteStore`, with the queries `IsFavorite` and `GetFavoritePOIs` and the state-changing methods `ToggleFavorite` and `ClearAllFavorites`.
- **Theme** (`theme_context.dfy`, module `ThemeContext`).
  - Validation of the saved `themeMode` preference.
  - The `isDark` derivation from the mode and the platform's color scheme.
  - The twelve-color palette.
  - A `ThemeProvider` class holding the mode. Its methods `LoadTheme` and `SetTheme` read and write a `KeyValueStore`.

Shared values are in `types.dfy` (module `Types`): `Option`, `Result`, `Position` and the `POI` record.

The model handles time, randomness and failures as follows:
- Storage calls happen synchronously.
- A storage failure is a boolean parameter of the operation that meets it (`readFails`, `writeFails`, `removeFails`).
- The random placement of nearby POIs is a parameter `scatter: nat -> Position`, giving the position of the i-th record.
- The platform's color scheme is a parameter of `ThemeProvider.Value`.

## Model

| member | source | states |
|---|---|---|
| Types.POI.MovedTo | project/services/poiService.ts:76-80 | the spread `{...poi, latitude, longitude}`: the record at the new position, every other field unchanged |
| Text.Lower | project/services/voiceService.ts:15 | `toLowerCase` on ASCII: the length is kept, each capital becomes its lower-case letter (code plus 32), none is left, and every other character is unchanged |
| Text.LowerIdempotent | project/services/voiceService.ts:15 | lower-casing twice is lower-casing once |
| Text.Contains | project/services/voiceService.ts:21 | `includes`: some position holds an occurrence of the keyword; its contract with the scan is `Text.ContainsIffIndexOf` |
| Text.IndexOf | project/services/voiceService.ts:21 | the scan returns an occurrence at or after `from`, and no earlier one exists; `None` only when there is none at all |
| Text.ContainsIffIndexOf | project/services/voiceService.ts:21 | `includes` (some occurrence exists) holds exactly when the left-to-right scan finds one |
| Text.ContainsPrefix | project/services/voiceService.ts:51 | a text that contains `t + u` contains `t` (why "empire state" adds nothing to the test for "empire") |
| Text.DigitChar | project/services/voiceService.ts:29 | the character is a decimal digit whose value is `d` |
| Text.NatToString | project/services/voiceService.ts:29 | the decimal form of a count: non-empty, digits only, one digit exactly below ten, no leading zero |
| Text.DecimalRoundTrip | project/services/voiceService.ts:29 | reading the decimal form back gives the number |
| Text.FirstMatch | project/services/voiceService.ts:125 | the leftmost position where `key` is followed by a character the regex `.` accepts |
| Text.LineEnd | project/services/voiceService.ts:125 | the greedy `(.+)` stops at the first line terminator or at the end |
| Text.LineEndAtEnd | project/services/voiceService.ts:125 | with no line terminator after `j`, the greedy capture runs to the end |
| Text.Capture | project/services/voiceService.ts:125-126 | `match(/key(.+)/)[1]`: `None` exactly when no position matches; otherwise the non-empty text after the key at the leftmost match, running greedily up to the next line terminator or the end |
| Text.CaptureDetermined | project/services/voiceService.ts:125-126 | any text that follows the key at the leftmost match and runs to the next line terminator or the end is exactly the capture |
| PoiService.CatalogIds | project/services/poiService.ts:4-65 | the catalog ids are "1" to "5" in order, so they are pairwise distinct |
| PoiService.FindIndex | project/services/poiService.ts:93 | `find`: the first index whose id matches, with no match before it; `None` exactly when no record matches |
| PoiService.GetPOIById | project/services/poiService.ts:88-102 | a found record is in the catalog and has the id; rejection with "POI not found" exactly when no record has it |
| PoiService.GetPOIByIdFindsEveryEntry | project/services/poiService.ts:93-97 | every catalog record is found, unchanged, by its own id |
| PoiService.GetPOIByIdExact | project/services/poiService.ts:93-97 | a lookup yields `p` exactly when `p` is the catalog record with that id |
| PoiService.NearbyPOIs | project/services/poiService.ts:68-85 | the answer has the catalog's length and order; each entry differs from its catalog record only in the coordinates it was given |
| PoiService.Scattered | project/services/poiService.ts:76-80 | the map keeps the length, and entry i is record i moved to `scatter(i)` |
| PoiService.NearbyIgnoresRadius | project/services/poiService.ts:68-80 | the `radius` argument does not change the answer |
| PoiService.NearbyEntriesResolve | project/services/poiService.ts:76-80 | each nearby entry resolves by id to the catalog record it came from |
| VoiceService.IsMuseum | project/services/voiceService.ts:25 | the case-sensitive museum test: "Museum" in the name or "museum" in the description; `VoiceService.MetIsMuseum` and `VoiceService.Museums` state what it selects |
| VoiceService.Museums | project/services/voiceService.ts:25 | the filter keeps each museum exactly as often as it occurs and drops every other record, so the count in the reply is the number of museum entries |
| VoiceService.MuseumsAppend | project/services/voiceService.ts:25 | the filter keeps order: filtering a concatenation concatenates the filtered parts |
| VoiceService.FirstMuseumIsEarliest | project/services/voiceService.ts:25-30 | the museum the reply names is the earliest museum in the search result |
| VoiceService.Destination | project/services/voiceService.ts:125-126 | the capture after "take me to ", else the capture after "directions to ", else "your destination"; never empty |
| VoiceService.Classify | project/services/voiceService.ts:15-137 | the keyword chain on the lower-cased command; its contract is carried by `ClassifyFollowsPrecedence`, `ClassifyIgnoresCase`, `ClosestComesFromSearch`, `HistoryCase` and the per-branch reply lemmas |
| VoiceService.Respond | project/services/voiceService.ts:20-137 | every reply has a non-empty text, and it carries a POI exactly in the cases that name a landmark or a found place |
| VoiceService.Attached | project/services/voiceService.ts:20-137 | the POI a case attaches: the closest place for the nearby cases, id "1" for the Empire State cases, "2" for Liberty, "3" for Central Park, none otherwise |
| VoiceService.ReplyText | project/services/voiceService.ts:20-137 | the reply text of every case is non-empty |
| VoiceService.FoundText | project/services/voiceService.ts:29 | the "I found N … nearby" reply is non-empty |
| VoiceService.NavigationText | project/services/voiceService.ts:96 | the "I'll help you navigate to …" reply is non-empty |
| VoiceService.MuseumSearch | project/services/voiceService.ts:24 | the museum search returns as many records as the catalog holds |
| VoiceService.PlacesSearch | project/services/voiceService.ts:42 | the generic search returns as many records as the catalog holds, so `pois[0]` exists |
| VoiceService.ProcessVoiceCommand | project/services/voiceService.ts:10-138 | total: every command gets a reply with non-empty text |
| VoiceService.MentionsEither | project/services/voiceService.ts:21 | a row of the precedence table is mentioned exactly when one of its two keywords is |
| VoiceService.DispatchPrecedence | project/services/voiceService.ts:21-89 | the table-driven dispatch is the if-chain nearby, history, location, navigation, fallback |
| VoiceService.ClassifyFollowsPrecedence | project/services/voiceService.ts:20-137 | the branch taken is the first keyword row the lower-cased command mentions, e.g. "nearby" wins over "about" |
| VoiceService.ClassifyIgnoresCase | project/services/voiceService.ts:15 | a command and its lower-case form are classified alike |
| VoiceService.ProcessIgnoresCase | project/services/voiceService.ts:15 | a command and its lower-case form get the same reply |
| VoiceService.NearbyMuseumReply | project/services/voiceService.ts:23-31 | nearby and "museum": the reply counts the museums found (at least one, at most the catalog size) and attaches the first of them |
| VoiceService.MetIsMuseum | project/services/voiceService.ts:25 | the Metropolitan Museum of Art passes the museum filter wherever the search puts it |
| VoiceService.NearbyOtherReply | project/services/voiceService.ts:37-47 | nearby and "restaurant"/"food": the fixed restaurant text and no POI; otherwise a count of 5 and the first catalog record, id "1" |
| VoiceService.HistoryCase | project/services/voiceService.ts:49-83 | within the history branch, "empire" picks the Empire State text, else "liberty"/"statue" picks Liberty, else the local-history text |
| VoiceService.HistoryReply | project/services/voiceService.ts:49-83 | the history replies: POI id "1", else POI id "2", else the fixed text with no POI |
| VoiceService.LocationReply | project/services/voiceService.ts:84-88 | the location branch answers the fixed Midtown text with no POI |
| VoiceService.NavigationReply | project/services/voiceService.ts:89-131 | "empire state" gives its directions and POI "1", else "central park" gives its directions and POI "3", else the extracted destination and no POI |
| VoiceService.FallbackReply | project/services/voiceService.ts:132-136 | a command with no keyword gets the fixed "I'm not sure how to help" text and no POI |
| VoiceService.ClosestComesFromSearch | project/services/voiceService.ts:24-46 | a nearby reply names a museum from the museum search with the museum count, or the first place of the generic search with its length |
| VoiceService.EmpireStateLandmarkMatchesCatalog | project/services/voiceService.ts:54-63 | the Empire State record the replies spell out resolves to catalog entry 1 and agrees with it on all but the description |
| VoiceService.LibertyLandmarkMatchesCatalog | project/services/voiceService.ts:68-77 | the Statue of Liberty record of the history reply resolves to catalog entry 2 and agrees with it on all but the description |
| VoiceService.CentralParkLandmarkMatchesCatalog | project/services/voiceService.ts:112-121 | the Central Park record of the navigation reply resolves to catalog entry 3 and agrees with it on all but the description |
| VoiceService.AttachedResolves | project/services/voiceService.ts:20-137 | every POI a case attaches resolves by `getPOIById` to the catalog record of the same landmark |
| VoiceService.AttachedPoiResolves | project/services/voiceService.ts:20-137 | every POI any reply carries resolves by `getPOIById` to the catalog record of the same landmark |
| VoiceService.DestinationAfterTakeMeTo | project/services/voiceService.ts:125-126 | for a one-line command "take me to " + d, the destination is d |
| VoiceService.DestinationPlaceholder | project/services/voiceService.ts:125-126 | "take me to" with nothing after it matches neither pattern and yields "your destination" |
| FavoriteService.RemoveAll | project/services/favoriteService.ts:49 | the filter drops every copy of `id`, keeps every other id and never grows the list |
| FavoriteService.RemoveAllAppend | project/services/favoriteService.ts:49 | the filter keeps the relative order: filtering a concatenation concatenates the filtered parts |
| FavoriteService.RemoveAllAbsent | project/services/favoriteService.ts:49 | filtering out an id that is not listed changes nothing |
| FavoriteService.RemoveAllNoDuplicates | project/services/favoriteService.ts:49 | the filter keeps a duplicate-free list duplicate-free |
| FavoriteService.Toggled | project/services/favoriteService.ts:45-53 | the toggled list: the id's membership flips and every other id keeps its membership |
| FavoriteService.ToggleAppendsOnce | project/services/favoriteService.ts:50-55 | an absent id is pushed once, at the end: the list grows by one, keeps the old list as its prefix and ends with the id |
| FavoriteService.ToggleRemovesEveryCopy | project/services/favoriteService.ts:47-49 | a listed id disappears entirely, and the ids around it keep their order |
| FavoriteService.ToggleKeepsNoDuplicates | project/services/favoriteService.ts:45-53 | toggling never introduces a duplicate |
| FavoriteService.ToggleTwiceRestores | project/services/favoriteService.ts:40-56 | toggling an absent id twice restores the list exactly |
| FavoriteService.ToggleTwiceRestoresMembership | project/services/favoriteService.ts:40-56 | toggling a listed id twice restores its membership, with the id then last |
| FavoriteService.LookupAll | project/services/favoriteService.ts:19-20 | `Promise.all` of the lookups: all records in id order, or rejection with "POI not found" exactly when some id is stale |
| FavoriteService.LookupAllAppend | project/services/favoriteService.ts:19-20 | the lookups of a concatenation are the lookups of the parts, in order |
| FavoriteService.ToggleFavoriteRecords | project/services/favoriteService.ts:8-56 | adding a known POI to a resolving list puts its record once at the end of the favorite records; toggling it again gives back the records from before |
| FavoriteService.FavoriteStore.constructor | project/services/favoriteService.ts:11-12 | a store with no saved list |
| FavoriteService.FavoriteStore.StoredIds | project/services/favoriteService.ts:11-12 | a missing key reads as the empty list |
| FavoriteService.FavoriteStore.IsFavorite | project/services/favoriteService.ts:28-37 | `isFavoritePOI`: true exactly when the read succeeds and the saved list holds the id |
| FavoriteService.FavoriteStore.GetFavoritePOIs | project/services/favoriteService.ts:8-25 | a failed read or empty list gives []; otherwise the records of the saved ids in saved order, or a rejection for a stale id |
| FavoriteService.FavoriteStore.ToggleFavorite | project/services/favoriteService.ts:40-61 | answers the negation of the old membership and writes the toggled list; read and write failures are rethrown and change nothing; a duplicate-free list stays so; after adding a known POI, the favorite records gain its record at the end |
| FavoriteService.FavoriteStore.ClearAllFavorites | project/services/favoriteService.ts:64-71 | removes the key, after which no id is a favorite and the favorite list is empty; a failed removal is rethrown and changes nothing |
| ThemeContext.ModeName | project/context/ThemeContext.tsx:96 | the name `setTheme` saves is always one of the three names `loadTheme` accepts |
| ThemeContext.ParseSavedTheme | project/context/ThemeContext.tsx:77 | a saved value is adopted exactly when it is "light", "dark" or "system", as the mode of that name |
| ThemeContext.SavedModeReadsBack | project/context/ThemeContext.tsx:76-96 | the name `setTheme` saves is read back by `loadTheme` as the same mode |
| ThemeContext.ModeNameInjective | project/context/ThemeContext.tsx:7 | the three modes are saved under three different names |
| ThemeContext.IsDark | project/context/ThemeContext.tsx:89-90 | dark mode is dark, light mode is light, and system mode is dark exactly when the platform reports dark |
| ThemeContext.ExplicitModeIgnoresSystem | project/context/ThemeContext.tsx:89-90 | an explicit light or dark choice does not depend on the platform scheme |
| ThemeContext.NoSchemeIsLight | project/context/ThemeContext.tsx:89-90 | system mode on a platform that reports no scheme is light |
| ThemeContext.Colors | project/context/ThemeContext.tsx:103-116 | primary, secondary, accent and muted are fixed whatever `isDark` is, and the notification color is the error color |
| ThemeContext.SchemeColorsDiffer | project/context/ThemeContext.tsx:107-114 | each of the other eight colors differs between the palettes |
| ThemeContext.DefaultIsFreshLight | project/context/ThemeContext.tsx:31-49 | the separately written default value agrees with what a fresh provider shows without a dark platform scheme: system mode, not dark, and the light palette field for field |
| ThemeContext.KeyValueStore.constructor | project/context/ThemeContext.tsx:52-66 | a store holding the given entries |
| ThemeContext.KeyValueStore.Get | project/context/ThemeContext.tsx:53-58 | `getItem`: the saved value, or none for a missing key |
| ThemeContext.ThemeProvider.constructor | project/context/ThemeContext.tsx:70 | a provider starts in system mode |
| ThemeContext.ThemeProvider.Value | project/context/ThemeContext.tsx:89-119 | the context value: the mode, `isDark` from the mode and platform scheme, and the palette `isDark` picks |
| ThemeContext.ThemeProvider.LoadTheme | project/context/ThemeContext.tsx:74-83 | adopts a valid saved mode; a missing or unknown value or a failed read leaves the mode unchanged |
| ThemeContext.ThemeProvider.SetTheme | project/context/ThemeContext.tsx:93-100 | the mode is set first; the name is saved under "themeMode" unless the write fails, which is swallowed and does not revert the mode |
| ThemeContext.ReloadRestoresTheme | project/context/ThemeContext.tsx:76-96 | a mode set and saved is the mode a later provider on the same store loads |

## Left out

- Delays, promises and `setTimeout` are left out. Every call completes synchronously.
- `Math.random` and the coordinate arithmetic of `getNearbyPOIs` are left out, because they are random floating-point offsets. The model takes the resulting positions as the parameter `scatter`. Coordinates are `real` constants that are never computed on.
- The catalog's long `description` texts are kept only up to their first sentence, which keeps the string constants small for the verifier. Only the Metropolitan Museum's first sentence mentions "museum", as does the full text. No other description mentions "museum" anywhere, so the museum filter selects the same records either way.
- Lower-casing is modelled for ASCII letters only. Non-ASCII case mappings of `toLowerCase` are not modelled.
- Storage back-ends are not modelled: AsyncStorage, SecureStore, `localStorage` and the web/native `Platform` branch. The store is a map, and JSON serialisation of the id list is taken to round-trip. A read that fails or returns unparsable text is the single `readFails` case.
- Console logging in the `catch` blocks is not modelled.
- The empty saved theme string is not a separate case. JavaScript treats it as falsy, but it is in any case none of the three accepted names.
- Concurrent toggles are not modelled. The source's read-modify-write can lose an update when two toggles interleave, and the model runs operations one at a time.
- VoiceService.Classify: requires `placesSearch` to be non-empty. The source indexes `pois[0]` of the generic search unchecked. `PlacesSearch` proves that search always returns the five catalog records.
- VoiceService.FallbackReply: states one direction only. A command that mentions no keyword gets the fallback reply. The converse is not proved: no other case produces the fallback text.
- VoiceService.NearbyMuseumReply: the "couldn't find any museums" reply is modelled in `ReplyText`. It cannot happen, because the catalog always contains the Metropolitan Museum, and the lemma proves the museum list is never empty.
- ThemeContext.ThemeProvider.Value: React's re-rendering and the `useColorScheme` hook are left out. The platform scheme is a parameter.
- Authentication, maps, location permissions, UI screens and bundler configuration are not part of this model.
