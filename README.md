# Saigon Eats venue directory, modelled in Dafny

This project models the in-memory core of the Saigon Eats venue directory, a Next.js site listing restaurants, cafés and bars in Ho Chi Minh City. The model covers these parts:

- **Record model.** The closed enumerations `LocationType`, `Cuisine` and `District`, the price band, and the `Location` record (`locations.dfy`). The fifty curated venue records, one function per record (`curated.dfy`).
- **Conversion of a community submission into a `Location`** (`convert.dfy`). This covers `normalizeCuisine`, feature generation from category, cuisines and comment keywords, and deduplication followed by title-casing.
- **The filter store** (`store.dfy`). A class with the store's fields, one setter per field, `resetFilters`, and `applyFilters` written as the same sequence of steps as the source:
  - convert the approved submissions and merge them after the curated list;
  - apply five optional filters;
  - optionally sort in place.
  Every setter is proved to leave the store holding exactly `Query` of its inputs (`query.dfy`). `Query` is the specification: a record is in the result iff it is in the merged list and passes every active clause; unsorted output keeps merge order; sorted output is a sorted, stable permutation (`sorting.dfy`).
- **The second converter** used when a suggestion is approved from the admin view (`suggestions.dfy`).
- **The feature-tag classifier and the price default of the location card** (`locationcard.dfy`).
- **The vote button** (`vote.dfy`). A two-step state machine, because the click handler awaits the remote update. A class follows the component's state hooks.
- **The suggestion form** (`suggestionform.dfy`). Place selection with its fallbacks, the submit guards, the payload, and the form reset. A class holds the form's state.
- **The filter sidebar's toggle-or-clear rule and its option lists** (`sidebar.dfy`).
- **The map-link helpers** (`maps.dfy`). This includes `encodeURIComponent` over UTF-16 code units, as section 18.2.6.5 of ECMA-262 (6th edition) defines it. A lone surrogate raises `URIError`, which the helper turns into `'#'`.

Shared helpers:

- `text.dfy` models the JavaScript string operations the core uses. Case mapping is over ASCII only.
- `seqs.dfy` models the array operations: filter, map, and `Array.from(new Set(...))`.
- `wrappers.dfy` defines `Option`.

Inputs the source reads from its environment are parameters:

- the current time `now`, in milliseconds;
- the outcome of each remote write (`succeeded`, `addSucceeds`);
- the result of the Places details lookup (`details: Option<PlaceDetails>`);
- whether the browser is mobile (`isMobile`);
- the browser storage, as a map.

## Model

| member | source | states |
|---|---|---|
| Locations.LocationTypeFacts | src/data/locations.ts:2-11 | the option list has eight distinct members covering the type, all values are lower case, and only 'coffee shop' contains a space |
| Locations.ParseLocationType | src/data/locations.ts:2-11 | a parsed type has exactly the given string as its value |
| Locations.LocationTypeRoundTrip | src/data/locations.ts:2-11 | parsing a type's value gives that type back |
| Locations.LocationTypeValuesDistinct | src/data/locations.ts:2-11 | two types share a value iff they are the same type |
| Locations.CuisineFacts | src/data/locations.ts:13-40 | the option list has nineteen distinct members covering the enum |
| Locations.ParseCuisine | src/data/locations.ts:13-40 | a parsed cuisine has exactly the given string as its value |
| Locations.CuisineRoundTrip | src/data/locations.ts:13-40 | parsing a cuisine's value gives that cuisine back |
| Locations.CuisineValuesDistinct | src/data/locations.ts:13-40 | two cuisines share a value iff they are the same cuisine |
| Locations.CuisineValuesLowerCase | src/data/locations.ts:13-40 | every cuisine value is lower case |
| Locations.CuisineValueStartsLower | src/data/locations.ts:13-40 | every cuisine value starts with a lower-case letter |
| Locations.SharedTypeAndCuisineValues | src/data/locations.ts:2-40 | a type value equals a cuisine value exactly for cafe, bakery and dessert |
| Locations.DistrictFacts | src/data/locations.ts:42-52 | nine distinct districts, listed once each, and no district value is a substring of another |
| Locations.ParseDistrict | src/data/locations.ts:42-52 | a parsed district has exactly the given string as its value |
| Locations.DistrictRoundTrip | src/data/locations.ts:42-52 | parsing a district's value gives that district back |
| Locations.DistrictValuesDistinct | src/data/locations.ts:42-52 | two districts share a value iff they are the same district |
| Locations.DistrictNotSubstring | src/data/locations.ts:42-52 | the value of one district never occurs inside the value of another |
| Locations.ParsePriceRange | src/data/locations.ts:74 | a parsed price band has exactly the given string as its value |
| Locations.PriceRangeRoundTrip | src/data/locations.ts:74 | parsing 'low', 'medium' or 'high' gives that band back |
| Locations.AsciiUnits | src/data/locations.ts:55-60 | an ASCII string read as UTF-16 code units keeps its length and its character codes |
| Locations.LocationType.Value | src/data/locations.ts:2-11 | definition of each venue type's string; its properties are `Locations.LocationTypeFacts`, `Locations.LocationTypeRoundTrip` and `Locations.LocationTypeValuesDistinct` |
| Locations.AllLocationTypes | src/data/locations.ts:2-11 | definition of `Object.values(LocationType)` in declaration order; its properties are in `Locations.LocationTypeFacts` |
| Locations.Cuisine.Value | src/data/locations.ts:13-40 | definition of each cuisine's string; its properties are `Locations.CuisineFacts`, `Locations.CuisineRoundTrip`, `Locations.CuisineValuesDistinct` and `Locations.CuisineValuesLowerCase` |
| Locations.AllCuisines | src/data/locations.ts:13-40 | definition of `Object.values(Cuisine)` in declaration order; its properties are in `Locations.CuisineFacts` |
| Locations.District.Value | src/data/locations.ts:42-52 | definition of each district's string; its properties are `Locations.DistrictFacts`, `Locations.DistrictRoundTrip` and `Locations.DistrictNotSubstring` |
| Locations.AllDistricts | src/data/locations.ts:42-52 | definition of `Object.values(District)` in declaration order; its properties are in `Locations.DistrictFacts` |
| Locations.PriceRange.Value | src/data/locations.ts:74 | definition of the strings 'low', 'medium' and 'high'; its properties are `Locations.ParsePriceRange` and `Locations.PriceRangeRoundTrip` |
| Curated.CuratedLocations | src/data/locations.ts:95-974 | definition of the fifty curated records in source order, one record function each; each record's row states its contents and its well-formedness |
| Curated.WellFormedTableFacts | src/data/locations.ts:95-974 | a table whose every record is well formed at its position has pairwise-distinct ids, non-empty feature lists, an address naming a district in every record, and no cuisine exactly for blank-lounge, shadow-lounge and spa-nhan-tam |
| Curated.Pizza4psVivo | src/data/locations.ts:96-115 | the record 'pizza-4ps-vivo' is well formed at position 0: its id is listed at 0, it has features, its address names a district, and it lacks a cuisine iff it is one of the three without one |
| Curated.Pizza4psThuKhoaHuan | src/data/locations.ts:116-131 | the record 'pizza-4ps-thu-khoa-huan' is well formed at position 1: its id is listed at 1, it has features, its address names a district, and it lacks a cuisine iff it is one of the three without one |
| Curated.PhoHoa | src/data/locations.ts:132-146 | the record 'pho-hoa' is well formed at position 2: its id is listed at 2, it has features, its address names a district, and it lacks a cuisine iff it is one of the three without one |
| Curated.ElGaucho | src/data/locations.ts:147-165 | the record 'el-gaucho' is well formed at position 3: its id is listed at 3, it has features, its address names a district, and it lacks a cuisine iff it is one of the three without one |
| Curated.PaperPlatePizza | src/data/locations.ts:166-181 | the record 'paper-plate-pizza' is well formed at position 4: its id is listed at 4, it has features, its address names a district, and it lacks a cuisine iff it is one of the three without one |
| Curated.ArchiesPizza | src/data/locations.ts:182-196 | the record 'archies-pizza' is well formed at position 5: its id is listed at 5, it has features, its address names a district, and it lacks a cuisine iff it is one of the three without one |
| Curated.HungryBunny | src/data/locations.ts:197-216 | the record 'hungry-bunny' is well formed at position 6: its id is listed at 6, it has features, its address names a district, and it lacks a cuisine iff it is one of the three without one |
| Curated.MadRoosta | src/data/locations.ts:217-232 | the record 'mad-roosta' is well formed at position 7: its id is listed at 7, it has features, its address names a district, and it lacks a cuisine iff it is one of the three without one |
| Curated.RedBison | src/data/locations.ts:233-247 | the record 'red-bison' is well formed at position 8: its id is listed at 8, it has features, its address names a district, and it lacks a cuisine iff it is one of the three without one |
| Curated.EddiesDiner | src/data/locations.ts:248-263 | the record 'eddies-diner' is well formed at position 9: its id is listed at 9, it has features, its address names a district, and it lacks a cuisine iff it is one of the three without one |
| Curated.QuanUtUt | src/data/locations.ts:264-283 | the record 'quan-ut-ut' is well formed at position 10: its id is listed at 10, it has features, its address names a district, and it lacks a cuisine iff it is one of the three without one |
| Curated.BunThitNuong | src/data/locations.ts:284-299 | the record 'bun-thit-nuong' is well formed at position 11: its id is listed at 11, it has features, its address names a district, and it lacks a cuisine iff it is one of the three without one |
| Curated.DenLong | src/data/locations.ts:300-318 | the record 'den-long' is well formed at position 12: its id is listed at 12, it has features, its address names a district, and it lacks a cuisine iff it is one of the three without one |
| Curated.PhoHung | src/data/locations.ts:319-333 | the record 'pho-hung' is well formed at position 13: its id is listed at 13, it has features, its address names a district, and it lacks a cuisine iff it is one of the three without one |
| Curated.BanhMiBaHuynh | src/data/locations.ts:334-348 | the record 'banh-mi-ba-huynh' is well formed at position 14: its id is listed at 14, it has features, its address names a district, and it lacks a cuisine iff it is one of the three without one |
| Curated.TippysMexican | src/data/locations.ts:349-367 | the record 'tippys-mexican' is well formed at position 15: its id is listed at 15, it has features, its address names a district, and it lacks a cuisine iff it is one of the three without one |
| Curated.RicoTaco | src/data/locations.ts:368-386 | the record 'rico-taco' is well formed at position 16: its id is listed at 16, it has features, its address names a district, and it lacks a cuisine iff it is one of the three without one |
| Curated.KowloonBingsu | src/data/locations.ts:387-405 | the record 'kowloon-bingsu' is well formed at position 17: its id is listed at 17, it has features, its address names a district, and it lacks a cuisine iff it is one of the three without one |
| Curated.HoHoMei | src/data/locations.ts:406-424 | the record 'ho-ho-mei' is well formed at position 18: its id is listed at 18, it has features, its address names a district, and it lacks a cuisine iff it is one of the three without one |
| Curated.DulceDeSaigon | src/data/locations.ts:425-444 | the record 'dulce-de-saigon' is well formed at position 19: its id is listed at 19, it has features, its address names a district, and it lacks a cuisine iff it is one of the three without one |
| Curated.DoshDoughnuts | src/data/locations.ts:445-463 | the record 'dosh-doughnuts' is well formed at position 20: its id is listed at 20, it has features, its address names a district, and it lacks a cuisine iff it is one of the three without one |
| Curated.MaisonMarou | src/data/locations.ts:464-483 | the record 'maison-marou' is well formed at position 21: its id is listed at 21, it has features, its address names a district, and it lacks a cuisine iff it is one of the three without one |
| Curated.LittleHanoi | src/data/locations.ts:484-498 | the record 'little-hanoi' is well formed at position 22: its id is listed at 22, it has features, its address names a district, and it lacks a cuisine iff it is one of the three without one |
| Curated.BlankLounge | src/data/locations.ts:499-517 | the record 'blank-lounge' is well formed at position 23: its id is listed at 23, it has features, its address names a district, and it lacks a cuisine iff it is one of the three without one |
| Curated.ShadowLounge | src/data/locations.ts:518-531 | the record 'shadow-lounge' is well formed at position 24: its id is listed at 24, it has features, its address names a district, and it lacks a cuisine iff it is one of the three without one |
| Curated.TheWorkshop | src/data/locations.ts:532-551 | the record 'the-workshop' is well formed at position 25: its id is listed at 25, it has features, its address names a district, and it lacks a cuisine iff it is one of the three without one |
| Curated.TheCafeApartment | src/data/locations.ts:552-571 | the record 'the-cafe-apartment' is well formed at position 26: its id is listed at 26, it has features, its address names a district, and it lacks a cuisine iff it is one of the three without one |
| Curated.SaigonCasaCafe | src/data/locations.ts:572-590 | the record 'saigon-casa-cafe' is well formed at position 27: its id is listed at 27, it has features, its address names a district, and it lacks a cuisine iff it is one of the three without one |
| Curated.CongCaphe | src/data/locations.ts:591-609 | the record 'cong-caphe' is well formed at position 28: its id is listed at 28, it has features, its address names a district, and it lacks a cuisine iff it is one of the three without one |
| Curated.LusineDongKhoi | src/data/locations.ts:610-628 | the record 'lusine-dong-khoi' is well formed at position 29: its id is listed at 29, it has features, its address names a district, and it lacks a cuisine iff it is one of the three without one |
| Curated.MisterWaffle | src/data/locations.ts:629-647 | the record 'mister-waffle' is well formed at position 30: its id is listed at 30, it has features, its address names a district, and it lacks a cuisine iff it is one of the three without one |
| Curated.FortyThreeFactory | src/data/locations.ts:648-666 | the record '43-factory' is well formed at position 31: its id is listed at 31, it has features, its address names a district, and it lacks a cuisine iff it is one of the three without one |
| Curated.SpaNhanTam | src/data/locations.ts:667-680 | the record 'spa-nhan-tam' is well formed at position 32: its id is listed at 32, it has features, its address names a district, and it lacks a cuisine iff it is one of the three without one |
| Curated.FaroCafe | src/data/locations.ts:681-699 | the record 'faro-cafe' is well formed at position 33: its id is listed at 33, it has features, its address names a district, and it lacks a cuisine iff it is one of the three without one |
| Curated.RunningBeanHtm | src/data/locations.ts:700-714 | the record 'running-bean-htm' is well formed at position 34: its id is listed at 34, it has features, its address names a district, and it lacks a cuisine iff it is one of the three without one |
| Curated.RunningBeanMtb | src/data/locations.ts:715-733 | the record 'running-bean-mtb' is well formed at position 35: its id is listed at 35, it has features, its address names a district, and it lacks a cuisine iff it is one of the three without one |
| Curated.MojoNguyenHue | src/data/locations.ts:734-748 | the record 'mojo-nguyen-hue' is well formed at position 36: its id is listed at 36, it has features, its address names a district, and it lacks a cuisine iff it is one of the three without one |
| Curated.TonkinGarden | src/data/locations.ts:749-767 | the record 'tonkin-garden' is well formed at position 37: its id is listed at 37, it has features, its address names a district, and it lacks a cuisine iff it is one of the three without one |
| Curated.SignatureCoffeeHouse | src/data/locations.ts:768-787 | the record 'signature-coffee-house' is well formed at position 38: its id is listed at 38, it has features, its address names a district, and it lacks a cuisine iff it is one of the three without one |
| Curated.FigCafe | src/data/locations.ts:788-806 | the record 'fig-cafe' is well formed at position 39: its id is listed at 39, it has features, its address names a district, and it lacks a cuisine iff it is one of the three without one |
| Curated.AgaveSaigon | src/data/locations.ts:807-821 | the record 'agave-saigon' is well formed at position 40: its id is listed at 40, it has features, its address names a district, and it lacks a cuisine iff it is one of the three without one |
| Curated.ChidoMexican | src/data/locations.ts:822-836 | the record 'chido-mexican' is well formed at position 41: its id is listed at 41, it has features, its address names a district, and it lacks a cuisine iff it is one of the three without one |
| Curated.ElCamino | src/data/locations.ts:837-851 | the record 'el-camino' is well formed at position 42: its id is listed at 42, it has features, its address names a district, and it lacks a cuisine iff it is one of the three without one |
| Curated.SulBingsu | src/data/locations.ts:852-870 | the record 'sul-bingsu' is well formed at position 43: its id is listed at 43, it has features, its address names a district, and it lacks a cuisine iff it is one of the three without one |
| Curated.CrispyDonuts | src/data/locations.ts:871-889 | the record 'crispy-donuts' is well formed at position 44: its id is listed at 44, it has features, its address names a district, and it lacks a cuisine iff it is one of the three without one |
| Curated.ThreeFiftyF | src/data/locations.ts:890-908 | the record '350f' is well formed at position 45: its id is listed at 45, it has features, its address names a district, and it lacks a cuisine iff it is one of the three without one |
| Curated.MankiArtisan | src/data/locations.ts:909-923 | the record 'manki-artisan' is well formed at position 46: its id is listed at 46, it has features, its address names a district, and it lacks a cuisine iff it is one of the three without one |
| Curated.BalconyCoffee | src/data/locations.ts:924-943 | the record 'balcony-coffee' is well formed at position 47: its id is listed at 47, it has features, its address names a district, and it lacks a cuisine iff it is one of the three without one |
| Curated.BanhMiBtx | src/data/locations.ts:944-958 | the record 'banh-mi-btx' is well formed at position 48: its id is listed at 48, it has features, its address names a district, and it lacks a cuisine iff it is one of the three without one |
| Curated.BenNgheStreetFood | src/data/locations.ts:959-973 | the record 'ben-nghe-street-food' is well formed at position 49: its id is listed at 49, it has features, its address names a district, and it lacks a cuisine iff it is one of the three without one |
| Text.LowerChar | src/lib/store.ts:45 | `toLowerCase` on one character maps exactly the upper-case ASCII letters, down by 32, and leaves no upper-case letter |
| Text.UpperChar | src/lib/store.ts:35 | `toUpperCase` on one character maps exactly the lower-case ASCII letters, up by 32 |
| Text.Lower | src/lib/store.ts:45 | `toLowerCase` keeps the length and lower-cases each character |
| Text.Upper | src/lib/store.ts:35 | `toUpperCase` keeps the length and upper-cases each character |
| Text.LowerIsLowerCase | src/lib/store.ts:102 | a lower-cased string contains no upper-case letter |
| Text.LowerOfLowerCase | src/lib/store.ts:265 | lower-casing a string already in lower case changes nothing |
| Text.LowerConcat | src/lib/store.ts:293 | lower-casing distributes over concatenation |
| Text.UpperThenLowerChar | src/lib/store.ts:35 | lower-casing an upper-cased character gives its lower-case form |
| Text.ContainsEmpty | src/lib/store.ts:64 | every string includes the empty string |
| Text.StartsWithContains | src/lib/utils/maps.ts:25 | a prefix is included |
| Text.ContainsSelf | src/lib/store.ts:64 | every string includes itself |
| Text.ContainsLength | src/lib/store.ts:64 | an included string is no longer than the one including it |
| Text.ContainsSameLength | src/lib/store.ts:64 | between strings of equal length, inclusion is equality |
| Text.ContainsTransitive | src/lib/store.ts:64 | inclusion is transitive |
| Text.ContainsMiddle | src/lib/store.ts:293 | a string occurs in any string built around it |
| Text.ContainsKeepsChars | src/lib/store.ts:64 | every character of an included string occurs in the including one |
| Text.NotContainsByChar | src/components/features/LocationCard.tsx:31-91 | a string containing a character the other lacks is not included in it |
| Text.ContainsLower | src/lib/store.ts:293 | inclusion survives lower-casing both sides |
| Text.ContainsInPrefix | src/lib/store.ts:64 | what a prefix includes, the whole string includes |
| Text.ContainsInSuffix | src/lib/store.ts:64 | what a suffix includes, the whole string includes |
| Text.ReplaceChar | src/components/features/LocationCard.tsx:27 | `replace(/-/g, ' ')` keeps the length and replaces exactly the dashes |
| Text.KeepPhoneChars | src/lib/store.ts:117 | `replace(/[^0-9+]/g, '')` is no longer than its input and holds exactly the input's digits and '+' |
| Text.KeepPhoneCharsChar | src/lib/store.ts:117 | a single character is kept iff it is a digit or '+' |
| Text.KeepPhoneCharsConcat | src/lib/store.ts:117 | cleaning a concatenation concatenates the cleaned pieces, so with the single-character case the kept characters stay in their order and nothing else is kept |
| Text.KeepPhoneCharsOfClean | src/lib/store.ts:117 | a phone string of digits and '+' only is kept as it is |
| Text.KeepPhoneCharsIdempotent | src/lib/store.ts:117 | the cleaning is idempotent, and a string is its own cleaning iff it holds only digits and '+' |
| Text.LeadingSpace | src/components/features/SuggestionForm.tsx:173 | the count of leading characters that are all whitespace, stopping at the first non-whitespace one |
| Text.TrailingSpace | src/components/features/SuggestionForm.tsx:173 | the count of trailing characters that are all whitespace, stopping at the last non-whitespace one |
| Text.TrimSpec | src/components/features/SuggestionForm.tsx:173 | `trim()` cuts only whitespace from both ends and leaves a result that neither starts nor ends with whitespace |
| Text.TrimIdempotent | src/components/features/SuggestionForm.tsx:173 | trimming twice is trimming once |
| Text.Split | src/lib/store.ts:83 | `split(' ')` gives at least one piece and no piece contains the separator |
| Text.JoinSplit | src/lib/store.ts:83-85 | joining the pieces of a split with the separator gives back the original string |
| Text.Capitalize | src/lib/store.ts:84 | a word keeps its length, its first character is upper-cased and the rest lower-cased |
| Text.MapCapitalize | src/lib/store.ts:84 | every word of the list is capitalised, in order |
| Text.CaseFrom | src/lib/store.ts:82-85 | the character-by-character reference for title case keeps the length |
| Text.CaseFromAt | src/lib/store.ts:82-85 | in the reference, a character after a space or at the start is upper-cased, spaces stay, all else is lower-cased |
| Text.TitleCaseIsCaseFrom | src/lib/store.ts:82-85 | the split/capitalise/join pipeline equals the character-by-character reference |
| Text.WordsCaseFrom | src/lib/store.ts:82-85 | the split/capitalise/join pipeline agrees with the reference from any starting state |
| Text.CaseCharFacts | src/lib/store.ts:84 | ASCII case mapping is idempotent, lower-after-upper is lower, and only a space maps to a space |
| Text.TitleCaseLowerEquivalent | src/lib/store.ts:82-85 | title-casing keeps the length and only changes letter case |
| Text.TitleCaseIdempotent | src/lib/store.ts:82-85 | title-casing twice is title-casing once |
| Text.OrElse | src/lib/store.ts:101 | an optional string or its fallback: the string when it is present and non-empty, the fallback otherwise |
| Text.OrElseStr | src/lib/store.ts:104 | a string or its fallback: the string when it is non-empty, the fallback otherwise |
| Text.Truthy | src/lib/store.ts:62 | definition of JavaScript truthiness for an optional string: present and non-empty |
| Text.Contains | src/lib/store.ts:64 | definition of `includes`: an occurrence at some offset; its properties are the `Text.Contains…` rows |
| Text.StartsWith | src/lib/utils/maps.ts:25 | definition of `startsWith`; its property is `Text.StartsWithContains` |
| Text.IsPhoneChar | src/lib/store.ts:117 | definition of the characters `[0-9+]` the phone cleaning keeps; its properties are the `Text.KeepPhoneChars…` rows |
| Text.IsJsWhitespace | src/components/features/SuggestionForm.tsx:173 | definition of the code points `trim()` removes, the WhiteSpace and LineTerminator productions of ECMA-262; its properties are in `Text.TrimSpec` |
| Text.Trim | src/components/features/SuggestionForm.tsx:173 | definition of `trim()`; its properties are `Text.TrimSpec` and `Text.TrimIdempotent` |
| Text.Join | src/lib/store.ts:85 | definition of `join(' ')`; its property is `Text.JoinSplit` |
| Text.TitleCase | src/lib/store.ts:82-85 | definition of split, capitalise every word, join; its properties are `Text.TitleCaseIsCaseFrom`, `Text.TitleCaseLowerEquivalent` and `Text.TitleCaseIdempotent` |
| Wrappers.GetOr | src/lib/store.ts:123-124 | definition of `x || default` on a field that may be missing; its properties are in `Conversion.ConvertedShape` and `Vote.Initial` |
| Seqs.Filter | src/lib/store.ts:236 | `filter` keeps exactly the elements satisfying the predicate, and no more elements than the input had |
| Seqs.MapSeq | src/lib/store.ts:237 | `map` keeps the length and applies the function position by position |
| Seqs.MapSeqSnoc | src/lib/store.ts:237 | mapping one more element appends its image |
| Seqs.FilterIsSubsequence | src/lib/store.ts:246-309 | a filtered list is a subsequence of its input, so order is kept |
| Seqs.SubsequenceSkip | src/lib/store.ts:246-309 | a subsequence of a tail is a subsequence of the whole |
| Seqs.SubsequenceTail | src/lib/store.ts:246-309 | the tail of a subsequence is still a subsequence |
| Seqs.FilterConcat | src/lib/store.ts:242-247 | filtering a concatenation filters each part |
| Seqs.FilterFilter | src/lib/store.ts:246-309 | two successive filters equal one filter by the conjunction |
| Seqs.FilterExt | src/lib/store.ts:246-309 | filters whose predicates agree on the list's elements give the same result |
| Seqs.FilterAll | src/lib/store.ts:246-309 | a filter every element passes changes nothing, as happens for an inactive clause |
| Seqs.Dedup | src/lib/store.ts:81 | `Array.from(new Set(s))` has the same elements as `s`, no duplicates, and no more elements |
| Seqs.DedupOfDistinct | src/lib/store.ts:81 | a list without duplicates is kept as it is |
| Seqs.DedupIsSubsequence | src/lib/store.ts:81 | the deduplicated list is a subsequence of the input |
| Seqs.DedupPrefix | src/lib/store.ts:81 | deduplicating a prefix of a list gives a prefix of the deduplicated list |
| Seqs.DedupKeepsFirstOrder | src/lib/store.ts:81 | `Set` insertion order: when `s[j]` is the first occurrence of its value, every earlier value `s[i]` comes before it in the deduplicated list |
| Seqs.SubsequenceAppendRight | src/lib/store.ts:242 | a subsequence of a list is a subsequence of that list extended on the right |
| Seqs.SubsequenceRefl | src/lib/store.ts:242 | a list is a subsequence of itself |
| Seqs.SubsequencePrepend | src/lib/store.ts:242 | a subsequence of a list is a subsequence of that list extended on the left |
| Seqs.SubsequenceAppendBoth | src/lib/store.ts:242 | extending both lists by the same tail keeps the subsequence relation |
| Conversion.NormalizeCuisine | src/lib/store.ts:31-38 | the cuisine is kept iff it is non-empty; its first character is upper-cased and every later one lower-cased, so it keeps its length and its letters ignoring case |
| Conversion.NormalizeCuisineExample | src/lib/store.ts:34-35 | 'VIETNAMESE' normalises to 'Vietnamese': only the first letter stays capital |
| Conversion.PrimaryCuisine | src/lib/store.ts:97 | definition of `cuisines?.[0] || cuisine`; its property is `Conversion.ConvertedCuisineSource` |
| Conversion.Push | src/lib/store.ts:64 | definition of a conditional `features.push(tag)`; its property is `Conversion.PushKeeps` |
| Conversion.MentionsTakeaway | src/lib/store.ts:65-69 | definition of the three takeaway tests; `Conversion.KeywordScanByRules` equates it with the Takeaway rule |
| Conversion.MentionsWifi | src/lib/store.ts:74 | definition of the two wifi tests; `Conversion.KeywordScanByRules` equates it with the WiFi rule |
| Conversion.PushKeywordTags | src/lib/store.ts:63-76 | definition of the eight conditional pushes as written; its properties are `Conversion.KeywordScanByRules` and `Conversion.BaseInCandidates` |
| Conversion.MentionsAny | src/lib/store.ts:63-76 | definition of a rule firing: the comments include one of its keywords; used by `Conversion.RuleTags` |
| Conversion.BaseFeatures | src/lib/store.ts:41-59 | definition of the list before the keyword scan; its properties are `Conversion.CategoryIsFeature`, `Conversion.CuisinesAreFeatures` and `Conversion.DineInAlways` |
| Conversion.CandidateFeatures | src/lib/store.ts:41-77 | definition of the list before deduplication; its properties are `Conversion.BaseInCandidates` and `Conversion.FeaturesFromCandidates` |
| Conversion.Features | src/lib/store.ts:80-86 | definition of deduplicate then title-case; its properties are `Conversion.FeaturesByRules`, `Conversion.KeywordFeature` and `Conversion.NoCamelCaseWiFi` |
| Conversion.SubmittedAt | src/lib/store.ts:92-94 | definition of the time stamp choice; its property is `Conversion.SubmittedAtFallback` |
| Conversion.Converted | src/lib/store.ts:99-125 | definition of the returned record literal; its properties are `Conversion.ConvertedShape`, `Conversion.ConvertedCuisineSource` and `Conversion.ConvertedCuisineNeverEnum` |
| Conversion.MapTitleCase | src/lib/store.ts:81-86 | every feature is title-cased, in order |
| Conversion.KeywordRules | src/lib/store.ts:63-76 | the eight keyword tests as a table of (keywords, tag) rules, in the order the code makes them |
| Conversion.RuleTags | src/lib/store.ts:63-76 | the tags of the rules whose keywords the comments mention, in rule order, at most one per rule |
| Conversion.RuleTagsMembership | src/lib/store.ts:63-76 | a tag is produced iff some rule carrying it has one of its keywords in the comments |
| Conversion.KeywordScanByRules | src/lib/store.ts:63-76 | the eight conditional pushes append to the list exactly the tags of the rule table that the comments mention, in rule order |
| Conversion.PushKeywordFeatures | src/lib/store.ts:62-77 | the eight `if` statements of the keyword scan append exactly the tags of the rules the lower-cased comments mention, in rule order |
| Conversion.GenerateFeatures | src/lib/store.ts:41-89 | the result is the title-cased, deduplicated list of base tags followed by the keyword-rule tags; its members are characterised by `Conversion.FeaturesByRules` and `Conversion.KeywordFeature` |
| Conversion.ConvertSubmissionToLocation | src/lib/store.ts:29-126 | the record built field by field equals `Conversion.Converted`, whose field values `Conversion.ConvertedShape` and the lemmas after it pin down |
| Conversion.ConvertedShape | src/lib/store.ts:99-125 | the id is kept; name, address and submitter are copied, or 'Unnamed Location', 'Address not provided' and 'Anonymous' when empty; the type is exactly the lower-cased category, unchecked; the maps link is copied or ''; the price is 'medium' and there is no rating; a contact exists iff the phone is non-empty, with no email and the phone with all but digits and '+' removed as its clickable form; a website exists iff one was given, links to the given URL and is labelled 'Visit Website'; the description is the comments when they are non-empty, else none; votes and voters are copied, or 0 and none |
| Conversion.SubmittedAtFallback | src/lib/store.ts:92-94 | the submission time is seconds × 1000 when seconds is non-zero, and now otherwise |
| Conversion.ConvertedCuisineNeverEnum | src/lib/store.ts:35 | because the first letter is capitalised, a converted cuisine never equals any `Cuisine` value |
| Conversion.ConvertedCuisineSource | src/lib/store.ts:97-103 | the cuisine is a non-empty `cuisines[0]` capitalised; otherwise it is present iff `cuisine` is non-empty, and then is `cuisine` capitalised |
| Conversion.FeaturesFromCandidates | src/lib/store.ts:81-86 | a string is a feature iff it is the title case of some pushed tag |
| Conversion.DedupTitleCaseMembership | src/lib/store.ts:81-86 | deduplicating then title-casing yields exactly the title cases of the list's elements |
| Conversion.DineInTitleCase | src/lib/store.ts:59 | 'Dine-in' survives title-casing unchanged |
| Conversion.PushKeeps | src/lib/store.ts:64-76 | a conditional push never drops an earlier tag |
| Conversion.BaseInCandidates | src/lib/store.ts:42-77 | every tag pushed before the keyword scan is still in the list after it |
| Conversion.DineInAlways | src/lib/store.ts:58-59 | 'Dine-in' is always a generated feature |
| Conversion.CategoryIsFeature | src/lib/store.ts:45-47 | a category that does not lower-case to 'restaurant' appears, title-cased, among the features |
| Conversion.CuisinesAreFeatures | src/lib/store.ts:50-56 | every element of `cuisines`, or the single non-empty `cuisine` when there is no array, appears title-cased among the features |
| Conversion.TitleCaseNeverWiFi | src/lib/store.ts:84 | no title-cased string is 'WiFi' |
| Conversion.NoCamelCaseWiFi | src/lib/store.ts:74-86 | 'WiFi' is never among the generated features |
| Conversion.WiFiTitleCase | src/lib/store.ts:84 | 'WiFi' title-cases to 'Wifi' |
| Conversion.WifiKeyword | src/lib/store.ts:74 | comments mentioning 'wifi' or 'wi-fi' give the feature 'Wifi' |
| Conversion.CapitalWordTitleCase | src/lib/store.ts:82-85 | a word with no space whose only capital is its first letter is its own title case |
| Conversion.RuleTagTitleCase | src/lib/store.ts:63-85 | every keyword tag survives title-casing unchanged except 'WiFi', which becomes 'Wifi' |
| Conversion.KeywordFeature | src/lib/store.ts:61-86 | non-empty comments mentioning, in any case, any keyword of a rule give that rule's tag among the features: 'Delivery', 'Takeaway', 'Breakfast', 'Lunch', 'Dinner', 'Wifi', 'Parking' or 'Reservation' |
| Conversion.FeaturesByRules | src/lib/store.ts:41-86 | a string is a feature iff it is the title case of a base tag, or of the tag of a rule that non-empty comments mention |
| Conversion.CaseVariantsBothSurvive | src/lib/store.ts:81-86 | with cuisines ['dine-in'], the features are ['Dine-in', 'Dine-in'], because the raw strings are deduplicated before title-casing |
| Conversion.CaseVariantsCandidates | src/lib/store.ts:42-59 | with cuisines ['dine-in'] and category 'restaurant', the pushed tags are ['dine-in', 'Dine-in'] |
| Conversion.CaseVariantsTitleCase | src/lib/store.ts:82-85 | ['dine-in', 'Dine-in'] title-cases to ['Dine-in', 'Dine-in'] |
| Conversion.LowerDineInTitleCase | src/lib/store.ts:84 | 'dine-in' title-cases to 'Dine-in' |
| Sorting.InsertSorted | src/lib/store.ts:312-329 | inserting into a list adds exactly one element |
| Sorting.SortBy | src/lib/store.ts:312-329 | the sort keeps the length |
| Sorting.InsertSortedPermutes | src/lib/store.ts:312-329 | an insertion adds exactly the inserted element to the multiset |
| Sorting.SortByPermutes | src/lib/store.ts:312-329 | the sort is a permutation |
| Sorting.InsertSortedKeepsSorted | src/lib/store.ts:312-329 | with an antisymmetric, transitive comparator, inserting into a sorted list keeps it sorted |
| Sorting.InsertBeforeLast | src/lib/store.ts:312-329 | inserting before a greater last element keeps the list sorted |
| Sorting.AppendAfterLast | src/lib/store.ts:312-329 | appending an element no smaller than the last keeps the list sorted |
| Sorting.SortBySorted | src/lib/store.ts:312-329 | with an antisymmetric, transitive comparator, the result is ordered by it |
| Sorting.SortByOfSorted | src/lib/store.ts:312-329 | sorting an already sorted list changes nothing |
| Sorting.TiesSnoc | src/lib/store.ts:312-329 | the elements tying with x in an extended list are those of the list, then the new one if it ties |
| Sorting.InsertSortedTies | src/lib/store.ts:312-329 | an insertion keeps the order of the elements tying with any x, and the new one goes after them |
| Sorting.SortByStable | src/lib/store.ts:312-329 | the sort is stable: the elements tying with any x keep their input order |
| Sorting.SortInPlace | src/lib/store.ts:312-329 | the in-place sort of the array leaves exactly the sorted sequence of its old contents |
| Sorting.InsertNext | src/lib/store.ts:312-329 | one shifting pass places element i into the sorted prefix and leaves the rest of the array alone |
| Sorting.Placed | src/lib/store.ts:312-329 | an array prefix equal to the sorted prefix, with x at position j, is that prefix with x inserted at j |
| Sorting.InsertStops | src/lib/store.ts:312-329 | when the element before the gap is no greater than x, insertion puts x at the end |
| Sorting.ShiftStep | src/lib/store.ts:312-329 | a shift past a greater element preserves what the pass computes |
| QueryEngine.ConvertAll | src/lib/store.ts:237 | every approved submission is converted, position by position |
| QueryEngine.IsApproved | src/lib/store.ts:236 | definition of `sub.status === 'approved'`; its properties are `QueryEngine.MergedIsConverted` and `QueryEngine.ConvertedIsMerged` |
| QueryEngine.Merge | src/lib/store.ts:235-242 | definition of the curated list followed by the converted approved submissions; its properties are `QueryEngine.MergeShape` and `QueryEngine.MergeMembership` |
| QueryEngine.TypeClause | src/lib/store.ts:246-248 | definition of the type filter; its property is in `QueryEngine.QueryMembership` |
| QueryEngine.CuisineMatch | src/lib/store.ts:260-279 | definition of the cuisine-or-feature test; its properties are `QueryEngine.ConvertedCuisineMatch`, `QueryEngine.CuisineMatchHasTag` and `QueryEngine.TagGivesCuisineMatch` |
| QueryEngine.CuisineClause | src/lib/store.ts:250-288 | definition of the cuisine filter; its property is in `QueryEngine.QueryMembership` |
| QueryEngine.DistrictClause | src/lib/store.ts:290-295 | definition of the district filter; its property is in `QueryEngine.QueryMembership` |
| QueryEngine.PriceClause | src/lib/store.ts:297-299 | definition of the price filter; its property is in `QueryEngine.QueryMembership` |
| QueryEngine.SearchHit | src/lib/store.ts:302-308 | definition of the search test on name, address and description; its property is `QueryEngine.BlankSearchStillFilters` |
| QueryEngine.SearchClause | src/lib/store.ts:301-309 | definition of the search filter; its property is in `QueryEngine.QueryMembership` |
| QueryEngine.Matches | src/lib/store.ts:246-309 | definition of passing all five filters; its property is `QueryEngine.QueryMembership` |
| QueryEngine.Filtered | src/lib/store.ts:246-309 | definition of the filtered list; its properties are `QueryEngine.QueryMembership` and `QueryEngine.QueryUnsortedKeepsOrder` |
| QueryEngine.RatingOf | src/lib/store.ts:317 | definition of `rating || 0`; its properties are in `QueryEngine.CmpTotalPreorder` |
| QueryEngine.PriceOrder | src/lib/store.ts:319-324 | definition of the order low 0, medium 1, high 2; its property is `Sidebar.PriceSymbolOrder` |
| QueryEngine.Compare | src/lib/store.ts:312-329 | definition of the sort comparator; its properties are `QueryEngine.CompareAntisymmetric`, `QueryEngine.CompareTransitive`, `QueryEngine.CompareTie` and `QueryEngine.CmpTotalPreorder` |
| QueryEngine.Query | src/lib/store.ts:217-334 | definition of the whole query of `applyFilters`; its properties are `QueryEngine.QueryMembership`, `QueryEngine.QueryUnsortedKeepsOrder`, `QueryEngine.QuerySorted` and `QueryEngine.NoSelectionKeepsAll` |
| QueryEngine.StrCompare | src/lib/store.ts:315 | the name comparison returns -1, 0 or 1 |
| QueryEngine.StrCompareAntisymmetric | src/lib/store.ts:315 | swapping the operands negates the comparison |
| QueryEngine.StrCompareZero | src/lib/store.ts:315 | two names compare equal iff equal |
| QueryEngine.StrCompareTransitive | src/lib/store.ts:315 | "not after" is transitive on names |
| QueryEngine.CompareAntisymmetric | src/lib/store.ts:312-329 | for each sort key, swapping the records negates the comparator |
| QueryEngine.CompareTransitive | src/lib/store.ts:312-329 | for each sort key, "goes first or ties" is transitive |
| QueryEngine.CompareTie | src/lib/store.ts:312-329 | for each sort key, records that tie compare the same way against any other |
| QueryEngine.CmpTotalPreorder | src/lib/store.ts:312-329 | every comparator passed to `sort` is a total preorder, which the sort's facts need |
| QueryEngine.MergeShape | src/lib/store.ts:235-242 | the merged list is the curated list followed by one converted record per approved submission |
| QueryEngine.MergeMembership | src/lib/store.ts:235-242 | a record is merged iff it is curated or is the conversion of a submission whose status is exactly 'approved' |
| QueryEngine.MergedIsConverted | src/lib/store.ts:235-242 | a merged record that is not curated comes from an approved submission |
| QueryEngine.ConvertedIsMerged | src/lib/store.ts:235-242 | every approved submission's conversion is merged; ids are not deduplicated |
| QueryEngine.QueryMembership | src/lib/store.ts:242-330 | a record is in the result iff it was merged and passes every active clause (type, cuisine by field or by feature, district, price, search) |
| QueryEngine.QueryUnsortedKeepsOrder | src/lib/store.ts:242-309 | with no sort key, the result is a subsequence of the merged list, in merge order |
| QueryEngine.QuerySorted | src/lib/store.ts:311-330 | with a sort key, the result is ordered by its comparator, is a permutation of the filtered list, and keeps the order of records that tie |
| QueryEngine.NoSelectionKeepsAll | src/lib/store.ts:242-309 | with every clause inactive and no sort key, the result is the merged list |
| QueryEngine.ConvertedCuisineMatch | src/lib/store.ts:260-266 | a converted submission passes a cuisine filter iff one of its pushed tags lower-cases to that cuisine, so only the feature path matches |
| QueryEngine.CuisineMatchHasTag | src/lib/store.ts:260-266 | a converted submission that passes a cuisine filter has a tag naming the cuisine |
| QueryEngine.TagGivesCuisineMatch | src/lib/store.ts:260-266 | a tag naming the cuisine makes a converted submission pass the cuisine filter |
| QueryEngine.BlankSearchStillFilters | src/lib/store.ts:301-309 | the search term is not trimmed: ' ' filters out a record with no space in name or address and no description |
| Store.ConvertApproved | src/lib/store.ts:235-237 | the filter-then-map loop gives the conversions of the approved submissions, in order |
| Store.Expected | src/lib/store.ts:217-334 | definition of the list `applyFilters` stores, as `QueryEngine.Query` of the store's fields; every setter row states that the store holds it afterwards |
| Store.FilterSelection | src/lib/store.ts:246-309 | the five successive filter steps leave exactly the records passing every active clause, in order |
| Store.LocationStore.constructor | src/lib/store.ts:153-162 | the store starts with empty lists, nothing selected and no sort key |
| Store.LocationStore.ApplyFilters | src/lib/store.ts:217-334 | the inputs are unchanged and the filtered list is the query of them |
| Store.LocationStore.SetLocations | src/lib/store.ts:164-167 | only the curated list changes, and the filtered list is recomputed |
| Store.LocationStore.SetUserSubmissions | src/lib/store.ts:169-173 | only the submissions change, and the filtered list is recomputed |
| Store.LocationStore.SetSearchTerm | src/lib/store.ts:175-178 | only the search term changes, and the filtered list is recomputed |
| Store.LocationStore.SetSelectedType | src/lib/store.ts:180-183 | only the type selection changes, and the filtered list is recomputed |
| Store.LocationStore.SetSelectedCuisine | src/lib/store.ts:185-188 | only the cuisine selection changes, and the filtered list is recomputed |
| Store.LocationStore.SetSelectedDistrict | src/lib/store.ts:190-193 | only the district selection changes, and the filtered list is recomputed |
| Store.LocationStore.SetPriceRange | src/lib/store.ts:195-198 | only the price selection changes, and the filtered list is recomputed |
| Store.LocationStore.SetSortBy | src/lib/store.ts:200-203 | only the sort key changes, and the filtered list is recomputed |
| Store.LocationStore.ResetFilters | src/lib/store.ts:205-215 | the search term becomes '', the four selections and the sort key become null, both lists stay, and the filtered list is recomputed |
| Store.ResetShowsEverything | src/lib/store.ts:205-215 | after a reset, the filtered list is the whole merged list |
| Suggestions.SuggestionFeatures | src/lib/utils/suggestions.ts:15 | the features have one or two entries ending in 'Dine-in', and two exactly when a cuisine is given, which then comes first |
| Suggestions.SuggestionType | src/lib/utils/suggestions.ts:11 | the type is the lower-cased category, or 'restaurant' when there is none; it is never empty and always lower case |
| Suggestions.SuggestionToLocation | src/lib/utils/suggestions.ts:8-36 | the id is the document id; the type is the category lower-cased, or 'restaurant' when it is empty; a non-empty cuisine is copied and the features are [cuisine, 'Dine-in'], otherwise just ['Dine-in']; price 'medium', votes 0 and no voters whatever the input; contact, website, description and cuisine are present iff their inputs are non-empty |
| Suggestions.SuggestionContact | src/lib/utils/suggestions.ts:17-22 | the contact keeps the phone, has no email, and its clickable form is the phone with all but digits and '+' removed, holding exactly the phone's such characters |
| Suggestions.SuggestionDefaults | src/lib/utils/suggestions.ts:10-33 | name, address and map URL default to '', the submitter to 'Anonymous', the time to the creation time; the website carries 'Visit Website' and the description is the comments |
| Suggestions.SuggestionTypeRestaurant | src/lib/utils/suggestions.ts:11 | the type is 'restaurant' iff the category is missing or lower-cases to 'restaurant' |
| Suggestions.SuggestionFeaturesKeepCase | src/lib/utils/suggestions.ts:15 | the cuisine feature is not title-cased, unlike in the store's converter |
| LocationCard.DisplayPrice | src/components/features/LocationCard.tsx:22 | the shown price is the record's band, and 'medium' when there is none |
| LocationCard.PriceLabel | src/components/features/LocationCard.tsx:15-19 | definition of `priceRangeMap`'s labels; its property is `LocationCard.PriceLabelsDistinct` |
| LocationCard.TagCategory.ClassName | src/components/features/LocationCard.tsx:43-98 | definition of the class string of each style; its property is `LocationCard.ClassNamesDistinct` |
| LocationCard.MentionsCuisine | src/components/features/LocationCard.tsx:31-40 | definition of the cuisine keyword test; its properties are `LocationCard.ClassifyFirstHit` and `LocationCard.NotCuisine` |
| LocationCard.MentionsFoodType | src/components/features/LocationCard.tsx:47-58 | definition of the food-type keyword test; its properties are `LocationCard.ClassifyFirstHit` and `LocationCard.DineInNotFoodType` |
| LocationCard.MentionsService | src/components/features/LocationCard.tsx:65-70 | definition of the service keyword test; its property is `LocationCard.ClassifyFirstHit` |
| LocationCard.MentionsAmbiance | src/components/features/LocationCard.tsx:77-84 | definition of the ambiance keyword test; its properties are `LocationCard.ClassifyFirstHit` and `LocationCard.SteakhouseNotAmbiance` |
| LocationCard.MentionsSpecial | src/components/features/LocationCard.tsx:91 | definition of the special keyword test; its properties are `LocationCard.ClassifyFirstHit` and `LocationCard.SpecialOnlyByNyStyle` |
| LocationCard.Classify | src/components/features/LocationCard.tsx:31-98 | definition of the if/return chain; its properties are `LocationCard.ClassifyFirstHit` and `LocationCard.DefaultStyleIffNoKeyword` |
| LocationCard.TagStyle | src/components/features/LocationCard.tsx:25-99 | definition of `getTagStyle`; its properties are `LocationCard.TagStyleNormalised`, `LocationCard.DineInIsService`, `LocationCard.SteakhouseIsFoodType` and `LocationCard.AmericanStyleIsCuisine` |
| LocationCard.PriceLabelsDistinct | src/components/features/LocationCard.tsx:15-19 | each price band has its own label, and a record without one is labelled 'Moderate' |
| LocationCard.TagCategory.Colour | src/components/features/LocationCard.tsx:43-98 | the badge colour of each style: blue, green, purple, pink, teal, gray; its length bound lets `LocationCard.ClassNamesDistinct` compare the class strings |
| LocationCard.NormalizeFeature | src/components/features/LocationCard.tsx:27 | the normalised feature keeps its length, is lower case and holds no dash |
| LocationCard.ClassifyFirstHit | src/components/features/LocationCard.tsx:31-98 | a feature gets a style iff that style's test passes and every earlier test fails |
| LocationCard.ClassNamesDistinct | src/components/features/LocationCard.tsx:43-98 | the six class strings are pairwise distinct |
| LocationCard.DefaultStyleIffNoKeyword | src/components/features/LocationCard.tsx:96-98 | a feature gets the gray default iff it hits no keyword of any branch |
| LocationCard.TagStyleNormalised | src/components/features/LocationCard.tsx:27 | features differing only in ASCII case, and in dash versus space, get the same style |
| LocationCard.SpecialOnlyByNyStyle | src/components/features/LocationCard.tsx:37-94 | the special style is only reached through 'ny style'; anything containing 'american style' gets the cuisine style |
| LocationCard.SteakhouseNotAmbiance | src/components/features/LocationCard.tsx:53-83 | nothing containing 'steakhouse' reaches the ambiance style |
| LocationCard.DineInIsService | src/components/features/LocationCard.tsx:27-73 | 'Dine-in' normalises to 'dine in' and gets the service style |
| LocationCard.NormalizeLiteral | src/components/features/LocationCard.tsx:27 | a string equal character by character to the lower-cased, dash-replaced feature is its normal form |
| LocationCard.DineInClassified | src/components/features/LocationCard.tsx:31-74 | 'dine in' is classified as a service |
| LocationCard.NotCuisine | src/components/features/LocationCard.tsx:31-41 | a text lacking, for each cuisine keyword, one of its characters passes no cuisine test; 'dine in' and 'steakhouse' are such texts |
| LocationCard.DineInNotFoodType | src/components/features/LocationCard.tsx:47-59 | 'dine in' passes no food-type test |
| LocationCard.SteakhouseIsFoodType | src/components/features/LocationCard.tsx:53-83 | 'Steakhouse' gets the food-type style, since 'steak' is tested first |
| LocationCard.SteakhouseClassified | src/components/features/LocationCard.tsx:47-62 | 'steakhouse' is classified as a food type |
| LocationCard.AmericanStyleIsCuisine | src/components/features/LocationCard.tsx:37-94 | 'American Style' gets the cuisine style, never the special one |
| Vote.Initial | src/components/ui/VoteButton.tsx:16-18 | the count starts at `votes` or 0; the voted flag is whether `votedBy` holds the user id, or '' without one; the button is not busy |
| Vote.StorageKey | src/components/ui/VoteButton.tsx:28 | definition of the key `voted_<id>`; its properties are `Vote.AddVoteSucceeds` and `Vote.RemoveVoteSucceeds` |
| Vote.VotedBefore | src/components/ui/VoteButton.tsx:29-31 | definition of a stored non-empty vote marker; its properties are `Vote.Start` and `Vote.AnonymousAtMostOne` |
| Vote.Step | src/components/ui/VoteButton.tsx:20-64 | definition of one event: a click runs the handler up to the `await`, a settle runs the rest; its properties are `Vote.FailedClickChangesNothing` and `Vote.AnonymousStep` |
| Vote.Run | src/components/ui/VoteButton.tsx:20-64 | definition of a sequence of events; its properties are `Vote.AnonymousAtMostOne` and `Vote.AnonymousOnePerLocation` |
| Vote.Start | src/components/ui/VoteButton.tsx:20-64 | a click while busy, or by an anonymous user whose storage key is set, changes nothing; no click changes the count, flag or storage before the update settles; after any other click the button is busy exactly when an update is outstanding |
| Vote.Sent | src/components/ui/VoteButton.tsx:35-58 | a click sends at most one update, only when not busy, and it is the one the state now awaits |
| Vote.Finish | src/components/ui/VoteButton.tsx:59-63 | once the update settles the button is idle; a failure, or a click that sent nothing, changes neither count, flag nor storage |
| Vote.AddVoteSucceeds | src/components/ui/VoteButton.tsx:40-48 | a first vote that succeeds adds the user, or 'anonymous', raises the count by one, sets the flag and writes the storage key |
| Vote.RemoveVoteSucceeds | src/components/ui/VoteButton.tsx:49-57 | a signed-in user's second click that succeeds removes the user, lowers the count by one, clears the flag and removes the key |
| Vote.AnonymousCannotUnvote | src/components/ui/VoteButton.tsx:35-63 | an anonymous click on a recorded vote sends nothing, never leaves the button busy, and changes no state |
| Vote.FailedClickChangesNothing | src/components/ui/VoteButton.tsx:59-63 | a click whose update fails leaves count, flag and storage as they were and the button idle |
| Vote.AnonymousStep | src/components/ui/VoteButton.tsx:28-48 | each click or outcome keeps an anonymous user's count within one of its start, with the key set once it rose |
| Vote.AnonymousAtMostOne | src/components/ui/VoteButton.tsx:28-48 | over any sequence of clicks and outcomes, an anonymous user's count rises by at most one |
| Vote.AnonymousOnePerLocation | src/components/ui/VoteButton.tsx:17-48 | from a newly mounted button, an anonymous user's clicks raise the count by at most one above `votes` or 0, whatever the outcomes |
| Vote.VoteButton.constructor | src/components/ui/VoteButton.tsx:15-18 | the component's state hooks start in the initial state and nothing has been sent |
| Vote.VoteButton.StartVote | src/components/ui/VoteButton.tsx:20-63 | the handler up to the `await` takes the state as the click transition does, clearing the busy flag at once when there is nothing to await, and sends exactly the update that transition describes |
| Vote.VoteButton.FinishVote | src/components/ui/VoteButton.tsx:46-63 | the rest of the handler takes the state as the settle transition does and sends nothing more |
| SuggestionForm.PlaceUrl | src/components/features/SuggestionForm.tsx:111 | the fallback URL is the maps place URL prefix followed by exactly the place id |
| SuggestionForm.SelectToast | src/components/features/SuggestionForm.tsx:116-136 | definition of the success and failure toasts of `handleSelect`; its property is `SuggestionForm.SelectThenSubmit` |
| SuggestionForm.Selected | src/components/features/SuggestionForm.tsx:76-138 | definition of the state after `handleSelect`; its properties are `SuggestionForm.SelectedPlacePayload`, `SuggestionForm.SelectThenSubmit` and `SuggestionForm.SuggestionFormComponent.HandleSelect` |
| SuggestionForm.PayloadPlaceOf | src/components/features/SuggestionForm.tsx:162-169 | definition of `suggestionData.placeData`; its property is `SuggestionForm.SelectedPlacePayload` |
| SuggestionForm.Submitted | src/components/features/SuggestionForm.tsx:140-199 | definition of the state after `handleSubmit`; its properties are `SuggestionForm.NoPlaceNoWrite`, `SuggestionForm.NoCategoryNoWrite` and `SuggestionForm.SubmitOutcome` |
| SuggestionForm.SelectedPlace | src/components/features/SuggestionForm.tsx:104-130 | after a successful lookup, name and address fall back to the suggestion text, phone and website to '', and the URL to the place URL; after a failed one, name and address are the suggestion text, with the same URL fallback |
| SuggestionForm.Payload | src/components/features/SuggestionForm.tsx:161-178 | the status of every payload is 'pending' |
| SuggestionForm.PayloadFields | src/components/features/SuggestionForm.tsx:170-174 | the category is kept; the cuisine is null iff it was unset, and is kept otherwise; the comments sent are exactly the trimmed comments, so they are their own trim, and comments already trimmed are kept |
| SuggestionForm.NoPlaceNoWrite | src/components/features/SuggestionForm.tsx:142-148 | with no place, submit only shows the "select a location" error, before any category test, and writes nothing |
| SuggestionForm.NoCategoryNoWrite | src/components/features/SuggestionForm.tsx:150-156 | with a place but no category, submit only shows the "select a category" error and writes nothing |
| SuggestionForm.SubmitOutcome | src/components/features/SuggestionForm.tsx:158-199 | a successful add writes exactly the payload and resets input, place, category, cuisine and comments; a failed one only shows the error |
| SuggestionForm.BlankCommentsBecomeEmpty | src/components/features/SuggestionForm.tsx:173 | whitespace-only comments are sent as '' |
| SuggestionForm.SelectedPlacePayload | src/components/features/SuggestionForm.tsx:104-130 | the payload of a selected place copies its fields, always has a non-empty map URL and carries the suggestion's place id |
| SuggestionForm.SelectThenSubmit | src/components/features/SuggestionForm.tsx:76-199 | choosing a suggestion and then submitting with a category writes one pending payload for that place and clears the form |
| SuggestionForm.SuggestionFormComponent.constructor | src/components/features/SuggestionForm.tsx:69-74 | the form starts empty, with no place and no toast |
| SuggestionForm.SuggestionFormComponent.SetCategory | src/components/features/SuggestionForm.tsx:70 | only the category changes |
| SuggestionForm.SuggestionFormComponent.SetCuisine | src/components/features/SuggestionForm.tsx:71 | only the cuisine changes |
| SuggestionForm.SuggestionFormComponent.SetComments | src/components/features/SuggestionForm.tsx:72 | only the comments change |
| SuggestionForm.SuggestionFormComponent.HandleSelect | src/components/features/SuggestionForm.tsx:76-138 | the form shows the suggestion, holds the place built from the lookup outcome, and a toast of success or partial failure |
| SuggestionForm.SuggestionFormComponent.HandleSubmit | src/components/features/SuggestionForm.tsx:140-199 | the guards, the write and the reset take the form as the submit transition describes |
| Sidebar.Toggle | src/components/features/FilterSidebar.tsx:41 | choosing the selected option clears the selection; choosing any other replaces it |
| Sidebar.PriceOptions | src/components/features/FilterSidebar.tsx:90 | definition of the options `['low', 'medium', 'high']`; its property is `Sidebar.PriceOptionsFacts` |
| Sidebar.ToggleTwice | src/components/features/FilterSidebar.tsx:41 | choosing the same option twice returns to that option when it was selected, and to null otherwise |
| Sidebar.PriceOptionsFacts | src/components/features/FilterSidebar.tsx:90 | the price group offers every band exactly once, as 'low', 'medium', 'high' |
| Sidebar.PriceSymbol | src/components/features/FilterSidebar.tsx:99 | a price label is one to three '$' signs: one exactly for 'low', two exactly for 'medium' |
| Sidebar.PriceSymbolOrder | src/components/features/FilterSidebar.tsx:99 | the number of '$' signs is one more than the band's position in the price sort |
| Sidebar.ChooseType | src/components/features/FilterSidebar.tsx:41 | only the type selection changes, to the toggled value, and the filtered list is recomputed |
| Sidebar.ChooseCuisine | src/components/features/FilterSidebar.tsx:59 | only the cuisine selection changes, to the toggled value, and the filtered list is recomputed |
| Sidebar.ChooseDistrict | src/components/features/FilterSidebar.tsx:77 | only the district selection changes, to the toggled value, and the filtered list is recomputed |
| Sidebar.ChoosePrice | src/components/features/FilterSidebar.tsx:95 | only the price selection changes, to the toggled value, and the filtered list is recomputed |
| Sidebar.Reset | src/components/features/FilterSidebar.tsx:25 | the Reset control clears the search, the selections and the sort key and recomputes the list |
| Sidebar.ChooseTypeEffect | src/components/features/FilterSidebar.tsx:41 | choosing a new type leaves only records of that type; choosing the selected one lifts the type filter |
| Maps.PairValue | src/lib/utils/maps.ts:6 | a surrogate pair decodes to a code point above the basic plane |
| Maps.Unreserved | src/lib/utils/maps.ts:6 | definition of the characters `encodeURIComponent` leaves alone; its property is `Maps.EncodeUnreserved` |
| Maps.HasLoneSurrogate | src/lib/utils/maps.ts:6 | definition of the input for which `encodeURIComponent` throws; its property is `Maps.EncodeFailsIffLone` |
| Maps.Utf8Decode | src/lib/utils/maps.ts:6 | definition of the UTF-8 reader used as the inverse of `Maps.Utf8`; its property is `Maps.Utf8RoundTrip` |
| Maps.Encode | src/lib/utils/maps.ts:6 | definition of `encodeURIComponent` as section 18.2.6.5 of ECMA-262 (6th edition) gives it, with `None` for `URIError`; its properties are `Maps.EncodeFailsIffLone`, `Maps.EncodeWellEscaped`, `Maps.EncodeUnreserved` and `Maps.SeparatorEscapes` |
| Maps.QueryText | src/lib/utils/maps.ts:5 | definition of the text `street, district, city, Vietnam`; its properties are `Maps.MapsUrlQueryEncoded` and `Maps.DistrictAscii` |
| Maps.IsExternalUrl | src/lib/utils/maps.ts:24-26 | definition of `isExternalUrl`; its properties are `Maps.MapsUrlIsExternal` and `Maps.IsExternalUrlExamples` |
| Maps.HexDigit | src/lib/utils/maps.ts:6 | every nibble has an upper-case hex digit |
| Maps.Escape | src/lib/utils/maps.ts:6 | an octet escapes to '%' and two hex digits that read back as the octet |
| Maps.EscapeAll | src/lib/utils/maps.ts:6 | escaping octets takes three characters per octet |
| Maps.Utf8 | src/lib/utils/maps.ts:6 | a code point becomes one to four octets, with one, two and four octets exactly for the standard ranges |
| Maps.Prepend | src/lib/utils/maps.ts:6 | prefixing keeps the error case and otherwise prefixes the text |
| Maps.WellEscapedConcat | src/lib/utils/maps.ts:6 | concatenating escaped strings gives an escaped string |
| Maps.ConcatStep | src/lib/utils/maps.ts:6 | stepping over the first unreserved character or escape keeps the concatenation escaped |
| Maps.EscapeAllWellEscaped | src/lib/utils/maps.ts:6 | escaped octets form an escaped string |
| Maps.WellEscapedChars | src/lib/utils/maps.ts:6 | an escaped string holds only unreserved characters, '%' and hex digits, so no space and no comma |
| Maps.EncodeWellEscaped | src/lib/utils/maps.ts:6 | a successful `encodeURIComponent` result consists of unreserved characters and %XY escapes |
| Maps.EncodeFailsIffLone | src/lib/utils/maps.ts:6 | `encodeURIComponent` throws iff the text holds a lone surrogate |
| Maps.LoneShift | src/lib/utils/maps.ts:6 | skipping a leading unit or pair that is not lone keeps whether a lone surrogate occurs |
| Maps.EncodeUnreserved | src/lib/utils/maps.ts:6 | text made of unreserved characters is encoded as itself |
| Maps.SeparatorEscapes | src/lib/utils/maps.ts:5-6 | the space and the comma of the query text are encoded as '%20' and '%2C' |
| Maps.DivDiv64 | src/lib/utils/maps.ts:6 | two divisions by 64 equal one by 4096, as the UTF-8 octets need |
| Maps.Utf8RoundTrip | src/lib/utils/maps.ts:6 | the UTF-8 octets of a code point decode back to it |
| Maps.DistrictAscii | src/lib/utils/maps.ts:5 | every district name is ASCII |
| Maps.GenerateMapsUrl | src/lib/utils/maps.ts:3-22 | the result is '#' iff encoding the query text throws; otherwise it starts with the geo prefix on mobile and with the web search prefix elsewhere |
| Maps.MapsUrlIsExternal | src/lib/utils/maps.ts:3-26 | a generated link is external iff encoding succeeded, so the '#' fallback is not external |
| Maps.MapsUrlQueryEncoded | src/lib/utils/maps.ts:5-17 | after the prefix the link holds exactly the encoded "street, district, city, Vietnam", with no raw space or comma |
| Maps.IsExternalUrlExamples | src/lib/utils/maps.ts:24-26 | 'httpx' counts as external, while '#' and 'mailto:x' do not |

## Behaviour worth knowing

- The merged list is not deduplicated by id. A submission sharing an id with a curated record appears after it as a second record (`src/lib/store.ts:242`, `QueryEngine.ConvertedIsMerged`).
- The store's converter sets `priceRange` to 'medium' whatever the input. The filter step never defaults a missing price (`src/lib/store.ts:107`, `src/lib/store.ts:298`).
- Title-casing splits words on spaces only, not on underscores. Empty feature strings are not dropped (`src/lib/store.ts:81-86`).
- Deduplication runs on the raw strings before title-casing, so case variants survive side by side (`Conversion.CaseVariantsBothSurvive`).
- The keyword scan pushes 'WiFi', which title-casing turns into 'Wifi', so 'WiFi' never appears among the features (`Conversion.NoCamelCaseWiFi`).

## Left out

- Firestore I/O is not part of this model. This covers `addDoc`, `setDoc`, `updateDoc` and the `onSnapshot` listeners. The store receives the lists they deliver through its setters. A remote write is a boolean outcome parameter (`succeeded`, `addSucceeds`).
- The Google Places calls are not part of this model. This covers `getGeocode`, `getDetails`, `usePlacesAutocomplete` and `GoogleMapsScript.tsx`. The details lookup is an `Option<PlaceDetails>` parameter; `None` is the failed fetch.
- Mobile detection through `navigator.userAgent` is the `isMobile` parameter of `Maps.GenerateMapsUrl`.
- `new Date()` is the `now` parameter, in milliseconds. `submittedAt` is a millisecond count, not a `Date` object.
- Date formatting (`formatTimestamp`, `formatDistanceToNow`) is left out, because it depends on wall-clock time and date-fns.
- `console.log` calls and all markup and styling are left out, because they have no effect on the modelled state. `preventDefault`, `stopPropagation`, the `disabled` attribute and the `setTimeout` that closes the form are left out too.
- `toLowerCase` and `toUpperCase` change ASCII letters only. Unicode case mapping of Vietnamese text is not modelled.
- `Conversion.NormalizeCuisine` calls `Text.UpperChar`, so its first-letter case also follows ASCII only.
- `localeCompare` is plain lexicographic order on characters (`QueryEngine.StrCompare`). Locale collation tables are not modelled.
- `rating` is an integer, not a floating-point number.
- `Array.prototype.sort` is modelled as a stable insertion sort on an array (`Sorting.SortInPlace`). It runs over the same comparator the source passes. The language guarantees a stable sort, and every comparator here is proved a total preorder (`QueryEngine.CmpTotalPreorder`). So any stable sort gives this same order.
- The comparator's `default: return 0` branch is not modelled, because the sort key is a closed datatype and that branch cannot be reached.
- The zustand machinery (`set`/`get` merging, subscriptions and re-renders) is not modelled. The store is a class whose setters assign a field and then run `ApplyFilters`.
- `Location` omits `coordinates`, `openingHours`, `images` and `reviews`, because no modelled code reads them. `Address.postalCode` is declared but read by no modelled code: `generateMapsUrl` does not use it.
- `cuisines` is either absent or an array of strings. A non-array value, which the `Array.isArray` test rejects, cannot be represented.
- The suggestion form's `loading` flag and the `serverTimestamp()` fields of the payload are left out. The payload carries no timestamps.
- `Curated.WellFormedTableFacts` states its facts for any table whose every record is well formed at its position. It is not instantiated on `Curated.CuratedLocations()`, because unfolding the fifty-record literal is beyond the verifier's resource limit. Each record function proves its own well-formedness at its position instead.
- `src/components/features/Filters.tsx` is left out, because it repeats the sidebar's cuisine toggle.
- `src/lib/types.ts` is left out, because it holds unused alternative types.
- The readers of `location.address` in the page and card views are left out, because they read a field `Location` does not declare.
- The migration scripts and `updateLocation.ts` are left out, because they are Firestore plumbing.
