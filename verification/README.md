# cEDH decklist tools — a verified model

The system scrapes the cEDH decklist database into a catalogue of decklists
filed by colour identity, deck type and deck name, computes statistics over
that catalogue, builds and decodes queries for the EDHTop16 tournament API,
and serves a small web front end that turns a decklist URL into text and text
back into card names for a recommender.

This project models the deterministic core of that system in Dafny and proves
what it promises:

- `analyze.dfy` (module `Analyze`, from `analyze.py`): the basic-land stoplist, Jaccard
  similarity over the non-basic card sets of two decks, the first-match deck lookup over the
  colour → type → name catalogue, and the counting part of `summary` (card census, deck count,
  the "featured i times" histogram). The census and histogram are imperative loops that are
  proved against specification functions.
- `top16_parser.dfy` (module `Top16Parser`, from `top16_parser.py`): the colour-combination
  validator, `JSONObject` construction and its `json` view, `generate_query` (the nested filter
  dict built from optional bounds), and `decode_url_query` over the already-decoded
  `(key, values)` pairs, including its `a__b__c` nesting and digit conversion.
- `scraper.dfy` (module `Scraper`, from `scraper.py`): `clean`, `parse_color`, the first-match
  platform dispatch, the quantity expansion and board filtering of the moxfield, archidekt,
  tappedout and scryfall parsers, and the nested insertion into `master_json` in `parse`.
- `app.dfy` (module `App`, from `app.py`): the `"1 <card>\n"` text that `/fetch` returns, the
  line cleaning and empty check of `/recommend`, and their round trip.
- Shared modules:
  - `wrappers.dfy`: `Option` and `Result`.
  - `dicts.dfy`: Python dicts as insertion-ordered association lists. Lookup takes the first
    match. Assignment replaces the value in place or appends a new key.
  - `database.dfy`: the catalogue type and its deck entries in iteration order.
  - `strings.dfy`: `str.split`, `join`, substring test, ASCII `lower`, `isspace`, `strip`, and
    `split()` with no separator.

Network access, HTML extraction, the clock and file I/O are not modelled. Their results become
parameters:
- the records each platform parser extracts from its page or API response;
- a `Fetch` function that gives a platform's decklist for a URL;
- a `Recommender` function for the recommender.

## Model

| member | source | states |
|---|---|---|
| Analyze.BasicLandsExact | analyze.py:6-18 | the stoplist holds exactly ten distinct names; "Island" and "Snow-Covered Forest", for example, are basic lands, and the match is exact and case-sensitive ("island", "Wastes" are not) |
| Analyze.NotBasicLand | analyze.py:43-44 | `not_basic_land`: a card passes exactly when its name is not one of the ten stoplist names |
| Analyze.Jaccard | analyze.py:35-40 | the size of a∩b over the size of a∪b lies in [0,1], is 1 exactly when a = b and 0 exactly when a and b are disjoint; the union must be non-empty |
| Analyze.Ratio | analyze.py:40 | a count ratio num/den with num ≤ den lies in [0,1], is 1 iff num = den and 0 iff num = 0 |
| Analyze.IntersectionBelowUnion | analyze.py:40 | the intersection is never larger than the union, and equally large exactly when the sets are equal |
| Analyze.JaccardSymmetric | analyze.py:35-40 | the similarity does not depend on the order of the two sets |
| Analyze.FindInTypes | analyze.py:29-32 | the search within one colour finds the first deck of that name over its types, in order |
| Analyze.FindDecklist | analyze.py:27-32 | the search finds the first deck of that name in colour → type → name order, or nothing |
| Analyze.FindDecklistFirstMatch | analyze.py:27-32 | nothing is found exactly when no deck has the name; otherwise the decklist of the first deck entry with that name is returned |
| Analyze.CardSet | analyze.py:55-56 | the filtered set holds exactly the cards of the decklist that are not basic lands |
| Analyze.CardSetIgnoresBasicsAndCopies | analyze.py:55-56 | adding a basic land or another copy of a card already in the deck, at either end, does not change the card set |
| Analyze.DeckSimilarity | analyze.py:47-58 | a missing first deck, then a missing second deck, is reported (Python raises on filtering None); a division by zero occurs exactly when both decks hold only basic lands; otherwise the result lies in [0,1] |
| Analyze.DeckSimilaritySymmetric | analyze.py:47-58 | swapping the two deck names gives the same value and the same division-by-zero outcome |
| Analyze.DeckSimilarityReflexive | analyze.py:47-58 | a found deck with at least one non-basic card has similarity 1 with itself |
| Analyze.Tally | analyze.py:69-71 | one pass of the card loop: the count of the card goes up by one, starting from 0 when it is new |
| Analyze.CensusOf | analyze.py:65-71 | the counts dict `summary` builds from a sequence of cards, one tally step per card in order |
| Analyze.CensusSnoc | analyze.py:69-71 | counting one more card is one tally step on the counts so far |
| Analyze.CountsMatchIncrement | analyze.py:69-71 | the `if not in: = 0; += 1` step keeps every stored count equal to the card's number of occurrences |
| Analyze.CensusCounts | analyze.py:66-71 | every card seen has its number of occurrences (copies and basics included) as its count, and no other key is stored |
| Analyze.CensusPositive | analyze.py:69-71 | every stored card occurs in the input and has a count of at least 1 |
| Analyze.CensusTotal | analyze.py:66-71 | the counts sum to the total number of cards over all decklists |
| Analyze.CensusUnique | analyze.py:69-70 | every card is stored under one key only |
| Analyze.AddCard | analyze.py:69-71 | the loop body updates the counts exactly as one tally step |
| Analyze.CountCards | analyze.py:68-71 | the innermost loop adds the census of one decklist to the counts |
| Analyze.CountDecks | analyze.py:67-72 | the deck loop adds one to the deck count per deck and counts every card of every deck |
| Analyze.CountTypes | analyze.py:66-72 | the type loop counts every deck and card of one colour |
| Analyze.Census | analyze.py:62-72 | the deck count equals the number of deck entries, and the counts are the census of all decklists in iteration order |
| Analyze.CountValue | analyze.py:80-83 | the number of pairs whose count is n, in iteration order, as `cur_representation` counts them |
| Analyze.KeysWithValue | analyze.py:81-83 | the set of cards whose count is n |
| Analyze.KeysWithValueSnoc | analyze.py:81-83 | a new key adds itself to the cards with count n exactly when its count is n |
| Analyze.CountValueKeys | analyze.py:80-83 | counting the keys whose value is n gives the size of the set of such cards |
| Analyze.Histogram | analyze.py:79-84 | entry i−1 is the number of cards featured exactly i times, for i = 1..10 |
| Analyze.CensusFeatured | analyze.py:79-84 | the number of cards with count n is the number of distinct cards occurring exactly n times |
| Analyze.Summary | analyze.py:61-86 | returns the deck count, a count per card equal to its multiplicity over all decklists (unique keys, counts summing to the number of cards) and the ten histogram values as card-set sizes |
| Dicts.Get | analyze.py:32 | a value found under a key is stored under that key |
| Dicts.GetNone | scraper.py:49-53 | a lookup fails exactly when the key is not in the dict |
| Dicts.Put | scraper.py:55 | after `d[k] = v` the key gives v and every other key gives what it gave before |
| Dicts.PutPut | analyze.py:70-71 | a second assignment to the same key overwrites the first |
| Dicts.PutKeys | analyze.py:69-70 | assigning to an existing key keeps the key order; a new key is appended, as Python's insertion order does |
| Dicts.PutUnique | analyze.py:69-71 | assignment keeps keys unique |
| Dicts.GetFirst | analyze.py:30-32 | a lookup fails exactly when no entry has the key, and otherwise returns the value of the first entry with the key |
| Dicts.SumValuesPut | analyze.py:71 | replacing a count changes the sum of counts by the difference |
| Top16Parser.ValidateColorCombination | top16_parser.py:17-25 | accepts iff every letter is in W,U,B,R,G,C and C stands alone; C with anything else is reported as the colorless error before any invalid letter; the error for an invalid letter names the first one; on success the letters come back in order, duplicates kept |
| Top16Parser.Wrap | top16_parser.py:28-32 | the `__dict__` of `JSONObject(**kwargs)`: the same keys in the same order, each dict value turned into a nested object, other values kept |
| Top16Parser.Json | top16_parser.py:34-39 | the `json` view: the same keys in the same order, each nested object turned back into its `json` dict |
| Top16Parser.SelfFree | top16_parser.py:28-31 | the keyword dicts `JSONObject(**d)` accepts: no key `self` in d or in any dict nested in it |
| Top16Parser.JsonWrap | top16_parser.py:27-39 | `JSONObject(**d).json == d` for every nested dict of plain values; the constructor accepts d exactly when no key at any depth is `self` (see NewJSONObject) |
| Top16Parser.WrapJson | top16_parser.py:27-39 | wrapping the `json` view of a built object gives the object back |
| Top16Parser.WrapWrapped | top16_parser.py:28-32 | construction turns every nested dict into an object, at every depth |
| Top16Parser.JsonPlain | top16_parser.py:34-39 | the `json` view of an object holds no object at any depth |
| Top16Parser.NewJSONObject | top16_parser.py:28-32 | `JSONObject(**kwargs)` raises exactly when `self` is a key at some depth, since it clashes with the `self` parameter of `__init__` (directly or through the nested call); otherwise the loop stores each keyword argument, a dict value wrapped as a nested object |
| Top16Parser.BoundsDict | top16_parser.py:70-74 | the filter dict of one bounds pair: `$lte` then `$gte`, each only when given |
| Top16Parser.TourneyDict | top16_parser.py:76-89 | the `tourney_filter` dict: `size` then `dateCreated`, each only when its bounds are given |
| Top16Parser.QueryDict | top16_parser.py:67-97 | the dict `generate_query` builds: `standing`, `tourney_filter`, `entries` and `colorID`, in that order, each only when its argument is given |
| Top16Parser.QueryPyDict | top16_parser.py:67-98 | the dict `generate_query` builds has unique string keys at every level, so it is a valid keyword-argument dict |
| Top16Parser.QuerySelfFree | top16_parser.py:67-98 | no key of the dict `generate_query` builds is `self`, at any depth, so `JSONObject(**data)` accepts it |
| Top16Parser.QueryJsonRoundTrip | top16_parser.py:67-98 | the `json` view of the query object is the nested dict that was built |
| Top16Parser.BoundsGet | top16_parser.py:70-74 | `$lte` and `$gte` are present exactly when their bound is given, with the bound unchanged; no other key is present; a filter without bounds is the empty dict |
| Top16Parser.TourneyGet | top16_parser.py:76-89 | `size` and `dateCreated` are present exactly when their argument is given, each holding its bounds dict |
| Top16Parser.QueryGet | top16_parser.py:67-97 | `standing`, `entries` and `colorID` are present iff their argument is, `tourney_filter` iff tsize or tdate is, each with its value; no other key is present |
| Top16Parser.BoundsFilter | top16_parser.py:70-74 | the sub-dict is built with exactly the given bounds |
| Top16Parser.AddFilter | top16_parser.py:90-95 | a filter key is added with its bounds dict when its argument is given, and nothing is added otherwise |
| Top16Parser.TourneyFilter | top16_parser.py:77-89 | the `tourney_filter` dict holds exactly the given size and date filters |
| Top16Parser.GenerateQuery | top16_parser.py:67-98 | the method returns the object built from exactly the query dict specified above |
| Top16Parser.Decimal | top16_parser.py:132 | `int(s)` of a string of decimal digits, leading zeros allowed |
| Top16Parser.ParseValue | top16_parser.py:132 | a value becomes an int exactly when it is a non-empty string of digits, and otherwise stays the same string |
| Top16Parser.ParseValueExamples | top16_parser.py:132 | "64" and "007" become 64 and 7; "16a" and "" stay strings |
| Top16Parser.Level | top16_parser.py:123-130 | the dict under a key, a fresh empty one when the key is missing, or nothing when the key holds a non-dict |
| Top16Parser.SetIn | top16_parser.py:123-125 | `d[k0][k1] = v` after creating `d[k0]` when it is missing; nothing when `d[k0]` is not a dict |
| Top16Parser.DecodeStep | top16_parser.py:119-132 | one pass of the loop: the key is split on `__`; 1, 2 or 3 segments store the first value 0, 1 or 2 levels down, creating missing levels, only the third level converting digits to an int; 4 or more segments change nothing; indexing into a string is the error |
| Top16Parser.Decode | top16_parser.py:118-132 | the loop over the pairs in order, stopping at the first error |
| Top16Parser.DecodeFailed | top16_parser.py:118-132 | once a key fails, decoding the remaining pairs leaves the failure as it is |
| Top16Parser.StoreIn | top16_parser.py:123-125 | the second-level store creates the first level when it is missing and fails when that level holds a non-dict |
| Top16Parser.DecodePair | top16_parser.py:119-132 | the loop body for one key updates the query as the decoding step specifies |
| Top16Parser.DecodeStepPyDict | top16_parser.py:118-135 | each successful step keeps the query a valid keyword-argument dict |
| Top16Parser.DecodeStepFails | top16_parser.py:122-132 | a step fails exactly when a 2- or 3-segment key meets a non-dict first level, or a 3-segment key meets a non-dict second level |
| Top16Parser.DecodeStepStores | top16_parser.py:119-132 | after a successful step the first value is stored under the key's 1, 2 or 3 segments; only the third level is converted to an int |
| Top16Parser.DecodeStepFrame | top16_parser.py:119-132 | keys with four or more segments are dropped, and every other top-level key is unchanged |
| Top16Parser.SplitSegment | top16_parser.py:119 | a segment with no `__` inside it and no trailing `_` (so `tourney_filter` qualifies), followed by `__`, splits off as the first segment |
| Top16Parser.DecodeTwoLevels | top16_parser.py:122-125 | `a__b=v` decodes to `{a: {b: "v"}}`, the value kept as a string |
| Top16Parser.DecodeThreeLevels | top16_parser.py:126-132 | `a__b__c=v` decodes to `{a: {b: {c: v'}}}`, with v converted when it is all digits |
| Top16Parser.DecodeUrlQuery | top16_parser.py:110-135 | the loop decodes every pair in order; it returns the first decoding failure, the `self` error of `JSONObject(**query)` when the decoded dict holds a key `self` at some depth, and otherwise the object built from the decoded dict |
| Top16Parser.DecodeSelfKey | top16_parser.py:120-135 | `?self=v` decodes without error to `{self: "v"}`, which the final `JSONObject(**query)` refuses |
| Top16Parser.DecodeNestedSelfKey | top16_parser.py:122-135 | `?a__self=v` decodes to `{a: {self: "v"}}`, which the nested `JSONObject` call refuses |
| Scraper.BeforeQuery | scraper.py:17 | `url.split("?")[0]`: the part of the URL before its first `?` |
| Scraper.Clean | scraper.py:12-20 | `clean`: the part before the query, with its trailing slashes replaced by a single `/` |
| Scraper.RStrip | scraper.py:18 | removes exactly the trailing run of the given character |
| Scraper.BeforeQueryShape | scraper.py:17 | the part before the query is a prefix of the URL without `?`, and ends at the first `?` |
| Scraper.CleanShape | scraper.py:17-18 | the cleaned URL has no `?`, ends in one `/` not preceded by another, and before it holds the part before the query with its trailing slashes removed |
| Scraper.CleanIdempotent | scraper.py:12-20 | cleaning a cleaned URL changes nothing |
| Scraper.ColorLetters | scraper.py:77-81 | the first class name of each colour icon minus its first character, in order, leaving out those that give "x" |
| Scraper.ColorOf | scraper.py:75-85 | the colour `parse_color` returns: the letters, or "Colorless" when there are none |
| Scraper.ParseColor | scraper.py:75-85 | the colour is the concatenation of the class letters, and "Colorless" when it is empty |
| Scraper.ColorLettersAppend | scraper.py:77-81 | the letters of consecutive icons are concatenated in order |
| Scraper.ColorlessIff | scraper.py:83-85 | the letters are empty exactly when every icon class gives "" or "x" |
| Scraper.FirstMatch | scraper.py:101-103 | the platform of the first table entry whose name occurs in the URL |
| Scraper.DecklistOf | scraper.py:96-107 | the chosen platform's decklist for the URL, or the empty list when no platform matches |
| Scraper.FirstMatchSpec | scraper.py:101-103 | a platform is chosen iff some platform name occurs in the URL, and it is the first such entry of the table |
| Scraper.NeverDeckbox | scraper.py:207-212 | deckbox is never chosen, since it is not in the table |
| Scraper.ChoosePlatform | scraper.py:101-103 | the dispatch loop returns the first matching platform |
| Scraper.ParseDecklistPlatform | scraper.py:96-107 | the decklist is the chosen parser's result, or empty when no platform matches |
| Scraper.Repeat | scraper.py:118 | `q * [name]` has max(q, 0) elements, all equal to name |
| Scraper.Expand | scraper.py:117-118 | the decklist of (name, quantity) records: each name repeated its quantity times, in order |
| Scraper.ExpandLength | scraper.py:117-118 | the expanded decklist is as long as the sum of the positive quantities, since `q * [name]` adds nothing for q ≤ 0 |
| Scraper.RepeatCount | scraper.py:118 | the name occurs q times in `q * [name]` (none for q ≤ 0), and no other name occurs |
| Scraper.ExpandCount | scraper.py:117-118 | each name occurs as often as the sum of its records' positive quantities |
| Scraper.ExpandAppend | scraper.py:117-118 | the expansion of consecutive records is the concatenation of their expansions, in order |
| Scraper.Kept | scraper.py:168-172 | the (name, quantity) records of the cards a parser does not skip, in order |
| Scraper.KeptAppend | scraper.py:168-172 | filtering consecutive card runs filters each run, in order |
| Scraper.SkippedIgnored | scraper.py:168-170 | a skipped card contributes nothing to the decklist, wherever it occurs |
| Scraper.KeptMember | scraper.py:132-144 | a record is kept exactly when some card that is not skipped yields it |
| Scraper.ParseMoxfield | scraper.py:116-124 | the mainboard expanded in order, followed by the commanders |
| Scraper.ParseArchidekt | scraper.py:167-177 | every card whose category does not lower-case to "maybeboard", expanded in order |
| Scraper.ParseTappedOut | scraper.py:130-158 | every card whose lower-cased id contains neither "boardcontainer-side" nor "boardcontainer-maybe", expanded in order, followed by the commanders |
| Scraper.ScryfallName | scraper.py:187 | the name is the first line of the stripped entry text and holds no newline |
| Scraper.ParseScryfall | scraper.py:183-190 | every entry's name repeated by its count, in order |
| Scraper.Store | scraper.py:49-55 | `master_json[color][deck_type][name] = decklist` after creating the colour and type levels that are missing |
| Scraper.Lookup | scraper.py:55 | the decklist filed under a colour, deck type and name, if any |
| Scraper.StoreAll | scraper.py:43-55 | a run of insertions into the catalogue, in order |
| Scraper.LinkPlacements | scraper.py:43-47 | the insertions of one element's links: each under the link's stripped text, with the decklist of its cleaned URL |
| Scraper.Placements | scraper.py:34-47 | the insertions of every link of every element, in page order, each element with its parsed colour and deck type |
| Scraper.Insert | scraper.py:49-55 | the insertion creates the missing colour and type levels and files the decklist under its name |
| Scraper.StoreLookup | scraper.py:49-55 | after an insertion its path holds the new decklist, and every other path is unchanged |
| Scraper.StoreTwice | scraper.py:55 | inserting twice under the same path keeps only the second decklist: the last write wins |
| Scraper.StoreAllLookup | scraper.py:43-55 | after a run of insertions each path holds the decklist of the last insertion on it, or what it held before |
| Scraper.ParseLinks | scraper.py:43-55 | the inner loop files every link's decklist, under its stripped text, in order |
| Scraper.Parse | scraper.py:29-55 | the catalogue is the result of filing every link of every element, in page order, from an empty catalogue |
| Scraper.ParseLookup | scraper.py:29-55 | every path of the catalogue holds the decklist of the last link filed on it, and nothing else is filed |
| Strings.Split | scraper.py:17 | `split` always gives at least one piece, so `[0]` is defined |
| Strings.SplitJoin | scraper.py:17 | joining the pieces with the separator gives back the string |
| Strings.SplitPiecesFree | top16_parser.py:119 | no piece contains the separator |
| Strings.SplitAbsent | top16_parser.py:120-121 | a string without the separator is a single piece |
| Strings.Lower | scraper.py:169 | lower-casing keeps the length and maps each ASCII capital to its small letter, every other character unchanged |
| Strings.TrimLeft | scraper.py:45 | the leading whitespace is removed, and only it |
| Strings.TrimRight | scraper.py:45 | the trailing whitespace is removed, and only it |
| Strings.Word | app.py:45 | the longest prefix without whitespace |
| Strings.Tokens | app.py:45 | every token is a non-empty run of non-whitespace characters |
| Strings.TokensEmpty | app.py:44-46 | a string has no tokens exactly when it is all whitespace |
| Strings.TokensSkipSpace | app.py:45 | leading whitespace does not change the tokens |
| Strings.TokensFirst | app.py:45 | a token followed by whitespace is the first token |
| App.Serialize | app.py:26-29 | the text `fetch_decklist` builds: `"1 <card>\n"` per card, in order |
| App.FetchDecklist | app.py:22-33 | the reply is one line "1 <card>" per card of the URL's decklist, in order, the trailing newline kept |
| App.SerializeSplit | app.py:28-29 | splitting the reply on newlines gives the "1 <card>" lines and a last empty piece, when no name contains a newline |
| App.CleanCard | app.py:45 | `" ".join(card.split()[1:])`: the tokens of a line after the first, joined by single spaces |
| App.Cleaned | app.py:43-46 | the cleaned names of the lines, empty lines skipped, in order |
| App.CleanDecklist | app.py:41-46 | the cleaning loop keeps one entry per non-empty line, in order |
| App.RecommendCards | app.py:36-55 | the fixed "No decklist provided!…" message when nothing is left after cleaning, and otherwise the recommender's reply for the cleaned names |
| App.CleanedEmpty | app.py:48-51 | nothing is left after cleaning exactly when every line is empty |
| App.CleanCardShort | app.py:44-46 | a line of one token or none gives the empty name rather than being skipped |
| App.CleanBlankLine | app.py:44-46 | a whitespace-only line gives the empty name |
| App.JoinTokens | app.py:45 | joining the tokens of a single-spaced name with single spaces gives the name back |
| App.CleanCardDropsQuantity | app.py:45 | the first token (the quantity) is dropped, not used to repeat the card |
| App.CleanLines | app.py:43-46 | cleaning the "1 <card>" lines gives back the cards |
| App.CleanSerialized | app.py:28-46 | cleaning the `/fetch` text gives back the decklist when every name is single-spaced, with no leading or trailing whitespace |

## Left out

- Network and HTML: every HTTP request and HTML or JSON extraction. Each parser takes the records it would extract; the dispatcher takes a `Fetch` function for the platform parsers; `parse` takes the deck elements (icon classes, `data-title`, link texts and targets). The `Fetch` parameter is total, so parser exceptions are not modelled: in the source a failing regular-expression match (an archidekt URL without `#`, say), an empty `select(...)[0]` or an HTTP error aborts the whole `parse` run or the `/fetch` request, while the model always files every link.
- Scraper.ParseTappedOut: the commander names, which need one further request per commander, are a parameter.
- Scraper.ParseMoxfield and the other parsers: the deck id extraction by regular expression and the API URLs.
- File I/O: `load_database`, the dump of the catalogue to `cedh_decklists.json`, and the HTML page of the front end.
- `time.sleep`, printing (the progress lines, the per-card ratio report sorted by count and the formatted histogram lines in `summary`), argparse and Flask routing.
- `parse_deckbox`: it is not in the platform table, so it is never reached; Scraper.NeverDeckbox states this.
- `str2timestamp` and `get_entries`: they depend on the local timezone and the network.
- URL decoding (`unquote`, `parse_qs`): Top16Parser.DecodeUrlQuery takes the decoded `(key, values)` pairs, and requires every value list to be non-empty, as `parse_qs` guarantees.
- Top16Parser.ParseValue: only ASCII digits count. Python's `isdigit` also accepts other Unicode digits; `int` rejects some of them, such as superscripts.
- Strings.Lower: only ASCII letters are lower-cased, not the rest of Unicode.
- Top16Parser.GenerateQuery: the model fills each filter dict before storing it in the query. Python stores the empty dict first and then fills it through the alias; the results are equal.
- Top16Parser.NewJSONObject: objects are values, so sharing between Python objects (aliasing) is not modelled.
- App.FetchDecklist: the dispatcher is called with its one-argument signature from `scraper.py`. `app.py` passes a `wait_time` argument that this function does not accept.
- App.RecommendCards: the recommender is a parameter, as its definition is not part of this model. The colour identity is passed through unchanged.
- Scraper.ParseColor: the result "Colorless" cannot be told apart from icon classes whose letters happen to spell "Colorless".
- Floating point: similarities are exact rationals (`real`) built from the two counts.
