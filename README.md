# Mini ad wall: ranking, list updates, form validation and the ad store

This project models the core of a small full-stack "ad wall" in Dafny.
A React client ranks sponsored ads by a blend of bid price and click count. It lets an operator create, edit, copy and delete ads through a form driven by a declarative field list. A Koa server keeps the ads in an in-memory array and hands out the form's configuration.

The model covers four areas:

- **Scoring and ranking** (`Ranking`, client/src/App.tsx).
  - `calculateScore` is `p + p * clicked * 0.42`. A string price goes through `parseFloat`, and a failed parse counts as 0.
  - `sortedAds` is a sorted copy of the list. It is modelled as insertion into a non-increasing list, specified by a permutation and a sortedness contract.
  - The heat shown on a card is the floor of the score.
- **Client list updates** (`AdList`).
  - A card click bumps the count of every ad with that id.
  - The confirmed delete filters out the ads with that id.
  - The save either replaces the items with that id or appends the server's answer.
  - Each update takes the server's outcome as a parameter. A rejected request leaves the list as it was.
- **The form** (`Validation`, `FormModal`).
  - `validateForm` is the method `ComputeErrors`, with the same loop and the same three overwriting assignments. It is proved equal to the specification function `Errors`, and the lemmas describe `Errors`.
  - The form's state is the class `AdFormModal`, with the fields `formData` and `errors`. Its methods are `HandleChange`, `ValidateForm` and `HandleSubmit`.
  - `RenderFormField` gives the control each field descriptor renders as.
- **The server store** (`Server`, server/src/index.js).
  - The class `AdStore` holds the `ads` array as a sequence. Its handler methods are get-by-id, create, update, delete and click.
  - Each method that changes the store states the new store as a function of the old one (`AfterCreate`, `AfterUpdate`, `AfterDelete`, `AfterClick`). Lemmas about these functions state what the handlers promise.
  - `ConfigFacts` takes the server's `formConfig` as a concrete instance of the validator. It states which candidates this configuration accepts, and proves the behaviour on the empty form and on a few concrete records.

JavaScript values are modelled by `Js.Value`: `undefined`, `null`, a boolean, a finite number as a `real`, `NaN`, or a string. `Truthy` models truthiness.

Three host services are fields of a `Runtime` value that callers pass in:

- `new RegExp(p).test(s)`, an unanchored search;
- `parseFloat` of a string, which returns `None` where the host gives `NaN`;
- `String(x)` for a finite number that is not an integer below 10^21 in magnitude.

The model itself defines the rest of this behaviour:
- `String` of an integer below 10^21 is its plain digits, the same text the validation messages use for a maximum length.
- `parseFloat` of a number is that number, because `String` of a finite number parses back exactly.
- `parseFloat` of `undefined`, `null`, a boolean or NaN is NaN.
- Lengths are counted in UTF-16 code units, as JavaScript's `.length` counts them (`Js.JsLength`). A character beyond U+FFFF counts two.

The ids that `Date.now()` produces are parameters.

Three behaviours of the code are worth stating explicitly:

- **Validation precedence.** The checks of a field do not stop at the first failure. At client/src/App.tsx:309-322, every failing check assigns its message under the field's name, so the last failing check wins: maxLength beats pattern, and pattern beats required. Likewise, a later descriptor with the same name overwrites an earlier one's message.
  - A failing required check still always keeps its message when maxLength is absent or non-negative. The value is falsy, so the pattern check is skipped and the measured text is empty (`RequiredMessageIsKept`).
  - A negative maxLength is truthy and `0 > -n` holds, so it does overwrite the required message.
- **Price on the card.** The heat on a card (client/src/App.tsx:161-164) scores a string price as 0. The ranking (line 57) parses that same string.
- **Which ads a delete removes.** The server deletes only the first ad with a given id. The client removes every ad with that id.

## Model

| member | source | states |
|---|---|---|
| Js.Truthy | client/src/App.tsx:309 | definition: undefined, null, false, 0, NaN and "" are falsy, everything else truthy (also lines 71, 313, 320) |
| Js.PlainInteger | client/src/App.tsx:321 | definition: an integer below 10^21 in magnitude, which `String` prints in plain digits |
| Js.ToText | client/src/App.tsx:315 | definition: `String(v)`; a string is unchanged, undefined prints as "undefined", an integer below 10^21 in magnitude as its decimal digits, and any other finite number through the host's formatting |
| Js.NumberTextRoundTrip | client/src/App.tsx:315 | `String(x)` of a non-negative integer below 10^21 is all decimal digits and reads back as `x` |
| Js.ParseFloat | client/src/App.tsx:339 | definition: `parseFloat(v)`; a number is kept, a string goes to the host parse (NaN when it fails), anything else gives NaN |
| Js.ParseFloatIdempotent | client/src/App.tsx:339 | `parseFloat` always gives a number or NaN, and applying it again to its result changes nothing |
| Js.JsLength | client/src/App.tsx:320 | `.length` counts UTF-16 code units: between the length and twice it, equal to it exactly when no character is beyond U+FFFF, twice it exactly when all are |
| Js.DigitChar | client/src/App.tsx:321 | a digit below 10 becomes a character from '0' to '9' |
| Js.Digits | client/src/App.tsx:321 | the decimal text of a natural number is non-empty and all digits; it is one digit exactly when the number is below 10 |
| Js.IntText | client/src/App.tsx:321 | definition: `${n}` of an integer, its digits preceded by "-" when it is negative |
| Js.IntTextRoundTrip | client/src/App.tsx:321 | `${n}` reads back as `n`: its digits give `n` when it is non-negative, and it is "-" followed by the digits of `-n` when it is negative |
| Js.DigitsRoundTrip | client/src/App.tsx:321 | reading back the digits of a number gives the number, so the maxLength in a message is the configured one |
| Types.Get | client/src/App.tsx:309 | definition: `formData[field.name]`, the stored value, or undefined for an attribute the record lacks |
| Ranking.ClickedOrZero | client/src/App.tsx:56 | definition: `ad.clicked || 0`; an absent click count is read as 0 |
| Ranking.PriceNumber | client/src/App.tsx:57 | definition: a number price is used as is; a string price is its parse, or 0 when the parse fails |
| Ranking.K | client/src/App.tsx:7 | definition: MAGIC_COEFFICIENT, 0.42 |
| Ranking.ScaledProduct | client/src/App.tsx:58 | the increment `p * c * K` is non-negative for non-negative inputs, and zero exactly when p or c is zero |
| Ranking.Blend | client/src/App.tsx:58 | for non-negative price and count the score is at least the price, with equality exactly when either is 0 |
| Ranking.CalculateScore | client/src/App.tsx:56-58 | score >= the coerced price for non-negative inputs; equality exactly when that price or the count is 0 |
| Ranking.AdScore | client/src/App.tsx:63-64 | definition: calculateScore of the ad's price and its count, an absent count as 0 |
| Ranking.UnparsablePriceScoresZero | client/src/App.tsx:57 | a string price that does not parse scores 0 whatever the count |
| Ranking.ClickRaisesScore | client/src/App.tsx:58 | one more click raises the score of a positively priced ad by exactly price * 0.42 |
| Ranking.ScoreExamples | client/src/App.tsx:56-58 | score(100, 3) = 226 with floor 226, and score(0, 5) = 0 |
| Ranking.Insert | client/src/App.tsx:62-66 | inserting an ad adds exactly that ad to the multiset of the list |
| Ranking.InsertBounded | client/src/App.tsx:62-66 | inserting an ad whose score is at most a bound into a list whose scores are all at most that bound keeps every score at most the bound |
| Ranking.InsertSorted | client/src/App.tsx:62-66 | insertion into a list of non-increasing score keeps it non-increasing |
| Ranking.SortedAds | client/src/App.tsx:61-67 | the ranking is a permutation of the ads, in non-increasing score order |
| Ranking.HigherScoreComesFirst | client/src/App.tsx:61-67 | of two ranked ads the one with the higher score comes first; the ranking has as many ads as the input |
| Ranking.SortedPair | client/src/App.tsx:62-66 | in a sorted list an earlier position has a score at least that of a later one |
| Ranking.DisplayedHeat | client/src/App.tsx:161-164 | a number-priced card shows the floor of its score; a string-priced card shows 0 |
| AdList.HasId | client/src/App.tsx:71 | definition: `ad.id` is truthy, i.e. present and non-zero |
| AdList.Bumped | client/src/App.tsx:77-78 | a clicked item gets its count (0 if absent) plus one and keeps every other attribute |
| AdList.BumpMatching | client/src/App.tsx:75-81 | same length; items with the id are bumped, the others are kept as they are |
| AdList.CardClick | client/src/App.tsx:70-82 | no-op without a truthy id or when the request fails; otherwise same length, matching items get clicked+1, others unchanged |
| AdList.Ids | client/src/App.tsx:76 | the id list has one entry per item, in order |
| AdList.CountId | client/src/App.tsx:76 | the number of items with an id is at most the length |
| AdList.CardClickCounts | client/src/App.tsx:70-82 | a click keeps all ids in place and raises the total clicks by the number of items with that id |
| AdList.BumpMatchingCounts | client/src/App.tsx:75-81 | bumping keeps ids and adds one click per matching item to the total |
| AdList.WithoutId | client/src/App.tsx:100 | the filtered list is no longer than the input |
| AdList.WithoutIdContents | client/src/App.tsx:100 | the filter keeps every copy of every item without the id, and no item with it |
| AdList.ExecuteDelete | client/src/App.tsx:95-102 | no-op with no pending id or a failed request; otherwise the filter by that id, so exactly the items with another id remain in order, and the length drops by their count |
| AdList.WithoutIdLength | client/src/App.tsx:100 | the filter removes exactly as many items as carry the id |
| AdList.WithoutIdKeepsOrder | client/src/App.tsx:100 | filtering a concatenation concatenates the filtered parts, so the original order is kept |
| AdList.DeleteIdempotent | client/src/App.tsx:100 | filtering twice is filtering once |
| AdList.SameId | client/src/App.tsx:123 | definition: `item.id === formData.id`; a numeric id equals only the same number, and a missing id (undefined) equals only undefined |
| AdList.SameIdDeterminesId | client/src/App.tsx:123 | two items that both match the same form id carry the same id |
| AdList.SaveRequestFor | client/src/App.tsx:121-128 | an update of the form's id exactly in edit mode with a truthy id; otherwise a create of the form with clicked set to 0 and every other attribute kept |
| AdList.ReplaceMatching | client/src/App.tsx:123 | same length; items with the form's id become the answer, others are kept |
| AdList.SaveList | client/src/App.tsx:119-129 | a failed save keeps the list; an update replaces the matching items; a create appends the answer at the end |
| AdList.CopyCreates | client/src/App.tsx:119-129 | saving a copy always creates, and appends exactly one item: the answer |
| AdList.EditKeepsIds | client/src/App.tsx:121-123 | an edit whose answer carries the form's id keeps the list of ids |
| Validation.RequiredMessage | client/src/App.tsx:310 | definition: the label followed by "不能为空" |
| Validation.PatternMessage | client/src/App.tsx:316 | definition: "请输入有效的" followed by the label |
| Validation.MaxLengthMessage | client/src/App.tsx:321 | definition: the label, "不能超过", the maximum length in digits and "个字符" |
| Validation.RequiredFails | client/src/App.tsx:309 | definition: the field is required and its value falsy |
| Validation.PatternFails | client/src/App.tsx:313-315 | definition: a non-empty pattern, a truthy value, and a failed search in `String(value)` |
| Validation.MaxLengthFails | client/src/App.tsx:320 | definition: a non-zero maximum length exceeded by the UTF-16 length of `String(value or '')` |
| Validation.Check | client/src/App.tsx:309-322 | definition: one forEach iteration, the three checks in order, each failing one overwriting the field's entry |
| Validation.Errors | client/src/App.tsx:305-327 | definition: the fields in order, each failing field writing its message under its name |
| Validation.MeasuredText | client/src/App.tsx:320 | definition: `String(value or '')`, empty for a falsy value and otherwise the value's text |
| Validation.FieldMessage | client/src/App.tsx:308-323 | a field has a message exactly when one of its checks fails; the maxLength message wins over the pattern message, which wins over the required message |
| Validation.CheckWritesFieldMessage | client/src/App.tsx:309-322 | the three overwriting assignments of one iteration write exactly the field's message, or nothing |
| Validation.RequiredMessageIsKept | client/src/App.tsx:309-322 | a required field with a falsy value keeps the required message when maxLength is absent or non-negative |
| Validation.ErrorsMeaning | client/src/App.tsx:305-327 | a name has an entry exactly when some field of that name fails; the entry is the message of the last such field |
| Validation.ErrorsDomain | client/src/App.tsx:305-327 | a name has an entry exactly when some field of that name fails a check |
| Validation.LastFailingExtend | client/src/App.tsx:308 | a further field that writes nothing under a name keeps the last failing field of that name |
| Validation.ErrorsLastMessage | client/src/App.tsx:305-327 | an entry is the message of the last failing field of that name |
| Validation.ValidIffNoCheckFails | client/src/App.tsx:326 | the form is valid exactly when no field fails any of its checks |
| Validation.UniqueFieldEntry | client/src/App.tsx:305-327 | with unique names each field's entry is its own message, and a passing field has none |
| Validation.ComputeErrors | client/src/App.tsx:305-323 | the loop builds the errors map of the whole configuration; its names are exactly those of failing fields |
| Validation.ErrorsStep | client/src/App.tsx:308 | one more field adds its message under its name, or nothing |
| FormModal.InitialFormData | client/src/App.tsx:10-16 | definition: the four texts and the price empty, no id and no count |
| FormModal.AdRecord | client/src/App.tsx:114 | the form copy of an ad carries its attributes, and its id and count only when present |
| FormModal.OpenForm | client/src/App.tsx:109-117 | definition: create starts from the empty record; edit and copy start from a copy of the ad; otherwise the record remains |
| FormModal.ClearedError | client/src/App.tsx:296-301 | a non-empty message for the edited name is removed; every other entry is kept |
| FormModal.PriceConverted | client/src/App.tsx:337-340 | a string price becomes parseFloat of it; all other attributes are copied |
| FormModal.EditSendsUpdateOfThatId | client/src/App.tsx:109-129 | editing an ad that has an id and submitting sends an update of that id |
| FormModal.AdFormModal.constructor | client/src/App.tsx:284-285 | the form starts with the given record and no errors |
| FormModal.AdFormModal.HandleChange | client/src/App.tsx:291-303 | only the edited attribute changes; only its message is cleared |
| FormModal.AdFormModal.ValidateForm | client/src/App.tsx:305-327 | the errors become those of the configuration; valid exactly when no field fails; the record is untouched |
| FormModal.AdFormModal.HandleSubmit | client/src/App.tsx:329-343 | nothing is saved unless the form is valid; a valid form is saved with its price converted |
| FormModal.RenderFormField | client/src/App.tsx:351-398 | textarea with 4 rows exactly for type "textarea", else an input of that type with the suffix exactly when truthy; placeholder, value and error text as shown |
| Server.FindIndex | server/src/index.js:125 | the first index with the id, or -1 exactly when no ad has it |
| Server.NotFound | server/src/index.js:89-90 | definition: status 404, success false, message "Ad not found" |
| Server.CreateAccepted | server/src/index.js:100 | definition: title, publisher, content and landingUrl truthy, and a price that is not undefined |
| Server.NewAd | server/src/index.js:106-114 | the new ad has the given id, no clicks, the body's texts and a parsed price |
| Server.AfterCreate | server/src/index.js:116 | definition: the new ad pushed when the guard holds, the store otherwise |
| Server.Merge | server/src/index.js:135-142 | definition: each attribute the body carries replaces the stored one (the price through parseFloat); id and clicked stay |
| Server.AfterUpdate | server/src/index.js:144 | definition: the first ad with the id replaced by its merge, the store unchanged without one |
| Server.AfterDelete | server/src/index.js:160 | definition: the first ad with the id spliced out, the store unchanged without one |
| Server.AfterClick | server/src/index.js:176 | definition: the first ad with the id gets one more click, the store unchanged without one |
| Server.NumberPriceIsStored | server/src/index.js:112 | a create or update with a number price stores exactly that price (also line 141) |
| Server.Count | server/src/index.js:152 | the number of ads with an id is at most the length |
| Server.CreateAppendsOne | server/src/index.js:97-120 | a rejected create keeps the store; an accepted one appends one ad with the id and 0 clicks after the unchanged ads |
| Server.GetAfterCreate | server/src/index.js:87 | after a create, lookup of the new id finds the new ad unless an earlier ad has that id |
| Server.UpdateChangesOnlyTarget | server/src/index.js:123-146 | unknown id keeps the store; otherwise only the first match changes, exactly in the attributes the body carries; ids and counts are kept |
| Server.UpdateIdempotent | server/src/index.js:133-144 | sending the same update twice has the effect of sending it once |
| Server.DeleteRemovesFirstMatch | server/src/index.js:150-163 | the first ad with the id is spliced out; the length drops by one, the rest keep their order, one fewer ad has the id |
| Server.MultisetRemoveAt | server/src/index.js:160 | splicing out one position removes exactly that ad from the multiset |
| Server.CountRemoveAt | server/src/index.js:160 | splicing out one position lowers the count of an id by one exactly when that ad has it |
| Server.CountSplit | server/src/index.js:160 | the count of an id in a concatenation is the sum of the counts |
| Server.ClickAddsOne | server/src/index.js:166-185 | the first matching ad gets exactly one more click, no other ad changes, and the total rises by one |
| Server.TotalClicksAt | server/src/index.js:176 | replacing one ad changes the total clicks by the difference of its counts |
| Server.SeedAds | server/src/index.js:16-20 | definition: the three seed ads with ids 1-3, their texts, prices and counts |
| Server.AdStore.constructor | server/src/index.js:16-20 | the store starts with the three seed ads |
| Server.AdStore.GetById | server/src/index.js:86-94 | success exactly when some ad has the id, with the first such ad; 404 "Ad not found" otherwise; the store is unchanged |
| Server.AdStore.Create | server/src/index.js:97-120 | 400 "Missing required fields" and no change unless the guard holds; otherwise 201 with the appended new ad |
| Server.AdStore.Update | server/src/index.js:123-147 | 404 and no change for an unknown id; otherwise the merged ad is stored at its index and returned |
| Server.AdStore.Delete | server/src/index.js:150-163 | 404 and no change for an unknown id; otherwise the first match is spliced out and the success message is returned |
| Server.AdStore.Click | server/src/index.js:166-185 | 404 and no change for an unknown id; otherwise the first match gets one more click and the reply carries the id and the new count |
| Server.ServerFormConfig | server/src/index.js:23-67 | definition: the five field descriptors with their labels, types, placeholders, limits, pattern and hints |
| ConfigFacts.ServerFormConfigShape | server/src/index.js:23-67 | five uniquely named required fields; the URL pattern on landingUrl; maxLength 50, 20 and 500 on the text fields; none on price |
| ConfigFacts.ServerConfigValidIff | server/src/index.js:23-67 | a record passes exactly when all five attributes are truthy, the texts fit 50/20/500 UTF-16 code units and the URL matches |
| ConfigFacts.TextFieldPasses | client/src/App.tsx:309-322 | a required text field with a positive limit and no pattern passes exactly when truthy and within the limit |
| ConfigFacts.PatternFieldPasses | client/src/App.tsx:309-322 | a required field with a pattern and no limit passes exactly when truthy and matching |
| ConfigFacts.PlainFieldPasses | client/src/App.tsx:309-322 | a required field with neither pattern nor limit passes exactly when truthy |
| ConfigFacts.ServerRequiredMessages | server/src/index.js:23-67 | the five configured names and their required messages |
| ConfigFacts.EmptyFormNamesEveryField | server/src/index.js:23-67 | the empty form gets exactly the five required messages |
| ConfigFacts.FiveEntries | client/src/types.ts:14 | a map with exactly the five attribute entries equals the five-entry display |
| ConfigFacts.NoEntryOutsideConfig | server/src/index.js:23-67 | no record gets an error under id or clicked |
| ConfigFacts.EmptyFieldEntry | server/src/index.js:23-67 | on the empty form each configured field has exactly its required message |
| ConfigFacts.EmojiTitleTooLong | client/src/App.tsx:320-321 | a title of 26 emoji is 52 code units long and gets "广告标题不能超过50个字符" |
| ConfigFacts.TitleTooLongMessage | client/src/App.tsx:321 | the title's maximum-length message reads "广告标题不能超过50个字符" |
| ConfigFacts.RequiredTitleExample | client/src/App.tsx:305-327 | a required title that is empty gets exactly "标题不能为空" |
| ConfigFacts.LandingUrlExamples | server/src/index.js:55 | with an unanchored search, "ftp://x" gets the pattern message and "https://x" gets none |

## Left out

- React hooks, JSX markup, the card menu, `window.open`, `alert` and `console`: these are UI side effects. The modal's `useEffect` reset is the constructor.
- client/src/api.ts is not part of this model. Each client update takes the outcome of its request as a parameter: `served`, or an optional answer.
- Koa setup, CORS, body parsing, routing and `app.listen`: server plumbing.
- GET /api/ads and GET /api/form-config only return the store and `ServerFormConfig` unchanged.
- `parseInt(ctx.params.id)`: the handlers take the parsed integer. A segment that does not parse gives NaN, which matches no ad, so it takes the not-found branch that an unknown id also takes.
- JSON transport: the model does not capture NaN becoming null on the wire, or objects and arrays inside a request body.
- IEEE floating point: prices and scores are exact reals, with K = 42/100.
- Host services: the `parseFloat` grammar for strings, the RegExp engine and the formatting of non-integer numbers are `Runtime` parameters.
- `Date.now()`: ids are parameters and are not assumed to be unique.
- Ranking.SortedAds: the JavaScript sort's internals are not modelled. Its result is a sorted permutation, which is what sortedAds exposes. Stability is not stated.
- Server.AdStore.Click: the stored ad is an object that `ad.clicked += 1` changes in place, so every holder of a reference sees the change. The model replaces the element in the sequence, so it does not capture object identity or aliasing.
- Config: `step`, `min` and the other presentation hints are carried but not validated.
- The async ordering between the client's list updates and the server's responses is concurrency and is left out.
- Validation.PatternFails: `new RegExp(field.pattern)` throws on an invalid pattern, so `validateForm` throws and nothing is submitted. The model treats the search as total, so validation goes on. The shipped pattern `https?://.*` is valid.
- Validation.MaxLengthMessage: a maximum length of 10^21 or more, which JavaScript prints in exponent notation, appears in the message as plain digits.
