# Thumbnail generator core, modelled in Dafny

This project models the logic at the centre of the thumbnail generator web app. It has three parts.

- **The thumbnail service** (`ThumbnailService`, in `thumbnail_service.dfy`).
  - Pure helpers:
    - the image-size table, with its 800×450 default;
    - the provider's aspect-ratio bucket and resolution tier;
    - reading the image URL out of the provider's response shapes;
    - the placeholder URL `https://picsum.photos/W/H?random=<seed>-<style>-<colorScheme>`;
    - the download file name.
  - A record store over the module-level `thumbnailData` array, modelled as the class `ThumbnailStore`. It has `getAll`, `getById`, `generateThumbnail`, `updateThumbnail`, `deleteThumbnail` and `downloadThumbnail`.
- **The style-preset service** (`StylePresetService`, in `style_preset_service.dfy`). A second store, `StylePresetStore`, over the `stylePresetData` array. It has `getAll`, `getById`, `create`, `update` and `delete`.
- **The form rules** (`ThumbnailForm`, in `thumbnail_form.dfy`). These are:
  - the default form;
  - `validateForm` and `handleSubmit`;
  - the copy-with-override update of `handleInputChange`, for a plain field name or a dotted path `parent.child[.subchild]`;
  - the clearing of a field's error;
  - the live-mode auto-generation trigger and its payload;
  - `handleClear`;
  - the image-size drop-down.

Supporting modules:

- `Records` (`records.dfy`) holds what both stores share:
  - records keyed by a numeric `Id`;
  - the `find`/`findIndex` lookup;
  - the `max(Id) + 1` rule for new Ids;
  - the `{ ...record, ...changes, Id: id }` merge;
  - `splice`;
  - the "Ids are unique" invariant. Every store operation preserves it except a preset `create` whose data carries an `Id` the store already holds.
- `JsValues` (`js_values.dfy`) models JavaScript values as a datatype. It covers truthiness, property reads that throw on `undefined`/`null`, and object spread.
- `Text` (`text.dfy`) models the string operations:
  - the white-space class of `\s`;
  - `trim` and `toLowerCase`;
  - `replace(/\s+/g, '-')`, called `Hyphenate`, with its run-by-run algebra;
  - `includes`;
  - `split('.')` and `join`, with both round trips;
  - decimal rendering of integers.
- `Wrappers` (`wrappers.dfy`) holds `Option` and `Result`.

Each store keeps its array as a `seq<Record>` field. Its methods reassign that field and state the whole new state. They keep unique Ids unique, except a preset `create` with a caller-supplied `Id` that is already present (`StylePresetService.NewPresetKeepsUnique` says exactly when). A thrown `Error` becomes a `Failure` value, and the store is left unchanged on that path.

Some predicates encode a piece of JavaScript semantics and are used by the members below rather than stated on their own:

- `JsValues.Truthy` is JavaScript truthiness, as used by every `||` default and every `if (x)` test (for example thumbnailService.js:61-68 and 167-171, ThumbnailForm.jsx:92-105).
- `JsValues.Spread` gives the own properties `{...v}` copies (thumbnailService.js:196-199, ThumbnailForm.jsx:120-131).
- `Text.IsSpace` is the white-space class of `\s` and `trim` (thumbnailService.js:80 and 236, ThumbnailForm.jsx:92).
- `ThumbnailService.Near` is `Math.abs(ratio - x) < 0.1` (thumbnailService.js:20-24).
- `ThumbnailService.HasItems` and `ThumbnailService.LengthAboveZero` are `data.data.length > 0`, and `ThumbnailService.FirstItem` is `data.data[0]` (thumbnailService.js:67-68).

## Model

| member | source | states |
|---|---|---|
| JsValues.Get | src/components/organisms/ThumbnailForm.jsx:125 | Reading a property throws exactly when the value is `undefined` or `null`. On an object it yields the property, or `undefined` when absent. |
| Records.IndexOfId | src/services/api/thumbnailService.js:191 | `findIndex` by Id returns -1 or the first position holding the Id. No earlier position holds it, and -1 means no position does. |
| Records.IndexOfIdFound | src/services/api/thumbnailService.js:93-96 | The lookup finds a record exactly when some record carries the Id. |
| Records.MaxId | src/services/api/thumbnailService.js:161 | `Math.max` of the Ids of a non-empty store is one of the Ids and no Id exceeds it. |
| Records.MaxIdPlusOneAsWritten | src/services/api/thumbnailService.js:161 | The new Id as the source computes it is `-Infinity` exactly when the store is empty. |
| Records.EmptyStoreIdAsWrittenIsNoInteger | src/services/api/stylePresetService.js:25 | On an empty store the source's new Id equals no integer Id. |
| Records.NextId | src/services/api/thumbnailService.js:161 | The corrected new Id is greater than every Id in the store. On a non-empty store it is one more than an Id that is present, so one more than the largest; on an empty store it is 1. |
| Records.NextIdAgreesOnNonEmptyStore | src/services/api/stylePresetService.js:25 | On every non-empty store the corrected Id is the one the source computes. |
| Records.UniqueIdsIndex | src/services/api/thumbnailService.js:218 | With unique Ids, the lookup returns the one position that holds the Id. |
| Records.Merge | src/services/api/thumbnailService.js:196-200 | The merged record's keys are the old keys plus the changed ones. Changed keys take the new values, other keys keep the old ones, and the Id is forced to the requested Id. |
| Records.SameIdsSameIndex | src/services/api/thumbnailService.js:191 | Two stores whose positions carry the same Ids find any Id at the same position. |
| Records.UpdateStore | src/services/api/thumbnailService.js:191-200 | The store after an update keeps its length and every position's Id. An absent Id leaves it unchanged. Otherwise the first record with the Id is merged with the changes and every other position is kept. |
| Records.UpdateNothingKeepsStore | src/services/api/stylePresetService.js:35-44 | An update with no changes leaves the store exactly as it was. |
| Records.UpdateTwiceIsOnce | src/services/api/stylePresetService.js:35-44 | Sending the same update twice leaves the store as sending it once. |
| Records.RemoveAt | src/services/api/thumbnailService.js:212 | `splice(i, 1)` shortens the store by one and keeps the others in their order. The removed record plus the rest is the old multiset. |
| Records.PrependKeepsUnique | src/services/api/thumbnailService.js:179 | `unshift` of a record whose Id exceeds every Id keeps the Ids unique. |
| Records.AppendKeepsUnique | src/services/api/stylePresetService.js:29 | `push` of a record whose Id is absent keeps the Ids unique. |
| Records.ReplaceKeepsUnique | src/services/api/thumbnailService.js:196 | Replacing a record by one with the same Id keeps the Ids unique. |
| Records.RemoveKeepsUnique | src/services/api/stylePresetService.js:56 | Removing a record keeps the Ids unique. |
| Text.Lower | src/services/api/thumbnailService.js:80 | `toLowerCase` keeps the length and lower-cases each character on its own. |
| Text.LowerCharKeepsSpace | src/services/api/thumbnailService.js:80 | Lower-casing a character neither creates nor removes white space, and doing it twice equals doing it once. |
| Text.LowerConcat | src/services/api/thumbnailService.js:80 | Lower-casing a concatenation lower-cases each piece. |
| Text.Hyphenate | src/services/api/thumbnailService.js:80 | `replace(/\s+/g, '-')` never lengthens a string, and gives the empty string only for the empty string. |
| Text.DropSpaces | src/components/organisms/ThumbnailForm.jsx:92 | The start-trimmed string is a suffix that does not start with white space, and everything dropped is white space. |
| Text.DropTrailingSpaces | src/components/organisms/ThumbnailForm.jsx:92 | The end-trimmed string is a prefix that does not end with white space, and everything dropped is white space. |
| Text.Trim | src/components/organisms/ThumbnailForm.jsx:92 | `trim()` is empty exactly when every character is white space. Otherwise it begins and ends with a character that is not white space, and it is never longer than the input. |
| Text.HyphenateRemovesSpace | src/services/api/thumbnailService.js:80 | No white space survives `replace(/\s+/g, '-')`. |
| Text.HyphenateNoSpace | src/services/api/thumbnailService.js:80 | A string without white space is left as it is. |
| Text.HyphenateAppend | src/services/api/thumbnailService.js:80 | Hyphenation works piece by piece when the first piece does not end in white space. |
| Text.HyphenateRun | src/services/api/thumbnailService.js:80 | One maximal run of white space between two pieces becomes exactly one hyphen. |
| Text.HyphenateWordSpace | src/services/api/thumbnailService.js:80 | A word followed by a single space is kept, and the space becomes a hyphen. |
| Text.LowerDropSpaces | src/services/api/thumbnailService.js:236 | Lower-casing and dropping leading white space commute. |
| Text.LowerHyphenateCommute | src/services/api/thumbnailService.js:236 | Lower-casing then hyphenating (the placeholder seed) equals hyphenating then lower-casing (the download slug). |
| Text.ContainsAt | src/components/organisms/ThumbnailForm.jsx:139 | `includes(t)` holds whenever `t` occurs at some position. |
| Text.Contains | src/components/organisms/ThumbnailForm.jsx:139 | `s.includes(t)` can hold only when `t` is no longer than `s`. |
| Text.ContainsOccurs | src/components/organisms/ThumbnailForm.jsx:139 | When `includes(t)` holds, `t` occurs at some position. |
| Text.ContainsIff | src/components/organisms/ThumbnailForm.jsx:139 | `includes(t)` holds exactly when `t` occurs at some position. |
| Text.IndexOf | src/components/organisms/ThumbnailForm.jsx:119 | The position found holds the character, and no earlier position does. |
| Text.IndexOfAtMost | src/components/organisms/ThumbnailForm.jsx:119 | The first occurrence comes no later than any occurrence. |
| Text.Split | src/components/organisms/ThumbnailForm.jsx:119 | `split('.')` gives at least one piece and no piece contains the separator. There are two or more pieces exactly when the separator occurs. |
| Text.JoinHasSeparator | src/components/organisms/ThumbnailForm.jsx:118 | Joining two or more pieces puts the separator in, so such a path takes the dotted branch. |
| Text.JoinSplit | src/components/organisms/ThumbnailForm.jsx:119 | Joining the pieces of a split gives the string back. |
| Text.SplitJoin | src/components/organisms/ThumbnailForm.jsx:119 | Splitting the join of pieces without the separator gives the pieces back. |
| Text.NatToString | src/services/api/thumbnailService.js:81 | The rendering of a number in a template literal is a non-empty string of decimal digits. |
| Text.DigitsValueOfNatToString | src/services/api/thumbnailService.js:81 | Reading the rendered digits back gives the number. |
| Text.NatToStringInjective | src/services/api/thumbnailService.js:81 | Different numbers render differently. |
| Text.IntToString | src/services/api/thumbnailService.js:95 | `${id}` is a non-empty string. For a non-negative integer it is digits that read back as the integer; for a negative one it is a minus sign followed by digits that read back as its absolute value. |
| Text.IntToStringInjective | src/services/api/thumbnailService.js:95 | Different integers render differently, so the Id can be read back from a message. |
| ThumbnailService.DimensionsFor | src/services/api/thumbnailService.js:116 | Every image-size key, known or not, gives positive dimensions. |
| ThumbnailService.DimensionTable | src/services/api/thumbnailService.js:105-116 | Each of the eight keys gives its listed width and height, and every other key gives 800×450. |
| ThumbnailService.ImageSizeKeys | src/services/api/thumbnailService.js:105-114 | The table knows exactly the eight named sizes. |
| ThumbnailService.AspectRatioOf | src/services/api/thumbnailService.js:19-25 | The chosen bucket's tolerance window accepts the ratio unless no window does. Any bucket other than the 16:9 fallback accepts it, and a ratio near 1 is always square. |
| ThumbnailService.AspectRatioFor | src/services/api/thumbnailService.js:18-26 | A zero height falls back to 16:9. Otherwise the bucket is the one whose disjoint ratio interval holds `width / height`. |
| ThumbnailService.AspectRatioMatchesIntervals | src/services/api/thumbnailService.js:18-26 | The first-passing-check-wins cascade equals a lookup by disjoint ratio intervals, with 16:9 as the fallback. |
| ThumbnailService.PortraitOverlapFirstWins | src/services/api/thumbnailService.js:23-24 | Where the 9:16 and 3:4 tolerance windows overlap, both checks pass and 9:16, tested first, wins. |
| ThumbnailService.EqualSidesAreSquare | src/services/api/thumbnailService.js:20 | Equal width and height give the square bucket. |
| ThumbnailService.ResolutionFor | src/services/api/thumbnailService.js:29 | The tier is 2k exactly when the width or the height is at least 1920. |
| ThumbnailService.ProviderRequestFor | src/services/api/thumbnailService.js:28-41 | The request carries the prompt, the label of the aspect-ratio bucket of its width and height, and "2k" exactly when a side reaches 1920. The fixed settings are the realism model, creative detailing 33, the automatic engine, no fixed generation, the NSFW filter on and HDR 50. |
| ThumbnailService.ProviderSettingsPerSize | src/services/api/thumbnailService.js:18-29 | The bucket of each named size and of the default. 1080×1080 is square and the story is 9:16. 1280×720 and the 800×450 default lie in the 16:9 window. The five other wide sizes (ratios near 1.9 and 2.0) miss every window and fall back to 16:9. Only the story is 2k. |
| ThumbnailService.ExtractFromEachShape | src/services/api/thumbnailService.js:61-68 | Each accepted response shape yields its URL: `imageUrl`, `image_url`, `url`, and `data[0].url` or `data[0].image_url`. |
| ThumbnailService.ExtractFailsOnlyWithoutUrl | src/services/api/thumbnailService.js:60-71 | For a response object, "no image URL" is reported exactly when none of the three direct fields is truthy and `data` is falsy or has no items. |
| ThumbnailService.ExtractImageUrl | src/services/api/thumbnailService.js:60-71 | A `null` or `undefined` response throws. Only an object response can succeed, and a falsy result means none of the three direct fields was truthy. |
| ThumbnailService.ExtractPriority | src/services/api/thumbnailService.js:61-66 | The direct fields are tried as `imageUrl`, `image_url`, `url`. The first truthy one is the result, whatever the later ones hold, and a field that is present but falsy is passed over. |
| ThumbnailService.ExtractFromFirstItem | src/services/api/thumbnailService.js:67-68 | With no truthy direct field and a non-empty array `data` whose first item is an object, the result is that item's `url` when truthy, and otherwise its `image_url`, whatever it holds. |
| ThumbnailService.ExtractNullishRead | src/services/api/thumbnailService.js:58-68 | A property of `null`/`undefined` is read exactly when the response is one of them, or when no direct field is truthy and the first item of a non-empty `data` is one of them. |
| ThumbnailService.SeedIsCanonical | src/services/api/thumbnailService.js:80 | The seed is lower case, so seeding it again changes nothing. |
| ThumbnailService.PlaceholderSeed | src/services/api/thumbnailService.js:80 | The seed has no white space and is no longer than the title. |
| ThumbnailService.DownloadSlug | src/services/api/thumbnailService.js:236 | The download slug (hyphenate, then lower-case) is the placeholder seed (lower-case, then hyphenate). |
| ThumbnailService.MockImageUrl | src/services/api/thumbnailService.js:79-82 | The placeholder URL begins with `https://picsum.photos/` and ends with the `?random=` query that carries the seed, style and colour scheme. |
| ThumbnailService.MockImageUrlDeterminesSize | src/services/api/thumbnailService.js:79-82 | Two placeholder URLs are equal only for equal dimensions. |
| ThumbnailService.ChooseImageAsWritten | src/services/api/thumbnailService.js:122-158 | As written: the image is AI-generated exactly when a key is configured and extraction does not throw, whatever value it extracted. Otherwise it is the placeholder URL. |
| ThumbnailService.UndefinedImageIsAIGenerated | src/services/api/thumbnailService.js:68 | The response `{ data: [{}] }` makes the code as written store an `undefined` URL flagged AI-generated. The corrected choice gives the placeholder. |
| ThumbnailService.ChooseImage | src/services/api/thumbnailService.js:122-158 | Corrected choice: the image is AI-generated exactly when a key is configured and extraction yields a non-empty string, which is then the URL. Otherwise it is the placeholder URL. Either way the stored URL is a non-empty string. |
| ThumbnailService.DescriptionProps | src/services/api/thumbnailService.js:162-173 | The request's text fields and the creation time are copied, and the part has no `Id`. |
| ThumbnailService.PlacementProps | src/services/api/thumbnailService.js:169-170 | `textEffects` falls back to `{}` and `textPosition` to `{x: 50, y: 50}` when falsy. Both are then truthy. |
| ThumbnailService.OutcomeProps | src/services/api/thumbnailService.js:166-174 | The part holds the size, image URL, AI flag, format (with "png" for an empty one) and live flag, and has no other keys. |
| ThumbnailService.ThumbnailProps | src/services/api/thumbnailService.js:160-175 | The new thumbnail has exactly the 13 listed properties and no `Id` among them. |
| ThumbnailService.ThumbnailOutcome | src/services/api/thumbnailService.js:160-175 | The new thumbnail's dimensions, image URL, AI flag, format and live flag are those of the outcome. |
| ThumbnailService.ThumbnailPlacement | src/services/api/thumbnailService.js:169-170 | The new thumbnail's text effects and position are the request's, or their defaults when falsy. |
| ThumbnailService.ThumbnailDescription | src/services/api/thumbnailService.js:162-173 | The new thumbnail's title, description, style, colour scheme, size key and creation time are the request's. |
| ThumbnailService.NewThumbnail | src/services/api/thumbnailService.js:159-175 | The record gets the given Id, the request's title and the looked-up dimensions. It is flagged AI-generated exactly when a key is configured and the provider answered with a usable URL, and its image URL is always a non-empty string. |
| ThumbnailService.TopTenTipsScenario | src/services/api/thumbnailService.js:79-82 | Without a key, "Top 10 Tips", tech, vibrant at YouTube size gives a 1280×720 placeholder with query `?random=top-10-tips-tech-vibrant`. |
| ThumbnailService.TopTenTipsSeed | src/services/api/thumbnailService.js:80 | The seed of "Top 10 Tips" is `top-10-tips`. |
| ThumbnailService.SeedOfThreeWords | src/services/api/thumbnailService.js:80 | Three space-free words separated by single spaces give a seed of the words joined by hyphens. |
| ThumbnailService.PlaceholderDownload | src/services/api/thumbnailService.js:242-248 | A record not flagged AI-generated is downloaded from its stored URL, not as a blob. The file name is the placeholder seed of its title plus the extension. |
| ThumbnailService.ErrorMessage | src/services/api/thumbnailService.js:95 | The "not found" message starts with `Thumbnail with id ` and contains the rendered Id. |
| ThumbnailService.PrepareDownload | src/services/api/thumbnailService.js:223-258 | Fails exactly when the title is not a string. Otherwise the format is the requested one ("png" by default) and the file name is the placeholder seed plus the extension. The download is a blob exactly when the record is AI-generated with a URL and the fetch succeeded, and the stored URL otherwise. |
| ThumbnailService.ThumbnailStore.constructor | src/services/api/thumbnailService.js:1 | The store starts as the loaded array. |
| ThumbnailService.ThumbnailStore.GetAll | src/services/api/thumbnailService.js:86-89 | Returns the store's contents. |
| ThumbnailService.ThumbnailStore.GetById | src/services/api/thumbnailService.js:91-98 | Succeeds exactly when some record has the Id, and then returns the first such record. Otherwise it fails with "not found" for that Id. |
| ThumbnailService.ThumbnailStore.Generate | src/services/api/thumbnailService.js:160-182 | Builds the record with an Id above every stored Id. It is put at the front only outside live mode; in live mode the store is unchanged. Unique Ids stay unique. |
| ThumbnailService.ThumbnailStore.Update | src/services/api/thumbnailService.js:189-203 | An absent Id fails and changes nothing. Otherwise the first matching record is merged in place with the Id forced. The length and every position's Id are kept, and unique Ids stay unique. |
| ThumbnailService.ThumbnailStore.Delete | src/services/api/thumbnailService.js:205-214 | An absent Id fails and changes nothing. Otherwise the first matching record is removed and returned, the others keep their order, and unique Ids stay unique. |
| ThumbnailService.ThumbnailStore.Download | src/services/api/thumbnailService.js:216-259 | An absent Id fails with "not found". Otherwise it returns the record's download, named by the placeholder seed of its title and the requested format ("png" by default). |
| StylePresetService.ErrorMessage | src/services/api/stylePresetService.js:17 | The "not found" message starts with `Style preset with id ` and contains the rendered Id. |
| StylePresetService.NewPreset | src/services/api/stylePresetService.js:24-27 | Without an `Id` in the data, the new preset's Id is `NextId`: one more than the largest stored Id (1 on an empty store), so it exceeds every stored Id. An `Id` in the data replaces it. The properties are the data's. |
| StylePresetService.NewPresetKeepsUnique | src/services/api/stylePresetService.js:24-29 | Appending the new preset keeps unique Ids unique exactly when the data brings no `Id`, or one not yet stored. |
| StylePresetService.StylePresetStore.constructor | src/services/api/stylePresetService.js:1 | The store starts as the loaded array. |
| StylePresetService.StylePresetStore.GetAll | src/services/api/stylePresetService.js:8-11 | Returns the store's contents. |
| StylePresetService.StylePresetStore.GetById | src/services/api/stylePresetService.js:13-20 | Succeeds exactly when some preset has the Id, and then returns the first such preset. Otherwise it fails with "not found" for that Id. |
| StylePresetService.StylePresetStore.Create | src/services/api/stylePresetService.js:22-31 | Appends exactly the new preset at the end and returns it. Earlier presets are unchanged, and uniqueness is kept exactly when the new Id is fresh. |
| StylePresetService.StylePresetStore.Update | src/services/api/stylePresetService.js:33-47 | An absent Id fails and changes nothing. Otherwise the first matching preset is merged in place with the Id forced, and other presets are unchanged. |
| StylePresetService.StylePresetStore.Delete | src/services/api/stylePresetService.js:49-58 | An absent Id fails and changes nothing. Otherwise exactly the first matching preset is removed and returned, and the rest keep their order. |
| StylePresetService.CreatedPresetIsFound | src/services/api/stylePresetService.js:24-29 | After a create without an `Id`, looking up the new Id finds the new preset at the end. |
| StylePresetService.DeletedIdIsGone | src/services/api/stylePresetService.js:51-56 | With unique Ids, after a successful delete no preset carries that Id. |
| ThumbnailForm.InitialForm | src/components/organisms/ThumbnailForm.jsx:17-54 | The fresh form has an empty title and the YouTube image size. |
| ThumbnailForm.CollectedErrors | src/components/organisms/ThumbnailForm.jsx:89-105 | The errors hold a key exactly for each missing required field, with that field's fixed message. They are empty exactly when the form is complete. |
| ThumbnailForm.CompleteIffNoneMissing | src/components/organisms/ThumbnailForm.jsx:92-105 | The form is complete exactly when none of the four required fields is missing. |
| ThumbnailForm.NoteTitle | src/components/organisms/ThumbnailForm.jsx:92-94 | The title check adds "Title is required" exactly when the trimmed title is empty. |
| ThumbnailForm.NoteSelection | src/components/organisms/ThumbnailForm.jsx:95-105 | Each of the style, colour-scheme and size checks adds its own fixed message exactly when that field is falsy. |
| ThumbnailForm.EmptyReportIffComplete | src/components/organisms/ThumbnailForm.jsx:107-108 | Such a report is empty exactly when the trimmed title, style, colour scheme and size are all set. |
| ThumbnailForm.ValidateForm | src/components/organisms/ThumbnailForm.jsx:89-109 | The four conditional assignments build exactly the collected errors. The result is true exactly when there are none, and so exactly when the form is complete. |
| ThumbnailForm.HandleSubmit | src/components/organisms/ThumbnailForm.jsx:111-116 | The form is handed to the submit handler exactly when it is complete. The errors are replaced by the collected ones, and nothing else changes. |
| ThumbnailForm.FilledFormIsValid | src/components/organisms/ThumbnailForm.jsx:92-105 | A non-blank title with a non-empty style, colour scheme and size is complete. |
| ThumbnailForm.InitialFormIsIncomplete | src/components/organisms/ThumbnailForm.jsx:17-23 | The fresh form does not validate. |
| ThumbnailForm.NestedUpdate | src/components/organisms/ThumbnailForm.jsx:120-129 | The nested copy fails exactly for a deep path under an `undefined` or `null` value. Otherwise `child` (or `child.subchild`) is set and every sibling at each level is copied. |
| ThumbnailForm.UpdateField | src/components/organisms/ThumbnailForm.jsx:117-132 | Only a dotted field can fail. The update changes only the first path segment's field, and that field is present afterwards. |
| ThumbnailForm.UpdateTopLevel | src/components/organisms/ThumbnailForm.jsx:130-131 | A plain field name sets just that field, adds it if new, and leaves every other field unchanged. |
| ThumbnailForm.UpdateTwoLevels | src/components/organisms/ThumbnailForm.jsx:119-129 | `parent.child` sets that one nested value and copies its siblings at both levels. |
| ThumbnailForm.UpdateThreeLevels | src/components/organisms/ThumbnailForm.jsx:119-129 | `parent.child.subchild` sets one leaf and copies its siblings at all three levels. It fails exactly when `prev[parent]` is `undefined` or `null`. |
| ThumbnailForm.UpdateTrailingDot | src/components/organisms/ThumbnailForm.jsx:124 | An empty third segment is falsy, so `parent.child.` acts like `parent.child`. |
| ThumbnailForm.DottedPathSegments | src/components/organisms/ThumbnailForm.jsx:119 | Dot-free segments joined by dots split back into those segments. |
| ThumbnailForm.ClearError | src/components/organisms/ThumbnailForm.jsx:134-136 | Editing a field blanks its error entry and leaves every other entry, and the set of keys, as they were. |
| ThumbnailForm.ShouldAutoGenerate | src/components/organisms/ThumbnailForm.jsx:139 | Auto-generation fires exactly in live mode with a handler, for the title, the description, or a field name in which `textEffects` occurs. |
| ThumbnailForm.TextEffectPathsTrigger | src/components/organisms/ThumbnailForm.jsx:139 | Every path under `textEffects` triggers auto-generation exactly when live mode is on and a handler exists. |
| ThumbnailForm.HandleInputChange | src/components/organisms/ThumbnailForm.jsx:117-157 | A change fails exactly when the field update does. Otherwise the new form is that update's result, the error is cleared and the panel flag kept. The payload is scheduled exactly when the trigger holds, and it equals the new form. |
| ThumbnailForm.HandleClear | src/components/organisms/ThumbnailForm.jsx:160-201 | Clearing sets the literal of `handleClear`, which is the initial form, empties the errors and closes the text-effects panel. |
| ThumbnailForm.ClearedFormIsInitial | src/components/organisms/ThumbnailForm.jsx:161-198 | The literal `handleClear` writes out is exactly the initial form. |
| ThumbnailForm.ImageSizeOptionsMatchService | src/components/organisms/ThumbnailForm.jsx:78-87 | Every size the drop-down offers is generated at exactly the dimensions it advertises. |

## Left out

- The provider call (`fetch`, headers, HTTP status, JSON parsing) is network I/O. Its outcome is the parameter `providerBody`, which is `None` when any of those steps failed.
- The AI-image download (`fetch`, `blob()`, `URL.createObjectURL`) is browser I/O. Its outcome is the parameter `blobUrl`, which is `None` when fetching failed.
- The simulated delays and the 300 ms debounce are timing only. The debounced call is returned as the change's `autoGenerate` payload.
- `new Date().toISOString()` is the parameter `createdAt`.
- The environment's API key is the flag `apiKeyConfigured`.
- The free-text provider prompt (thumbnailService.js:143) is left out. It only concatenates fixed phrases and is passed to the provider unchanged.
- `console` logging is left out.
- `parseInt` of ids is left out: ids are integers throughout.
- JavaScript numbers are exact reals. The aspect-ratio tolerance is therefore exact arithmetic, and NaN, infinities other than the empty-store Id, and rounding are not modelled.
- Text.Lower: `toLowerCase` is modelled for ASCII and Latin-1 capitals only. Other scripts are left unchanged.
- `{...v}` of a string or an array contributes no properties in the model. In JavaScript it spreads indices.
- Properties inherited from `Object.prototype` (`constructor`, `toString`, ...) are not modelled. A missing key reads as `undefined`.
- ThumbnailService.HasItems: a `length` property that is a string, an array or an object counts as not above 0. JavaScript converts it to a number first, so `{ data: { length: "1", 0: { url: "u" } } }` yields `"u"` there and "no image URL" in the model. Numbers and booleans are compared as JavaScript does.
- JsValues.Get: a property read of a string or an array gives `undefined` in the model, whereas JavaScript gives index properties and `length`. Only a dotted change path that passes through a string or an array would read differently, and the form never sends one.
- The stores hand out shallow copies (`[...data]`, `{...record}`) whose nested objects are shared with the stored records, so a caller mutating a nested value would change the store. The model's records are values and cannot alias.
- ThumbnailService.ThumbnailStore.Generate: on an empty store the model uses the corrected Id `NextId` (1) where the source stores `-Infinity`; see Findings.
- ThumbnailService.ThumbnailStore.Generate: the image choice follows the corrected `ChooseImage`, which flags an image AI-generated only for a non-empty string URL; see Findings.
- StylePresetService.StylePresetStore.Create: on an empty store the model uses the corrected Id `NextId` (1) where the source stores `-Infinity`; see Findings.
- ThumbnailService.ThumbnailStore.Generate: the request is typed, so its title, style, colour scheme, format and size key are strings and `liveMode` a boolean. This makes the outer catch that rethrows "AI image generation service is temporarily unavailable" unreachable in the model. The default `dimensions` parameter of the placeholder helper is never used, because generation always passes the looked-up size.
- ThumbnailService.ThumbnailStore.Update and StylePresetService.StylePresetStore.Update: the changes are properties without an `Id`. An `Id` in the changes is overwritten by the forced Id anyway, so nothing is lost.
- StylePresetService.StylePresetStore.Create: a caller-supplied `Id` is an integer. The source would store whatever value the data carries.
- ThumbnailForm.ValidateForm: requires the title to be a string. `trim` on a non-string title throws in the source, and the form only ever holds strings there.
- ThumbnailForm.HandleInputChange: the state updater and the debounced payload are computed from the same form. React's deferred and batched updates, and the out-of-order overwrite of later live results, are not modelled. A TypeError in the nested copy fails the whole change.
- The contents of the JSON fixtures are not part of this model. The stores start from an arbitrary sequence.
- The labels of the image-size options and the colour-scheme and style option lists are display text only.
- Text-effect compositing, the preview and all presentational components are rendering only.
- The page that orchestrates generation and download (`Home.jsx`) is UI glue and is not part of this model.

## Findings

| source | as written | input that shows it | evidently intended | confidence | as-written member | corrected member |
|---|---|---|---|---|---|---|
| src/services/api/thumbnailService.js:161 | `Math.max(...ids) + 1` is `-Infinity` when the store is empty, so the new record's Id is no integer and can never be looked up, updated or deleted; the same expression is at stylePresetService.js:25 | generate (not in live mode) or create on an empty store | the first Id is 1, and otherwise one more than the largest Id | not executed | Records.EmptyStoreIdAsWrittenIsNoInteger | Records.NextId |
| src/services/api/thumbnailService.js:68 | `data.data[0].url || data.data[0].image_url` can yield `undefined`, an empty string or a non-string, and lines 146-147 accept any value that does not throw and flag it AI-generated | `{ data: [{}] }` from the provider, with an API key configured | fall back to the placeholder URL unless a non-empty string URL was extracted | not executed | ThumbnailService.UndefinedImageIsAIGenerated | ThumbnailService.ChooseImage |
