# Ghibli image scraper: a verified model of its scanner and classifier logic

The extension watches web pages for `<img>` elements. It sends each new, large enough image
to its background worker. The worker asks the Gemini vision API whether the image is in Studio
Ghibli style and, when the answer is yes, downloads the image into a configured folder.
Counters of processed and downloaded images live in `chrome.storage.local`.

This project models the two pieces of sequential logic in that pipeline and proves their
properties in Dafny:

- **The page scanner** (`content.js`), as the class `Scanner.PageScanner`. It holds the
  per-page set of dispatched URLs (`processedImages`), the live `isEnabled` flag, the number of
  mutation observers and `TOGGLE_STATUS` listeners installed so far, and the `IMAGE_FOUND`
  messages sent. `processImage` and its loops are methods: the page-load scan, the observer
  callback over mutation records, `init` and the toggle handler. Each method is proved against
  two specification functions. `SeenAfter` gives the set after a list of images was processed
  in order, and `Emitted` gives the images dispatched. The object invariant `Valid` says
  five things:
  - the set is exactly the set of dispatched URLs;
  - no URL was dispatched twice;
  - every dispatched image had a non-empty URL without `profile_images`;
  - every dispatched image was at least 100 by 100 pixels;
  - the messages sent are exactly `Messages(sources, pageUrl)`, one per dispatched image, in
    order.
- **The classifier and downloader** (`background.js`). `checkGhibliStyle` is a pure function of
  three inputs: the stored settings, the outcome of fetching the image, and the service's reply.
  It covers the missing-key short-circuit, the payload after the data URL's comma, the
  whitespace clean-up, the alphabet check, the endpoint, the request body, and the verdict rule
  with its threshold. The `IMAGE_FOUND` handler, `downloadGhibliImage` and `UPDATE_SETTINGS`
  are methods over the class `Settings.Store`. The download filename template is a function,
  proved to record its timestamp.
- **The sequential pipeline** (`Pipeline`). One image goes through the scanner, the handler
  and the response callback. This shows the processed counter rising by one per dispatched
  image, and the downloaded counter rising by one per Ghibli verdict whose download succeeds.

The base64 encoding of section 4 of RFC 4648 and the `data:` URL form of RFC 2397 are modelled
as a reference (`Base64.Encode`, `Base64.DataUrl`). With them the project proves that a payload
read from a well-formed data URL of a non-empty image always passes the alphabet check. It also
proves that the check accepts strings that no encoding produces.

Host facilities are parameters. These are the result of `fetch` and `FileReader`, the
service's reply, `Date.now()`, the download callback's success, the stored `enabled` flag and
the DOM's images. Every asynchronous step is taken to finish before the next one starts.

Behaviours of the code worth noting:
- A data URL without a comma makes `split(',')[1]` undefined, and the following `trim()`
  throws. The inner `catch` reports this as `Failed to fetch image`.
- The payload is the text between the first and the second comma, not everything after the
  first comma.
- An empty payload fails the check (the pattern needs at least one character), so it gives
  `Invalid base64 encoding`.
- The filename depends only on the folder and the millisecond timestamp. Two downloads in the
  same millisecond get the same name. Downloads at different milliseconds get different names,
  which `Background.DistinctTimestampsDistinctFilenames` proves.
- `init` runs on the `load` event and once directly. Every `TOGGLE_STATUS` that enables the
  scanner installs another observer. The model therefore counts observers and listeners. It
  proves that repeated callbacks and re-scans never send an image twice, because
  `processedImages` is never cleared.

## Model

| member | source | states |
|---|---|---|
| `Scanner.MetadataOf` | content.js:100-105 | the message's width and height are the natural size when non-zero, else the rendered size; they are positive for an image that passed the filter; alt and page URL are copied |
| `Scanner.Messages` | content.js:108-112 | one `IMAGE_FOUND` message per image, in order; the i-th carries the i-th image's `src` as `imageUrl` and that image's metadata |
| `Scanner.SeenAfterIsSeenPlusEmitted` | content.js:88-97 | after processing a list, the set is the old set plus exactly the URLs dispatched: it grows only by emitted URLs |
| `Scanner.EmittedFresh` | content.js:88-97 | over any list, no URL is dispatched twice; none already in the set is dispatched; every dispatched image has a non-empty URL without `profile_images` and is at least 100 by 100 |
| `Scanner.NothingQualifyingMissed` | content.js:88-97 | every image with a non-empty URL without `profile_images` and both sides at least 100 ends up in the set: none is skipped |
| `Scanner.SeenGrows` | content.js:2 | the set of dispatched URLs never shrinks |
| `Scanner.ProcessAppend` | content.js:41-43 | processing two lists one after the other equals processing their concatenation (sets and dispatched images) |
| `Scanner.RescanEmitsNothing` | content.js:88 | once the set holds every URL a list would add, processing the list again dispatches nothing and leaves the set unchanged |
| `Scanner.ProcessTwice` | content.js:24-27 | processing the same images twice in a row dispatches and records exactly what processing them once does |
| `Scanner.FedChain` | content.js:52-70 | feeding one list of images after another equals feeding their concatenation, from any start state, enabled or not |
| `Scanner.OutboxOncePerUrl` | content.js:97-112 | under the invariant, every sent message has a distinct image URL and every such URL is in the set |
| `Scanner.PageScanner.constructor` | content.js:1-3 | a new page starts with an empty set, enabled, no observers or listeners, no messages sent |
| `Scanner.PageScanner.ProcessImage` | content.js:81-119 | sends exactly when enabled and the image qualifies (URL not yet seen, non-empty, no `profile_images`, both sides at least 100); then the set grows by exactly that URL and one message is appended; otherwise nothing changes; the invariant is kept |
| `Scanner.PageScanner.ProcessAll` | content.js:41-43 | the `forEach` over a list leaves the set and the sent images as the specification functions give them for that list (nothing when disabled) |
| `Scanner.PageScanner.ScanPage` | content.js:36-44 | `processExistingImages` processes every page image in order when enabled and changes nothing when disabled |
| `Scanner.PageScanner.ProcessNode` | content.js:57-67 | an added `<img>` is processed itself; another element has its `<img>` descendants processed; text nodes add nothing |
| `Scanner.PageScanner.ProcessMutation` | content.js:54-68 | the nodes of one mutation record are processed in order, as one concatenated list |
| `Scanner.PageScanner.ObserverCallback` | content.js:49-71 | one observer callback does nothing when disabled, else processes the batch's images in record and node order |
| `Scanner.PageScanner.DeliverMutations` | content.js:47-78 | however many observers repeated set-ups installed, a batch's images are dispatched once, as by a single observer |
| `Scanner.PageScanner.Init` | content.js:6-17 | the stored flag (missing means enabled) becomes the live flag; one more toggle listener; when enabled, one more observer and a scan of the page |
| `Scanner.PageScanner.Toggle` | content.js:20-32 | every listener sets the flag to the message's value; when enabled, each installs an observer and re-scans, yet the page's images are dispatched once; the set is never cleared or shrunk; the answer is `updated` |
| `Text.ContainsIff` | content.js:90 | `includes` holds exactly when the substring occurs at some position |
| `Classifier.PositiveIffTrueAnyCase` | background.js:133 | a reply text counts as positive exactly when `true` occurs in it in any mix of upper and lower case |
| `Text.RemoveWhitespace` | background.js:50 | the result has no `\s` character, is no longer than the input, and draws every character from it |
| `Text.RemoveWhitespaceAppend` | background.js:50 | removing whitespace distributes over concatenation |
| `Text.RemoveWhitespaceKeeps` | background.js:50 | a string without whitespace is unchanged |
| `Text.Trim` | background.js:50 | the trimmed string neither starts nor ends with whitespace, and it is the substring of the input that remains after removing a run of whitespace at each end; nothing in the middle changes |
| `Text.RemoveWhitespaceAfterTrim` | background.js:50 | the `trim()` before the global replace changes nothing: the replace alone decides the payload |
| `Text.NatToString` | background.js:166 | the numeral of a number is non-empty and all digits |
| `Text.NatToStringNoLeadingZero` | background.js:166 | the numeral is the shortest one: only the numeral of 0 starts with `0` |
| `Text.DecimalValueOfNatToString` | background.js:166 | reading the numeral back gives the number |
| `Text.NatToStringInjective` | background.js:166 | different numbers have different numerals |
| `Base64.UpToComma` | background.js:42 | the field is comma-free, a prefix of the input, and ends at a comma or at the end |
| `Base64.PayloadOfAbsentIff` | background.js:42 | `split(',')[1]` is undefined exactly when the data URL has no comma |
| `Base64.PayloadOfFields` | background.js:42 | for `a,b` or `a,b,…` with comma-free `a` and `b`, the field taken is `b` |
| `Base64.PayloadOfDataUrl` | background.js:42 | from an RFC 2397 data URL whose type and data are comma-free, the field taken is exactly the data |
| `Base64.Sanitize` | background.js:50 | the cleaned payload has no whitespace and equals the input with its whitespace removed |
| `Base64.Encode` | background.js:46 | the reference base64 encoding is 4 characters per started 3 bytes, all from the alphabet or `=`, with no comma or whitespace |
| `Base64.EncodeAccepted` | background.js:53 | any non-empty image's encoding passes `/^[A-Za-z0-9+/=]+$/` |
| `Base64.AcceptedIsLooserThanEncoding` | background.js:53 | the check ignores padding position and length: it accepts `A=B`, which no byte string encodes to |
| `Base64.BlankPayloadRejected` | background.js:50-53 | every empty or all-whitespace payload fails the check once cleaned |
| `Settings.OrDefault` | background.js:21 | a missing or empty stored string reads as the fallback, any other as itself |
| `Settings.EffectiveThreshold` | background.js:22 | a missing or zero threshold reads as exactly 0.7; any other stored value is used as is; the result is never 0 |
| `Settings.Merge` | background.js:229 | an update changes exactly the keys it carries |
| `Settings.MergeIdempotent` | background.js:229 | applying the same update twice equals applying it once |
| `Settings.Store.constructor` | background.js:19 | storage before any write has every key missing |
| `Settings.Store.Install` | background.js:2-13 | on install every key gets its default: enabled, both counters 0, path `GhibliImages`, empty key, the Gemini base URL, threshold 0.7 |
| `Settings.Store.IncrementProcessed` | content.js:114-117 | the processed counter is read (missing as 0) and written back one higher; nothing else changes |
| `Settings.Store.IncrementDownloaded` | background.js:178-181 | the downloaded counter is read (missing as 0) and written back one higher; nothing else changes |
| `Settings.Store.SetSettings` | background.js:229 | the configuration becomes the merge of the update into it; counters and flag are untouched |
| `Classifier.MimeTypeOf` | background.js:35 | the MIME type is the blob's type when non-empty, and exactly `image/jpeg` when the blob type is empty |
| `Classifier.PrepareImage` | background.js:32-64 | succeeds exactly when the fetch worked, the data URL has a comma, and the cleaned field passes the alphabet check; the payload is then whitespace-free; failures are `Failed to fetch image`, or `Invalid base64 encoding` exactly when a field was found but its cleaned form fails the check |
| `Classifier.Endpoint` | background.js:67 | the endpoint starts with the base URL, continues with `gemini-2.0-flash:generateContent?key=`, and ends with the key |
| `Classifier.BuildRequest` | background.js:20-87 | with no key the result is `API key not set`; with a key it succeeds exactly when the image step does, and otherwise fails with that step's message; a built request has the endpoint from the effective base URL and key, and exactly one content of two parts: the fixed instruction, then inline data with the effective MIME type and the cleaned, accepted payload |
| `Classifier.ConfidenceOf` | background.js:136 | the confidence is 0.8 for a positive reply and 0.2 for a negative one |
| `Classifier.Interpret` | background.js:114-145 | a judgement is returned exactly when the service answered 2xx with parsable JSON; its confidence is that of the reply's positivity, `isGhibli` is positive and confidence at or above the threshold, and `rawResponse` is the reply's first text; an unreachable service gives its error message; a non-2xx status gives `API request failed with status N: body`; unparsable JSON gives the parser's message |
| `Classifier.Classify` | background.js:16-147 | a Ghibli verdict implies that the key check, the fetch and the payload check all passed |
| `Classifier.MissingKeyShortCircuit` | background.js:24-27 | without a key the result is `API key not set` and not Ghibli, whatever the fetch and the reply would be: neither is consulted |
| `Classifier.NoRequestNoReplyConsulted` | background.js:24-64 | when no request can be built, the verdict is that error and does not depend on any reply: no POST is made |
| `Classifier.ClassifyGhibliIff` | background.js:126-139 | Ghibli exactly when the request was built, the reply was 2xx and parsed, its first text lower-cased contains `true`, and the effective threshold is at most 0.8 (both directions) |
| `Classifier.NegativeNeverGhibli` | background.js:133-139 | a reply without `true` never yields Ghibli, whatever the threshold |
| `Classifier.ReplyFalse` | background.js:133-142 | the reply text `false` gives not Ghibli, confidence 0.2, raw response `false` |
| `Classifier.ReplyTrue` | background.js:133-142 | the reply text `True` with an effective threshold at most 0.8 gives Ghibli, confidence 0.8 |
| `Classifier.HighThresholdBlocksAll` | background.js:22 | an effective threshold above 0.8 blocks every Ghibli verdict |
| `Classifier.EncodedImageIsSent` | background.js:33-87 | for a data URL of a non-empty image in base64, the request built carries exactly the image's encoding and the effective MIME type |
| `Background.DownloadDir` | background.js:163 | the folder is the stored path when it is set and non-empty, otherwise `GhibliImages` |
| `Background.DownloadFilename` | background.js:166 | the filename starts with the folder and `/`, and ends with `_ghibli_image.jpg` |
| `Background.TimestampRecoverable` | background.js:166 | the text between folder and suffix is the timestamp's numeral, and reads back as the timestamp |
| `Background.DistinctTimestampsDistinctFilenames` | background.js:166 | downloads at different milliseconds get different filenames |
| `Background.Download` | background.js:160-190 | asks the host to save the URL under the timestamped filename without prompting; answers success with that filename; the downloaded counter rises by one only when the host reports no error |
| `Background.HandleImageFound` | background.js:192-225 | the downloader is called exactly on a Ghibli verdict; otherwise the result is `Not Ghibli style`; the reported `isGhibli` equals the download's success, which equals the verdict; only a Ghibli verdict with a successful download raises the counter |
| `Background.HandleUpdateSettings` | background.js:228-233 | stores the keys the message carries and answers `settings_updated` |
| `Pipeline.DispatchImage` | content.js:108-117 | a dispatched image is classified, possibly downloaded, and then counted as processed: the processed counter rises by one exactly for a dispatched image; the downloaded counter only for a dispatched Ghibli image whose download succeeds; the scanner's flag, observers and listeners are unchanged |
| `Pipeline.Setup` | background.js:2-13 | a freshly installed store with a key set, and a new page scanner that is enabled and has sent nothing |
| `Pipeline.ScenarioGhibliImage` | background.js:198-214 | a 200 by 200 image judged Ghibli, whose download succeeds, raises both counters from 0 to 1 |
| `Pipeline.ScenarioOtherImage` | background.js:203-206 | the same image judged not Ghibli raises only the processed counter; the downloader never runs |
| `Pipeline.ScenarioSameImageTwice` | content.js:88 | an image seen twice on one page is sent once and counted once |

## Left out

- popup.js is not part of this model. It is UI: tab switching, form binding, the one-second
  statistics poll and the "Saved!" flash. Its `parseFloat` of the threshold is float parsing.
  Its `TOGGLE_STATUS` and `UPDATE_SETTINGS` messages appear here as inputs to
  `Scanner.PageScanner.Toggle` and `Background.HandleUpdateSettings`.
- Network and host calls are parameters of the model, not operations in it. These are
  `fetch`, `blob()`, `FileReader.readAsDataURL`, `response.json()`/`text()`,
  `chrome.downloads.download`, `chrome.storage` get/set, and runtime/tab messaging.
- Asynchronous interleaving is not modelled. Every callback runs to completion before the next
  event, so the lost-update race of the read-then-write counters (content.js:114-116,
  background.js:178-180) does not arise in the model.
- `MutationObserver` mechanics and DOM queries are replaced by given sequences of image records
  and mutation records. Observers are counted, not stored.
- Console logging is not modelled; it only affects logs. This includes the truncated log copy
  of the request body (background.js:89-100, 112, 123).
- The unused `blobToBase64` helper (background.js:150-157) is left out: it is dead code.
- The `createIconsFolder` stub (content.js:122-126) is left out: it only logs.
- `Date.now()` is a timestamp parameter. `window.location.href` is the scanner's fixed
  `pageUrl`.
- Text.ToLower: lowers ASCII capitals only. Full Unicode case mapping is not modelled. No
  other character lowers to one of `t`, `r`, `u`, `e`, so the `includes('true')` decision does
  not depend on it.
- Classifier.Interpret: the reply's first text part is taken to be a string. A non-string
  value there (a number, say) would make `toLowerCase` throw; the model has no such case.
- Classifier.Interpret: the threshold comparison uses exact reals, not IEEE doubles.
  `NaN` and non-numeric stored thresholds are not represented.
- Background.Download: the `{success: false, error}` result of its `catch` is not modelled.
  It arises only when reading `downloadPath` from storage throws, which the model cannot
  express.
- Background.HandleImageFound: the handler's `.catch` branch (background.js:216-222) is not
  modelled. It is unreachable, because `checkGhibliStyle` and `downloadGhibliImage` both catch
  every exception themselves.
- Scanner.PageScanner.Toggle: every registered listener calls `sendResponse`, but only the
  first answer reaches the sender. The model returns that single `updated`. The method requires
  at least one listener: `init()` runs when the script loads (content.js:132) and registers one,
  so a toggle message never reaches a page with none.
- Settings.Store.SetSettings: writes only the four configuration keys. `chrome.storage.local.set`
  (background.js:229) would write any key the message carries, counters and flag included. The
  only sender, the popup, puts exactly those four keys in the message (popup.js:68-73).
- The `metadata` argument that `checkGhibliStyle` and `downloadGhibliImage` receive is not
  passed in, because neither function reads it.
