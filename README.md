# Try-on demo: a verified model of its decision logic

The try-on demo is a small web application with three parts:
- A page where a shopper searches for products, takes a photo and asks for a virtual try-on.
- Four HTTP endpoints behind the page:
  - `/api/search` runs a product search.
  - `/api/upload` stores an image with an image host.
  - `/api/tryon` uploads the photo and starts a try-on job with a try-on provider.
  - `/api/tryon-status` asks the provider how a job is doing.
- A Triton Python backend for SAM2 segmentation, which picks a configuration to load and answers batches of requests.

This project models the decision logic of those parts in Dafny and proves what they promise.

- `wrappers.dfy`: `Option`.
- `strings.dfy`: these string operations on `seq<char>`:
  - Python's `str.replace`;
  - JavaScript's `split(",")[1]`, `toLowerCase` and `trim`;
  - prefix and suffix tests.
- `http.dfy`: what the endpoints share:
  - the abstract outcome of an upstream call (`Ok`, `NotOk` with status and text, or an exception);
  - the JSON bodies the endpoints answer with;
  - the trace of outbound calls;
  - the `camel || snake || undefined` normaliser.
- `tryon_route.dfy`, `tryon_status_route.dfy`, `upload_route.dfy`, `search_route.dfy`: one function per handler. Each maps the request fields, the environment and the upstream outcomes to the response and the calls made.
- `poll.dfy`: the page's pure decisions and the poller's step functions, with lemmas over whole runs of events:
  - how the first try-on answer is dispatched;
  - how a status poll is classified;
  - what one interval tick or the timeout does.
- `page.dfy`: the page's state as a class `TryOnDemo`, with these handlers:
  - `SearchProducts`, `TryOnItem` and `Reset`, which change the page's state step by step;
  - a `Poller` class for the interval and timeout that `TryOnItem` starts. Each of its methods is proved equal to the step function in `poll.dfy`.
- `flows.dfy`: how the page and the endpoints fit together.
- `posix_path.dfy`: the part of Python's `pathlib` on POSIX that the config lookup uses. It covers `/` and `str()`.
- `sam2.dfy`: the Triton backend:
  - the config-name functions and the ordered candidate list;
  - the first-success loading loop;
  - `initialize`, as a constructor of the class `TritonModel`;
  - prompt parsing;
  - the per-request loop of `execute`.

Time is abstract. A `Tick` is one firing of the 2-second interval and `Timeout` the single firing of the 60-second timer. Inputs that the real program gets from outside become parameters:
- upstream calls, and whether a path is a file;
- `build_sam2`, the predictor wrapper and the predictor;
- base64 decoding.

`sam2-triton-deploy/models_local/sam2/1/model.py` is the same file as `sam2-triton-deploy/models/sam2/1/model.py`. One model serves both, and the rows below cite the `models/` copy.

The model follows the code as written, including these behaviours:
- A status poll that comes back non-ok keeps the poller running (`app/page.tsx:91`). Only an exception inside the callback aborts (`app/page.tsx:124-128`).
- `"failed"` is compared exactly, while `ready`/`completed` are lower-cased first.
- A completed answer without media or an inline image ends polling without setting a result.
- `split(",")[1]` is the text between the first and the second comma. It is `undefined` when there is no comma. In `/api/upload` an `undefined` data part makes `Buffer.from` throw after the direct-upload call. That path answers 500 "Upload failed".
- An empty camelCase `mediaUrls` array is truthy in JavaScript, so it hides a non-empty `media_urls`.
- An empty first variant in `/api/upload` gives an empty image URL, which answers 500 instead of falling back to the account-hash URL.
- The 60-second timer is never cancelled, so it also fires after a success. Its alert depends on the in-progress flag as it was when `tryOnItem` began (see Findings).

## Model

| member | source | states |
|---|---|---|
| Http.ParsedOrRaw | app/api/tryon/route.ts:65-76 | error details are the parsed JSON when the error text parses, otherwise the raw text |
| Http.EitherString | app/api/tryon/route.ts:83 | the camelCase value if truthy, else the snake_case value if truthy, else absent; a present result is always truthy |
| Http.EitherList | app/api/tryon/route.ts:84 | a present camelCase list wins even when empty (arrays are truthy), otherwise the snake_case list |
| TryOnRoute.Normalized | app/api/tryon/route.ts:82-86 | each of `eventId`, `mediaUrls`, `outputImage` is the camelCase-or-snake_case choice of the provider reply |
| TryOnRoute.Post | app/api/tryon/route.ts:13-93 | an unreadable body answers 500 "Try-on failed"; a missing or empty input answers 400 with no call; otherwise the user image is uploaded first; a failed upload answers 500 with its error body as details and the provider is not called; the provider is called only after a successful upload, with the uploaded URL, the garment URL, mask "overall" and the key or ""; a provider error passes its status through with parsed-or-raw details; an exception answers 500; an ok reply answers exactly the normalised body |
| TryOnStatusRoute.Normalized | app/api/tryon-status/route.ts:46-51 | `status` is copied unchanged; the other three fields are the camelCase-or-snake_case choice |
| TryOnStatusRoute.Get | app/api/tryon-status/route.ts:4-58 | a missing event id answers 400 before the key is checked; a missing key answers 500; neither calls the provider; otherwise exactly one status call for that event with that key; a provider error passes its status through with the raw text as details; an exception answers 500 "Status check failed"; an ok reply answers the normalised body with the provider's status unchanged |
| UploadRoute.DataPart | app/api/upload/route.ts:95 | an image not starting with "data:" is used unchanged; a data URL yields its second comma-separated field, or nothing without a comma |
| UploadRoute.DataPartOfDataUrl | app/api/upload/route.ts:95 | a data URL of section 3 of RFC 2397, `data:[<mediatype>][;base64],<data>`, with no comma in header or data yields exactly its data |
| UploadRoute.PublicUrl | app/api/upload/route.ts:120-128 | the first variant if there is one; else the `https://imagedelivery.net/<hash>/<id>/public` URL when the hash is truthy and the id non-empty; else none |
| UploadRoute.Post | app/api/upload/route.ts:20-146 | the image is checked (400) before the credentials (500 with flags saying exactly which are present), neither making a call; a direct-upload failure answers 500 with parsed-or-raw details and the provider status, and no image upload follows; the image upload happens exactly when the direct upload succeeded and there is a data part, and sends exactly that part; a failed image upload answers 500; no usable URL answers 500 with the image id; success answers exactly `{imageUrl, imageId}`; every other path answers 500 "Upload failed" |
| SearchRoute.Post | app/api/search/route.ts:5-34 | a missing or empty query answers 400, then a missing key answers 500, neither searching; otherwise exactly one search with the limit defaulting to 6; the products are passed on unchanged; an exception answers 500; status 200 exactly when a search returned products |
| Strings.SecondField | app/page.tsx:69 | `split(",")[1]`: absent exactly when there is no comma; otherwise the comma-free text right after the first comma, up to the next comma or the end |
| Strings.SecondFieldOf | app/page.tsx:69 | for `<head>,<tail>` with no other comma the field is exactly the tail |
| Strings.ReplaceAll | sam2-triton-deploy/models/sam2/1/model.py:66-67 | Python's `str.replace`; its contract is the AliasFreeName and BasePlusAlias rows |
| Strings.Lower | app/page.tsx:109 | `toLowerCase()` keeps the length and lower-cases each ASCII letter in place; DoneStatusIgnoresCase uses it |
| Strings.Trim | app/page.tsx:40 | `trim()`; its contract is the TrimEmptyIffBlank row |
| Strings.TrimEmptyIffBlank | app/page.tsx:40 | `trim()` is empty exactly when every character is ECMAScript white space or a line terminator |
| Poll.InlineImage | app/page.tsx:114-118 | the inline result is the "data:image/jpeg;base64," prefix followed by exactly the image text |
| Poll.Dispatch | app/page.tsx:80-148 | a truthy event id starts polling; else a non-empty media list shows its first URL; else a truthy inline image is shown as a data URL; nothing is done exactly when none is present; a failure is raised exactly when the answer was not ok or threw |
| Poll.DoneStatusIgnoresCase | app/page.tsx:106-110 | two statuses equal after lower-casing are both done or both not done |
| Poll.Classify | app/page.tsx:95-123 | media URLs win over everything; without them the poll completes exactly on "ready"/"completed" in any case or an inline image, setting a result exactly when there is an inline image; it aborts exactly on the exact text "failed" after the success test fails; every other answer keeps polling |
| Poll.ClassifyResponse | app/page.tsx:87-129 | a non-ok answer keeps polling; only an exception aborts; an answered poll is classified as above |
| Poll.TickStep | app/page.tsx:86-130 | a cleared interval changes nothing and queries nothing; a pending poller makes one query and then succeeds, fails with an alert, or keeps waiting, each clearing the in-progress flag exactly on a terminal verdict |
| Poll.TimeoutStep | app/page.tsx:133-139 | the timeout fires once, always stops polling, and alerts and clears the flag only when the flag captured at the start was set; phase of a finished poller, result and query count are kept |
| Poll.TimeoutStepLive | app/page.tsx:133-139 | the intended timeout: fires once; on an attempt still pending it stops polling, clears the flag and alerts exactly when the flag is set; a timer outliving its finished attempt changes nothing but itself, so it cannot end or alert on a later attempt |
| Poll.Started | app/page.tsx:84-86 | a new poller is pending, in progress, with no query made and the deadline armed |
| Poll.TerminalIsAbsorbing | app/page.tsx:98-128 | after success, failure or the deadline no event changes the phase or the result, and no query is made |
| Poll.NoQueryAfterTerminal | app/page.tsx:98-128 | once a prefix of events has ended polling, the remaining events make no query and keep the phase |
| Poll.TimeoutReportedAtMostOnce | app/page.tsx:133-139 | over any run of events at most one timeout alert is raised |
| Poll.TimeoutReportedOnceWhenCaptured | app/page.tsx:133-139 | with the captured flag set, a run that reaches the deadline raises exactly one timeout alert |
| Poll.TimeoutAlertsNeverGrow | app/page.tsx:133-139 | after the deadline has fired no timeout alert is added |
| Poll.StaleFlagLeavesTryOnInProgress | app/page.tsx:133-139 | with the flag captured while idle, a deadline on an unfinished job leaves the page in progress whatever follows |
| Poll.TimedOutKeepsFlag | app/page.tsx:133-139 | a stopped poller whose deadline has fired never clears the flag again |
| Poll.LiveTimeoutEndsAttempt | app/page.tsx:133-139 | the intended timeout on an attempt in progress ends it, stops polling and alerts once |
| Poll.LiveTimeoutSparesLaterAttempt | app/page.tsx:131-139 | the intended timeout of an attempt whose polling has already ended leaves the flag, the result and the alerts as they were, since the page never cancels the timer |
| Poll.ThirdPollSucceeds | app/page.tsx:105-119 | two "processing" answers then a "completed" one with an inline image show that image after exactly three queries |
| Poll.UpperCaseFailureKeepsPolling | app/page.tsx:120 | "FAILED" does not match the failure test and keeps polling |
| Page.TryOnRequestFor | app/page.tsx:69-77 | the posted `userImage` is the photo's second comma field and `garmentImageUrl` the product image URL or "" |
| Page.TryOnDemo.constructor | app/page.tsx:30-36 | the page starts with an empty query, no results, no selection, no photo, no result, and both flags off |
| Page.TryOnDemo.SearchProducts | app/page.tsx:39-60 | a blank query does nothing; otherwise one search with limit 6 whose products replace the list, or a failure alert; the searching flag ends off; the query, selection, photo and try-on state are kept |
| Page.TryOnDemo.TryOnItem | app/page.tsx:63-163 | without a product and a truthy photo nothing happens; otherwise the request is posted and the dispatched answer starts a poller for the returned event id, holding the flag as it was on entry and with no status query sent yet, shows a result, leaves the flag on, or alerts and clears it; the search and the inputs are kept |
| Page.TryOnDemo.Reset | app/page.tsx:166-170 | the photo, the result and the selection are cleared; the query, the results and the flags are kept |
| Page.Poller.constructor | app/page.tsx:84-86 | a poller starts pending, with no query and the deadline armed, for its page and event id |
| Page.Poller.Tick | app/page.tsx:86-130 | the poller and page state after a tick is exactly the tick step of the state before; a tick while pending records one status query for the poller's own event id and a later tick records none; the page's inputs are kept |
| Page.Poller.Timeout | app/page.tsx:133-139 | the state after the timeout is exactly the as-written timeout step with the captured flag; no status query is sent; the page's inputs are kept |
| Page.Poller.TimeoutAsIntended | app/page.tsx:133-139 | the state after the timeout is exactly the intended timeout step reading the live flag |
| Page.ResetLeavesPollerRunning | app/page.tsx:166-170 | `reset` does not stop a running poller: a later media answer shows its result on the cleared page |
| Flows.PhotoWithoutCommaRejected | app/page.tsx:69-78 | a photo without a comma sends no `userImage`, and `/api/tryon` answers 400 with no call |
| Flows.PhotoDataIsUploaded | app/page.tsx:69-78 | for a data URL `<header>,<data>` the endpoint uploads exactly the data, then asks for that product's image to be tried on |
| Flows.PageReads | app/api/tryon-status/route.ts:46-51 | the page sees the provider's status unchanged and the camelCase-or-snake_case media and image |
| Flows.EmptyCamelListShadowsSnake | app/api/tryon-status/route.ts:49 | an empty `mediaUrls` hides a non-empty `media_urls`, and a reply otherwise in progress keeps the poller waiting |
| Flows.SnakeCaseMediaShown | app/api/tryon-status/route.ts:49 | without `mediaUrls` the first `media_urls` entry is shown |
| PosixPath.Join | sam2-triton-deploy/models/sam2/1/model.py:60 | `Path(a) / b`: an absolute `b` replaces `a`; otherwise `b` is added after one "/" |
| PosixPath.Normalize | sam2-triton-deploy/models/sam2/1/model.py:78-81 | `str(Path(p))`; its contract is the NormalizeClean and UnderSegments rows |
| PosixPath.NormalizeClean | sam2-triton-deploy/models/sam2/1/model.py:78 | `str(Path(p))` of an absolute path made of plain segments is the path itself |
| PosixPath.UnderSegments | sam2-triton-deploy/models/sam2/1/model.py:60 | two plain segments joined under an absolute path of segments give that path, "/", the first, "/", the second, already normal |
| Sam2Model.StripYaml | sam2-triton-deploy/models/sam2/1/model.py:53 | one trailing ".yaml" is removed (the result plus ".yaml" is the token); a token without it is kept |
| Sam2Model.Group | sam2-triton-deploy/models/sam2/1/model.py:68-73 | a "sam2.1_" name goes under "sam2.1/", else a "sam2_" name under "sam2/", else it is kept |
| Sam2Model.UnderConfigRoot | sam2-triton-deploy/models/sam2/1/model.py:60 | a subdirectory and file name under `/opt/sam2/sam2/configs` give exactly `/opt/sam2/sam2/configs/<sub>/<file>` |
| Sam2Model.PlainTokenPath | sam2-triton-deploy/models/sam2/1/model.py:52-60 | a token without "/" gives `/opt/sam2/sam2/configs/<subdir>/<stripped token>.yaml`, subdir "sam2.1" for a "sam2.1_" name and "sam2" otherwise |
| Sam2Model.AbsoluteTokenPath | sam2-triton-deploy/models/sam2/1/model.py:52-60 | an absolute token replaces the configs directory: the path is the stripped token plus ".yaml", normalised |
| Sam2Model.CfgPathFromToken | sam2-triton-deploy/models/sam2/1/model.py:52-60 | `_cfg_path_from_token` as the string `str()` gives; its contract is the UnderConfigRoot, PlainTokenPath and AbsoluteTokenPath rows |
| Sam2Model.Aliased | sam2-triton-deploy/models/sam2/1/model.py:66-67 | the alias rewrites in the code's order; its contract is the AliasFreeName and BasePlusAlias rows |
| Sam2Model.NormalizeName | sam2-triton-deploy/models/sam2/1/model.py:63-73 | `_normalize_name`; its contract is the AliasFreeName and BasePlusAlias rows |
| Sam2Model.AliasFreeName | sam2-triton-deploy/models/sam2/1/model.py:63-73 | a name holding none of the alias words is not rewritten, and its normal name is the name with one trailing ".yaml" removed, put under its group; this holds for names ending in ".yaml" too |
| Sam2Model.BasePlusAlias | sam2-triton-deploy/models/sam2/1/model.py:66-67 | "sam2.1_hiera_base-plus.yaml" normalises to "sam2.1/sam2.1_hiera_b+": the hyphenated spelling is rewritten first, so the last rewrite reaches it |
| Sam2Model.CandidateList | sam2-triton-deploy/models/sam2/1/model.py:75-90 | 2 to 4 candidates in order: the file (when found), the constructed path, the normalised name, and "configs/" plus that name exactly when it is grouped |
| Sam2Model.CfgCandidates | sam2-triton-deploy/models/sam2/1/model.py:75-90 | the list `cfg_candidates` ends up as; its contract is the CandidateList, PlainSam2Name and DefaultCandidates rows |
| Sam2Model.AppendCandidates | sam2-triton-deploy/models/sam2/1/model.py:75-90 | the appends build exactly that list |
| Sam2Model.PlainSam2Name | sam2-triton-deploy/models/sam2/1/model.py:75-90 | a "sam2_" setting without "/", ".yaml" or any of the alias words gives three candidates: its file in the "sam2" configs directory, "sam2/<setting>" and "configs/sam2/<setting>" |
| Sam2Model.DefaultCandidates | sam2-triton-deploy/models/sam2/1/model.py:46-90 | the default "sam2_hiera_l" gives exactly `/opt/sam2/sam2/configs/sam2/sam2_hiera_l.yaml`, `sam2/sam2_hiera_l`, `configs/sam2/sam2_hiera_l`, whether or not such a file exists |
| Sam2Model.FirstLoadable | sam2-triton-deploy/models/sam2/1/model.py:99-105 | the index found is the first whose build succeeds, every earlier one failing; none exactly when every build fails |
| Sam2Model.LoadFirst | sam2-triton-deploy/models/sam2/1/model.py:99-105 | the loop loads the first candidate that builds; when none builds it keeps the last candidate's error |
| Sam2Model.LoadPredictor | sam2-triton-deploy/models/sam2/1/model.py:75-110 | a predictor exactly when there is no error; all builds failing gives the last candidate's error (never the fallback, as the list is never empty); a wrapper error is kept; otherwise the predictor wraps the first loadable network |
| Sam2Model.Setting | sam2-triton-deploy/models/sam2/1/model.py:46-50 | `os.environ.get(name, default)`; its contract is the Initialize row |
| Sam2Model.TritonModel.Initialize | sam2-triton-deploy/models/sam2/1/model.py:28-113 | the model name defaults to "sam2"; available exactly when a predictor is set, and then no error; an import error leaves stub mode with that error; otherwise as the loading above, reading `SAM2_MODEL_CFG` and `SAM2_CHECKPOINT` with their defaults |
| Sam2Model.PromptArgsOf | sam2-triton-deploy/models/sam2/1/model.py:154-175 | a prompt that is not a dictionary, or a point that is not one, raises; coordinates and labels are absent exactly for no points and otherwise one per point with x and y defaulting to 0 and the label to 1; a box is passed exactly when "boxes" has exactly 4 entries |
| Sam2Model.CollectPoints | sam2-triton-deploy/models/sam2/1/model.py:159-166 | the loop fails exactly when a point is not a dictionary; otherwise one coordinate pair and one label per point with the defaults |
| Sam2Model.TritonModel.Respond | sam2-triton-deploy/models/sam2/1/model.py:118-231 | a missing input is an error; stub mode echoes the image text length and the prompt text with mask format "none"; an inference result needs the predictor, reports the image length and the prompt used (empty points and boxes for text that is not JSON) and a PNG mask; the "message" field says "sam2 inference" or names stub mode accordingly; a misshaped prompt is an error exactly then; a decode or predict error becomes an error response carrying its message; a successful prediction gives its scores and its PNG mask data |
| Sam2Model.TritonModel.RespondTo | sam2-triton-deploy/models/sam2/1/model.py:118-231 | the step-by-step body of the loop gives exactly that answer |
| Sam2Model.TritonModel.Execute | sam2-triton-deploy/models/sam2/1/model.py:115-233 | exactly one response per request, in order, each depending only on its own request |
| Sam2Model.StubModeEchoesInputs | sam2-triton-deploy/models/sam2/1/model.py:210-222 | a model in stub mode answers every request with both inputs by a stub naming its load error |

## Left out

- The HTTP transport, the provider SDK, and the image host and try-on provider themselves. Each upstream call is an abstract outcome (`Upstream`).
- Real time: the 2-second and 60-second timers and the `Date.now` upload expiry. Ticks and the timeout are events.
- React rendering, `console` output and the text of `alert`s. Alerts are recorded as values.
- JSON parsing: what the parser yields, or that it fails, is an input.
- Base64 decoding and encoding, PIL and numpy conversions, torch and device selection, mask PNG encoding, and `_first_str`'s handling of numpy element types. Tensors are given as their first string.
- `Path.is_file`, which is a boolean parameter.
- Concurrency: polls still in flight when another tick or the timeout fires are not modelled. Each event runs to completion.
- Strings.Lower: folds only the ASCII letters. JavaScript's `toLowerCase` also folds other letters, but no status the page checks needs them.
- Sam2Model.PromptArgsOf: coordinates are numbers or absent. An explicit `null`, `float()` of a string, `int()` truncating a fractional label, and a "points" or "boxes" value that is not a list are not modelled.
- Sam2Model.Failure: the `TritonError` text is kept only for a step that raised with a known message; a prompt that is not a dictionary is the bare `PromptShape`, since its text is whatever Python's exception says.
- Page.Poller.Tick: the event id is put into the status URL without encoding and read back with `searchParams.get` (app/page.tsx:89, app/api/tryon-status/route.ts:7); the model hands the id through unchanged, which holds only for ids without "+", "%", "&" or "#".
- Sam2Model.TritonModel.Initialize: `build_sam2` returning without raising is taken as success, and the device passed to it is not modelled.
- SearchRoute.Post: an explicit `null` limit, which the destructuring default does not replace, is not distinguished from a number.
- camera.tsx and next.config.ts are not part of this model (browser media capture and framework configuration).

## Findings

| source | as written | input that shows it | evidently intended | confidence | as-written member | corrected member |
|---|---|---|---|---|---|---|
| app/page.tsx:133-139 | the timeout callback tests `isTryingOn` as captured when `tryOnItem` began; the button is disabled while the flag is set (app/page.tsx:273), so the captured value is always false | a job that never finishes: on the timeout polling stops, but no alert is raised and the page stays "Generating Try-On..." for good | alert and clear the flag when this poller's attempt is still in progress at the time the timer fires, and leave a later attempt alone | not executed; high | Poll.StaleFlagLeavesTryOnInProgress | Poll.LiveTimeoutEndsAttempt |

The as-written timeout is `Poll.TimeoutStep`, used by `Page.Poller.Timeout`. The corrected one is `Poll.TimeoutStepLive`, used by `Page.Poller.TimeoutAsIntended`. The page model keeps the as-written method as the timer's handler because that is what the page does.
