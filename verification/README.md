# Ardor inspector bridge and remote logger — a verified model

This project models the two stateful components of the Ardor preview app in
Dafny and proves what they promise.

* **The inspector bridge** (`public/synapse.js`) is a script injected into the
  previewed page. It tags elements with `data-ardor-id` identifiers
  `el-1`, `el-2`, … and serialises the body into a tree for the host editor.
  Its inspector mode draws a highlight overlay and selects elements on click.
  It answers the host's `TOGGLE_INSPECTOR`, `HIGHLIGHT_NODE`, `UPDATE_STYLE`
  and `PING` commands. It also forwards console calls, uncaught errors and
  `fetch` results to the host as `ARDOR_BRIDGE` envelopes.
* **The remote logger** (`src/lib/logger.ts`) filters log calls by level and
  prints them as `LEVEL: time - message`. It keeps the newest 100 entries in a
  buffer. It ships batches to the logs API, retrying on 429 or on an exception
  with exponential back-off, and puts a failed batch back into the buffer.

Modules:

* `Js` (js.dfy) holds the JavaScript semantics both programs rely on:
  * truthiness, `||`, property reads;
  * `String(v)`, including `Error.prototype.toString`;
  * decimal rendering of integers, ASCII case mapping, `slice(0, k)`.
* `Dom` (dom.dfy) models the page as a value tree rooted at `document.body`:
  * tag, DOM id, `className`, attributes, inline style, computed style, box and
    rendered text;
  * identity tagging, the serialiser and its specification (`Mirrors`), which
    states the skipped subtrees, child order, lower-cased tags and class text;
  * the identifiers one walk writes: consecutive counter values, in preorder;
  * paths addressing live elements, and the attribute lookup that
    `querySelector('[data-ardor-id="…"]')` performs.
* `Protocol` (protocol.dfy) holds the rest of the bridge's pure code:
  * the outbound envelopes, snapshots and the telemetry records;
  * the inbound filter and action normalisation;
  * the height and overlay arithmetic.
* `Synapse` (synapse.dfy) is the bridge as a class:
  * the body tree, counter, inspector flag, overlay and bound listeners;
  * the list of envelopes posted so far (`outbox`);
  * one method per handler.
* `Logger` (logger.dfy) is the logger: its pure parts, the retry policy as a
  recursive function over the outcomes of successive requests, and the module
  state as the class `RemoteLogger`. `flush()` is split into `BeginFlush`, which
  takes the batch, and `EndFlush`, which settles it. Entries can be logged
  between the two, as they can while the real request is awaited.

Inputs the programs take from the browser are parameters of the model: the
clock, the result of `JSON.stringify`, the result of `fetch`, layout
measurements and the responses of the logs API.

Behaviour where the model follows the code rather than its comments or names:

* The bridge calls `console.log` inside `toggleInspector` and, on an unframed
  page, inside the click handler. Both calls run after the console is patched,
  so each one posts a `CONSOLE_LOG` envelope. The model posts them.
* The start-up message `[Ardor Synapse] Initializing…` is logged before the
  patch, so nothing is posted for it.
* `toggleInspector(enabled)` stores the raw value. Every later test of the flag
  is a truthiness test, so the model stores `Truthy(enabled)`.
* `window.onerror` in the logger prints at ERROR without consulting the console
  filter. It buffers only when ERROR goes remote.
* `flush()` with remote logging switched on but without an API key or service id
  drops the batch. `sendLogs` reports success for it without a request
  (`Logger.SendLogsWithoutCredentials`).

## Model

| member | source | states |
|---|---|---|
| Js.Or | public/synapse.js:270 | the JavaScript `or` of two values is the first when it is truthy and the second otherwise |
| Js.Lower | public/synapse.js:114 | lower-casing keeps the length and maps each character on its own |
| Js.Upper | src/lib/logger.ts:76 | upper-casing keeps the length and maps each character on its own |
| Js.Prefix | public/synapse.js:193 | `slice(0, k)` is the prefix of length `min(length, k)`: the whole string when it is short enough, its first `k` characters otherwise |
| Dom.GeneratedIdInjective | public/synapse.js:44 | identifiers `el-<n>` generated from different counter values differ, so ids issued by the monotone counter are pairwise distinct |
| Dom.EnsureId | public/synapse.js:41-47 | the element ends up carrying the returned identifier; an existing one is returned with element and counter unchanged; otherwise `el-<counter>` is written, the counter grows by one and nothing else about the element changes |
| Dom.EnsureIdStable | public/synapse.js:41-47 | a tagged element keeps its identifier: tagging it again returns the same id and changes neither the element nor the counter |
| Dom.Serialize | public/synapse.js:108-125 | `serialize(el)` as a function of the counter; what it means is stated by Dom.SerializeMirrors, Dom.SerializeOnlyAddsIds, Dom.SerializeStable and Dom.SerializeIds |
| Dom.SerializeAll | public/synapse.js:118-121 | the child loop as a function of the counter; specified by the list lemmas below it |
| Dom.KeptIndices | public/synapse.js:118-121 | the serialised children are exactly the children that are not skipped, in live DOM order |
| Dom.SerializeMirrors | public/synapse.js:108-125 | serialising gives no node exactly for a skipped element (id `ardor-overlay`, `SCRIPT`, `STYLE`); otherwise the node mirrors the tagged tree: its id, the lower-cased tag, the class text (`''` when not a string) and its children in order, with no skipped element at any depth |
| Dom.SerializeAllMirrors | public/synapse.js:118-121 | the child loop keeps one node per kept child, in order, each mirroring that child |
| Dom.SerializeOnlyAddsIds | public/synapse.js:109-124 | serialisation changes the page only by writing `data-ardor-id` on elements that had none; skipped subtrees are untouched; the counter never decreases |
| Dom.SerializeAllOnlyAddsIds | public/synapse.js:118-121 | the same for the walk over a child list |
| Dom.SerializeStable | public/synapse.js:109-124 | serialising the resulting tree again gives the identical tree and ids, writes nothing and advances no counter |
| Dom.SerializeAllStable | public/synapse.js:118-121 | the same for the walk over a child list |
| Dom.FillAt | public/synapse.js:41-47 | after filling, an entry that had an identifier keeps it, and an untagged entry gets `el-<n + number of untagged entries before it>` |
| Dom.FillGeneratedDistinct | public/synapse.js:41-47 | the counter values handed out lie below the final counter and the identifiers they give are pairwise different |
| Dom.SerializeIds | public/synapse.js:108-125 | the identifiers of the serialised tree, in preorder, are the visited elements' identifiers with the untagged ones filled from the counter in order, and the counter ends advanced by exactly the number of untagged visited elements |
| Dom.SerializeAllIds | public/synapse.js:118-121 | the same for the walk over a child list, whose identifiers follow one another in document order |
| Dom.SerializeWritesDistinctIds | public/synapse.js:108-125 | one walk keeps existing identifiers and gives the untagged elements `el-<n>`, `el-<n+1>`, … in preorder, all below the final counter, so no two elements tagged by the walk share an identifier |
| Dom.FindById | public/synapse.js:279 | the lookup by `data-ardor-id` finds the first element in document order that carries that id (every element before it on a preorder walk lacks it), and finds nothing exactly when no element carries it |
| Dom.FindInChildren | public/synapse.js:302 | the lookup over a list of siblings from index i: the first sibling whose subtree carries the id, and within it the first match; nothing exactly when no sibling from i on carries it |
| Protocol.ComputedStyles | public/synapse.js:49-68 | a snapshot carries exactly the fifteen computed-style properties, each with the browser's value |
| Protocol.AttrOr | public/synapse.js:184-185 | an attribute read with a fallback gives the attribute when present and non-empty, the fallback otherwise |
| Protocol.ShortText | public/synapse.js:193 | the snapshot text is the first `min(length, 50)` characters of the element's rendered text, and empty when there is none |
| Protocol.ClickSnapshot | public/synapse.js:189-197 | the click snapshot has the given id, lower-cased tag, normalised class text, the short text, the box size, the fifteen computed styles, the `data-source-file` attribute (`Unknown` when missing or empty) and the `data-source-line` attribute (`0` when missing or empty), so file and line are never empty |
| Protocol.HighlightDiffersFromClick | public/synapse.js:288-296 | the HIGHLIGHT_NODE snapshot equals the click snapshot except that `className` is passed through raw and there is no line number |
| Protocol.HighlightSnapshot | public/synapse.js:288-296 | the HIGHLIGHT_NODE snapshot; it is specified through Protocol.HighlightDiffersFromClick |
| Protocol.ClickSnapshotCloneable | public/synapse.js:186-197 | the click path's ELEMENT_SELECTED can always be posted, since its class is text |
| Protocol.HighlightCloneableIff | public/synapse.js:288-296 | as written, the HIGHLIGHT_NODE ELEMENT_SELECTED can be posted exactly when the target's `className` is a string |
| Protocol.HighlightSnapshotNormalised | public/synapse.js:288-296 | the highlight snapshot with the class normalised as the click path does it is always postable and equals the written one whenever that one can be posted |
| Protocol.NormalisedHighlightMatchesClick | public/synapse.js:186-197 | with the class normalised, the highlight snapshot is the click snapshot without a line number |
| Protocol.SelectedAction | public/synapse.js:263-270 | the filter and `action || legacyType`; specified by Protocol.SelectedActionIsAction |
| Protocol.CssValue | public/synapse.js:304 | the value a style write stores: null clears the property, a string is stored as is, undefined becomes `undefined` |
| Protocol.ParseCommand | public/synapse.js:263-312 | a parsed command's name is the normalised action the switch dispatched on, and its fields are read from `data` when that is truthy and from the message itself otherwise (`enabled`; `id`; `id`, `property` and the style value) |
| Protocol.SelectedActionIsAction | public/synapse.js:263-270 | a message passes the filter exactly when `type` is the control marker or `action` is truthy, and then the normalised action is always `action` itself, so the legacy `type`/`event` fallback never decides |
| Protocol.DispatchOnlyByAction | public/synapse.js:267-311 | a command runs only when `action` names it; a message without the marker and without `action` is ignored; each of the four action names runs its command |
| Protocol.EventFieldIgnored | public/synapse.js:265 | the legacy `event` field never changes what a message does |
| Protocol.ReceiveAsWritten | public/synapse.js:263-267 | the listener as written throws exactly when `event.data` is null or undefined |
| Protocol.NullMessageThrows | public/synapse.js:265 | a posted `null` makes the listener throw |
| Protocol.Receive | public/synapse.js:263-267 | the corrected listener ignores nullish and non-object data and parses an object's fields |
| Protocol.ReceiveAgrees | public/synapse.js:263-312 | the corrected listener never throws and agrees with the written one wherever that one does not throw |
| Protocol.SafeArg | public/synapse.js:136-139 | a console argument that is an object becomes its JSON text, or `[Circular]` when serialisation throws; anything else becomes `String(arg)` |
| Protocol.SafeArgs | public/synapse.js:136 | one string per argument, in order |
| Protocol.FetchUrl | public/synapse.js:151 | a string argument is its own URL, an object gives its `url` property (undefined for a `URL` object), a number or boolean gives undefined, and a missing or null argument throws |
| Protocol.NetworkRecord | public/synapse.js:149-159 | NETWORK_LOG has the URL read from the first argument, the method defaulting to `GET`, the status (or `failed` with the error message) and the elapsed time |
| Protocol.DocumentHeight | public/synapse.js:97-105 | the RESIZE height is the largest of the five measurements and is one of them |
| Protocol.ShownOver | public/synapse.js:76-83 | as written, the shown overlay has the element's size and its fixed-position box is the element's viewport box shifted by the scroll offsets |
| Protocol.ShownAtViewport | public/synapse.js:76-83 | the intended placement: the fixed-position box is the element's viewport box, so it covers the element at any scroll |
| Protocol.ShownOverCoversIff | public/synapse.js:79-80 | the written placement equals the intended one, and covers the element, exactly when both scroll offsets are zero |
| Synapse.Bridge.constructor | public/synapse.js:1-11 | the script starts with counter 1, inspector off, no overlay, no listeners and nothing posted |
| Synapse.Bridge.SendMessage | public/synapse.js:32-38 | posting appends exactly one envelope |
| Synapse.Bridge.EnsureArdorId | public/synapse.js:41-47 | null for null; the existing id and the same counter for a tagged element; otherwise `el-<nextId>` is written and the counter grows by exactly one |
| Synapse.Bridge.SerializeElement | public/synapse.js:109-123 | the recursive walk with its child loop computes exactly the serialisation the specification defines, tagging as it goes |
| Synapse.Bridge.GetSerializedTree | public/synapse.js:108-125 | the tree of the body is posted as specified, the body tagged in place, and the tree mirrors the page; only identifiers are added |
| Synapse.Bridge.SendDOMTree | public/synapse.js:127-129 | one DOM_TREE_UPDATE carrying the serialised body |
| Synapse.Bridge.CreateOverlay | public/synapse.js:13-29 | the overlay is created hidden on the first call; later calls change nothing |
| Synapse.Bridge.UpdateOverlayPosition | public/synapse.js:70-84 | no element hides the overlay; an element gives the fixed-position box its viewport box plus the scroll offsets, so the box covers the element only on an unscrolled page |
| Synapse.Bridge.SendHandshake | public/synapse.js:89-94 | one BRIDGE_READY with version 2.3.0 and the six features |
| Synapse.Bridge.SendHeight | public/synapse.js:97-105 | one RESIZE with the document height |
| Synapse.Bridge.OnLoad | public/synapse.js:244-249 | on load: overlay created, then handshake, height and DOM tree, in that order |
| Synapse.Bridge.InspectorLog | public/synapse.js:225 | the inspector's console line is a `log` CONSOLE_LOG of the prefix `[Ardor Bridge] Inspector:` and the rendered argument |
| Synapse.Bridge.ToggleInspector | public/synapse.js:205-226 | on: flag set, crosshair cursor, both capture listeners; off: flag and cursor cleared, overlay hidden, both listeners removed; the console line is posted either way |
| Synapse.Bridge.HandleMouseOver | public/synapse.js:166-172 | nothing while disabled; while enabled propagation stops, body, root and overlay are ignored, and any other element gets the overlay |
| Synapse.Bridge.PeekLog | public/synapse.js:201 | the click handler's console line is a `log` CONSOLE_LOG of `[Ardor Peek]` and the rendered record of tag name, source file and line number |
| Synapse.Bridge.HandleClick | public/synapse.js:174-203 | nothing while disabled or on body, root or overlay; otherwise the default is suppressed, the element tagged, the overlay moved over it and exactly one ELEMENT_SELECTED posted (plus the demo console line when unframed) |
| Synapse.Bridge.HandleKeyDown | public/synapse.js:252-256 | Escape while enabled reaches the disabled state; any other key changes nothing |
| Synapse.Bridge.HighlightById | public/synapse.js:277-298 | the first element carrying the id gets the overlay; for an element whose `className` is a string one ELEMENT_SELECTED with the highlight snapshot is posted; for an SVG element posting throws a DataCloneError and the bridge's `error` listener posts `Uncaught: …` instead; the page and counter are unchanged; an unknown id changes nothing |
| Synapse.Bridge.UpdateStyleById | public/synapse.js:300-307 | the first element carrying the id gets exactly that inline property, and the overlay moves over it; nothing else in the page changes; an unknown id changes nothing |
| Synapse.Bridge.HandleMessage | public/synapse.js:262-313 | ignored messages and unknown actions change nothing; TOGGLE_INSPECTOR switches the inspector as ToggleInspector does, creating the overlay hidden if it is missing and otherwise leaving it as it is when enabling; HIGHLIGHT_NODE and UPDATE_STYLE with an unknown id change nothing and post nothing; HIGHLIGHT_NODE moves the overlay and posts one ELEMENT_SELECTED, or on an SVG element the `Uncaught: …` line of the thrown DataCloneError; UPDATE_STYLE sets exactly that inline property; PING posts exactly one BRIDGE_READY |
| Synapse.Bridge.ConsoleCall | public/synapse.js:133-143 | a patched console call posts one CONSOLE_LOG with the method's level and every argument rendered |
| Synapse.Bridge.OnWindowError | public/synapse.js:145 | an uncaught error posts `Uncaught: <message>` and `@ <file>:<line>` at level error |
| Synapse.Bridge.OnUnhandledRejection | public/synapse.js:146 | an unhandled rejection posts `Unhandled Rejection: <reason>` at level error |
| Synapse.Bridge.Fetch | public/synapse.js:148-161 | when the URL can be read the caller gets the real settlement unchanged, rejection included, and exactly one NETWORK_LOG is posted; without a first argument the call rejects before the real `fetch` and posts nothing |
| Logger.LevelTables | src/lib/logger.ts:31-52 | the ranking is a strict order, the API mapping is one-to-one and never yields `critical`, WARN maps to `warning` and is displayed as `WARNING` |
| Logger.Rank | src/lib/logger.ts:31-36 | the level ranking DEBUG < INFO < WARN < ERROR; Logger.LevelTables proves it strict |
| Logger.Display | src/lib/logger.ts:39-44 | the console display names; Logger.LevelTables and Logger.FormatMessageRoundTrip use them |
| Logger.ApiLevel | src/lib/logger.ts:47-52 | the API level of each level; Logger.LevelTables proves it one-to-one |
| Logger.ParseRemoteLevel | src/lib/logger.ts:76-80 | the remote level is the upper-cased setting when it names a level, and ERROR otherwise |
| Logger.ParseRemoteLevelOfName | src/lib/logger.ts:76-80 | every level name, in any letter case, is read as that level |
| Logger.ParseRemoteLevelDefault | src/lib/logger.ts:76 | an unset remote level means ERROR |
| Logger.ShouldLog | src/lib/logger.ts:148-151 | the console filter; Logger.FiltersAreThresholds states it |
| Logger.ShouldLogRemote | src/lib/logger.ts:156-159 | the remote filter; Logger.FiltersAreThresholds states it |
| Logger.FiltersAreThresholds | src/lib/logger.ts:148-159 | each filter lets through exactly the levels at or above its minimum while it is on, and nothing while it is off |
| Logger.ArgText | src/lib/logger.ts:126-134 | strings verbatim, errors as `name: message`, objects as JSON or `String(arg)` when that throws, `undefined` as empty text |
| Logger.Pieces | src/lib/logger.ts:125-134 | one text per argument, in order |
| Logger.SplitJoin | src/lib/logger.ts:135 | joining with single spaces is undone by splitting at spaces when the pieces have none |
| Logger.ArgsToMessage | src/lib/logger.ts:124-136 | the rendered arguments joined with single spaces; Logger.ArgsToMessageRoundTrip states it |
| Logger.ArgsToMessageRoundTrip | src/lib/logger.ts:124-136 | the message is the arguments' texts in order, separated by single spaces |
| Logger.FullMessage | src/lib/logger.ts:398 | the message of a `logger.*` call; Logger.FullMessageIsJoin states it |
| Logger.FullMessageIsJoin | src/lib/logger.ts:398 | `logger.*` treats its message as the first piece of the same space-joined text, and uses it alone when there are no extra arguments |
| Logger.ParseStampedRoundTrip | src/lib/logger.ts:142 | the ` - ` separator after a space-free timestamp is found again |
| Logger.ParseLineAfterLevel | src/lib/logger.ts:142 | the `<display>: ` head of a line is found again |
| Logger.FormatMessage | src/lib/logger.ts:141-143 | the console line `<display>: <time> - <message>`; Logger.FormatMessageRoundTrip states it |
| Logger.FormatMessageRoundTrip | src/lib/logger.ts:141-143 | a console line `<display>: <time> - <message>` gives back level, time and message |
| Logger.GetLogsEndpoint | src/lib/logger.ts:186-196 | the endpoint is base URL, `/solutions-api` and the API path when a base URL is set, and the proxy path followed by the API path otherwise |
| Logger.EndpointDeterminesService | src/lib/logger.ts:186-196 | different service ids never share an endpoint |
| Logger.SliceFromEnd | src/lib/logger.ts:177 | `slice(-k)` keeps the last k elements, and everything when k is 0 or the array is short |
| Logger.SliceFromEndNewest | src/lib/logger.ts:175-178 | with a positive bound, the result is the newest `min(length, bound)` elements in their original order |
| Logger.SendLogs | src/lib/logger.ts:201-234 | no request and success for an empty batch or missing credentials; otherwise one wait between consecutive requests and at most `maxRetries + 1` requests |
| Logger.SendLogsDelayAt | src/lib/logger.ts:218-230 | wait i follows a 429 or an exception of request i while retries were left and lasts `retryBaseDelay * 2^(retryCount + i)` |
| Logger.SendLogsLastOutcome | src/lib/logger.ts:214-233 | the result is true exactly when the last request answered 204; a failed send ends on another status or with the retries used up |
| Logger.SendLogsPolicy | src/lib/logger.ts:214-233 | every wait follows the policy and the send ends as Logger.SendLogsLastOutcome states |
| Logger.SendLogsWaits | src/lib/logger.ts:218-230 | with the default settings a batch is tried at most four times, waiting 1 s, 2 s and 4 s |
| Logger.SendLogsWithoutCredentials | src/lib/logger.ts:202 | without an API key the batch is reported sent although no request is made |
| Logger.RemoteLogger.constructor | src/lib/logger.ts:56-91 | the settings come from the build configuration with their defaults; remote logging starts on exactly when key and service id are set; the interval runs exactly then |
| Logger.RemoteLogger.AddToBuffer | src/lib/logger.ts:164-179 | nothing unless the level goes remote; otherwise one entry with the mapped API level is appended and the buffer is the newest entries, at most 100, in order |
| Logger.RemoteLogger.Emit | src/lib/logger.ts:396-402 | a level that passes the console filter is printed formatted and offered to the buffer; otherwise nothing happens |
| Logger.RemoteLogger.Log | src/lib/logger.ts:396-426 | `logger.*` prints and buffers the full message at its level |
| Logger.RemoteLogger.ConsoleCall | src/lib/logger.ts:339-378 | a patched console call prints and buffers the rendered arguments at the method's level (`log` is INFO); a level that does not go remote leaves the buffer alone; after restoring, the logger sees nothing |
| Logger.RemoteLogger.RestoreConsole | src/lib/logger.ts:384-390 | the native console methods are back |
| Logger.UncaughtText | src/lib/logger.ts:304-309 | the `window.onerror` text; Logger.RemoteLogger.OnUncaughtError states what is printed and buffered |
| Logger.ReasonText | src/lib/logger.ts:315-317 | the rejection reason text; Logger.RemoteLogger.OnUnhandledRejection states what is printed and buffered |
| Logger.RemoteLogger.OnUncaughtError | src/lib/logger.ts:304-312 | prints `Uncaught error: …` at ERROR, with ` at source:line:col` when a source is known, and buffers it |
| Logger.RemoteLogger.OnUnhandledRejection | src/lib/logger.ts:314-321 | prints `Unhandled promise rejection: …` at ERROR and buffers it |
| Logger.RemoteLogger.BeginFlush | src/lib/logger.ts:239-245 | nothing when the buffer is empty or a flush is in progress; otherwise the whole buffer becomes the batch, the buffer is empty and the flag is set |
| Logger.RemoteLogger.EndFlush | src/lib/logger.ts:246-254 | success leaves only the entries added meanwhile; failure puts the batch back ahead of them, trimmed to the newest 100, and warns; the flag is cleared |
| Logger.RemoteLogger.Flush | src/lib/logger.ts:239-255 | a flush without interleaved logging empties the buffer on success and restores it whole on failure |
| Logger.RemoteLogger.FlushSync | src/lib/logger.ts:260-275 | with entries and credentials, one beacon carries the whole buffer to the endpoint with the key in the query and the buffer is emptied; otherwise nothing |
| Logger.RemoteLogger.StartFlushTimer | src/lib/logger.ts:280-286 | installs the interval, once |
| Logger.RemoteLogger.StopFlushTimer | src/lib/logger.ts:291-296 | no interval afterwards |
| Logger.RemoteLogger.SetLevel | src/lib/logger.ts:431-433 | only the console minimum changes |
| Logger.RemoteLogger.SetRemoteLevel | src/lib/logger.ts:438-440 | only the remote minimum changes |
| Logger.RemoteLogger.SetEnabled | src/lib/logger.ts:445-447 | only the console switch changes |
| Logger.RemoteLogger.SetRemoteEnabled | src/lib/logger.ts:452-459 | the remote switch changes and the interval runs exactly when it is on |
| Logger.RemoteLogger.GetBufferSize | src/lib/logger.ts:474-476 | the number of buffered entries, never more than 100 |

## Findings

| source | as written | input that shows it | evidently intended | confidence | as-written member | corrected member |
|---|---|---|---|---|---|---|
| public/synapse.js:263-267 | the destructuring falls back to an empty object for a nullish `event.data`, but the legacy fallback then reads `event.data.type`, which throws | `window.postMessage(null, '*')` from any script in the page | the message is ignored, like any other message without `action`; as written the TypeError escapes the listener and reaches the bridge's own `error` listener (line 145), which posts a CONSOLE_LOG `Uncaught: …` to the host | high, not executed | Protocol.ReceiveAsWritten (Protocol.NullMessageThrows) | Protocol.Receive (Protocol.ReceiveAgrees), used by Synapse.Bridge.HandleMessage |
| public/synapse.js:288-296 | the HIGHLIGHT_NODE snapshot passes `target.className` through raw; on an SVG element that is an `SVGAnimatedString`, which `postMessage` (lines 32-36) cannot clone, so it throws a DataCloneError, no ELEMENT_SELECTED reaches the host and the `error` listener (line 145) posts `Uncaught: …` | HIGHLIGHT_NODE with the identifier of an inline `<svg>` icon, which the DOM tree already gave the host | the class normalised to text as the click handler does at line 192, so the element is reported | high, not executed | Synapse.Bridge.HighlightById (Protocol.HighlightCloneableIff) | Protocol.HighlightSnapshotNormalised (Protocol.NormalisedHighlightMatchesClick) |
| public/synapse.js:79-80 | the overlay is `position: fixed` (line 18), so its `top` and `left` are viewport offsets, yet they are set to `rect.top + window.scrollY` and `rect.left + window.scrollX` although `getBoundingClientRect()` is already in viewport coordinates | inspector on, page scrolled down by 300 pixels, pointer over any element: the highlight sits 300 pixels below it | the viewport box as it is, so the highlight covers the element at any scroll | high, not executed | Protocol.ShownOver (Protocol.ShownOverCoversIff) | Protocol.ShownAtViewport (Protocol.ShownOverCoversIff) |

## Left out

- Posting with `postMessage` is modelled by appending to `outbox`. `ResizeObserver`, `MutationObserver`, the intervals (handshake every 3 s, height every 1 s, flush every 5 s), the `load` event and the `ardor-inspector-change` event are left out. They only decide when the modelled handlers run.
- `window.__ARDOR__.toggleInspector` is the same operation as `Synapse.Bridge.ToggleInspector`.
- Geometry is left out. Boxes, scroll offsets and heights are integer inputs rather than floating-point values. `scrollIntoView` is not modelled, so a box is the same before and after scrolling. The box after an inline-style change is taken to be the old one.
- `getComputedStyle` and `innerText` are read from fields of the element record, not computed.
- CSS property and value validation is left out. `UPDATE_STYLE` stores the written string as is.
- The overlay `<div>` is appended to the body but is not a child in the modelled tree. It is always skipped by the serialiser and cannot be a pointer target, since it has `pointer-events: none`.
- The overlay's position while hidden is not retained.
- The `data-ardor-id` lookup searches the body only, not `<head>` or `<html>`. Identifiers that would need escaping in an attribute selector are not modelled.
- Elements are values, so tagging and style writes rebuild the body tree along the target's path. Aliasing of DOM nodes is not captured.
- The native console output of both programs is left out. Only what they post, print or buffer is modelled. When both programs patch the console, only one patch is modelled at a time.
- `JSON.stringify` is a parameter. An object whose `toJSON` yields `undefined` is not covered.
- Numbers are integers. Case mapping covers ASCII letters only.
- Strings are sequences of characters, so `slice(0, 50)` cuts after 50 characters; JavaScript cuts after 50 UTF-16 code units, which differs for text outside the Basic Multilingual Plane.
- `Synapse.Bridge.Fetch`: a `URL` object passed to `fetch` is logged with an undefined URL, as the code does; the message text of the TypeError for a missing argument is left out.
- Clocks (`Date.now`, `toISOString`) are parameters.
- The message, script and line the browser reports for the DataCloneError that escapes HIGHLIGHT_NODE on an SVG element are the parameter `report` of `Synapse.Bridge.HandleMessage`.
- Synapse.Bridge.HandleMessage: nullish `event.data` follows the corrected listener `Protocol.Receive` of the Findings table and is ignored, so the model posts no `Uncaught: …` CONSOLE_LOG for the TypeError the code as written throws there.
- Synapse.Bridge.UpdateOverlayPosition places the overlay as the code is written (`Protocol.ShownOver`); the intended placement `Protocol.ShownAtViewport` of the Findings table is stated and proved but is not what the bridge does.
- `Synapse.Bridge.HandleMessage` follows the code as written for HIGHLIGHT_NODE on an SVG element; the normalised snapshot of the Findings table is stated and proved in `Protocol` but is not what the bridge sends.
- `Logger.SendLogs`: the real `fetch`, `setTimeout` back-off and `await` are replaced by the given outcome of each request and the list of waits.
- `Logger.RemoteLogger.Flush`: interleavings other than logging between `BeginFlush` and `EndFlush` are not modelled.
- `navigator.sendBeacon` and `Blob` are replaced by the returned `Beacon` value.
- `Logger.RemoteLogger.constructor`: the `typeof window` guard of the global handlers is not modelled. The handlers are always installed.
- `src/hooks/use-ardor-synapse.ts`, `vite.config.ts`, `src/lib/config.ts`, the pages and the tests are not part of this model.
