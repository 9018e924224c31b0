/** What crosses the window boundary: the messages the bridge posts to the
    host frame, the commands it accepts from it (with the normalisation of the
    `action` field), the element snapshots it sends, the telemetry records, and
    the browser measurements it reads. */
module Protocol {
  import opened Js
  import opened Dom

  const BridgeVersion := "2.3.0"
  const Features: seq<string> := ["AUTO_HEIGHT", "DOM_TREE", "INSPECTOR", "STYLE_EDITING", "CONSOLE", "NETWORK"]
  /** `type` of every posted envelope. */
  const OutboundMarker := "ARDOR_BRIDGE"
  /** `type` of a command envelope from the host. */
  const ControlMarker := "ARDOR_BRIDGE_CONTROL"

  // ---------------------------------------------------------------------------
  // Outbound messages

  datatype Source = Source(fileName: string, lineNumber: Option<string>)

  /** The ELEMENT_SELECTED payload. `className` is what the sender put there:
      normalised text on a click, the raw `className` on a highlight. */
  datatype Snapshot = Snapshot(
    id: string,
    tagName: string,
    className: ClassName,
    innerText: string,
    width: int,
    height: int,
    styles: map<string, string>,
    source: Source)

  datatype NetStatus = HttpStatus(code: int) | Failed

  /** The `data` of each posted envelope, tagged by its `event`. */
  datatype OutboundMessage =
    | BridgeReady(version: string, features: seq<string>)
    | Resize(height: int)
    | DomTreeUpdate(tree: Option<SNode>)
    | ElementSelected(snapshot: Snapshot)
    | ConsoleLog(level: string, timestamp: int, args: seq<string>)
    | NetworkLog(url: JsValue, httpMethod: JsValue, status: NetStatus, duration: int, error: Option<string>)

  function EventName(m: OutboundMessage): string {
    match m
    case BridgeReady(_, _) => "BRIDGE_READY"
    case Resize(_) => "RESIZE"
    case DomTreeUpdate(_) => "DOM_TREE_UPDATE"
    case ElementSelected(_) => "ELEMENT_SELECTED"
    case ConsoleLog(_, _, _) => "CONSOLE_LOG"
    case NetworkLog(_, _, _, _, _) => "NETWORK_LOG"
  }

  /** The handshake payload. */
  const Handshake := BridgeReady(BridgeVersion, Features)

  // ---------------------------------------------------------------------------
  // Element snapshots

  /** The computed-style properties a snapshot carries. */
  const StyleKeys: set<string> := {
    "color", "backgroundColor", "fontSize", "fontWeight", "fontFamily", "padding", "margin",
    "display", "flexDirection", "justifyContent", "alignItems", "width", "height", "border",
    "borderRadius" }

  /** `getComputedStyles(el)`: exactly the fixed properties, each as the browser reports it. */
  function ComputedStyles(e: Element): (r: map<string, string>)
    ensures r.Keys == StyleKeys
    ensures forall k :: k in r && k in e.computed ==> r[k] == e.computed[k]
  {
    map k | k in StyleKeys :: if k in e.computed then e.computed[k] else ""
  }

  /** `el.getAttribute(name) || fallback` */
  function AttrOr(e: Element, name: string, fallback: string): (r: string)
    ensures fallback != "" ==> r != ""
    ensures name in e.attrs && e.attrs[name] != "" ==> r == e.attrs[name]
    ensures !(name in e.attrs && e.attrs[name] != "") ==> r == fallback
  {
    if name in e.attrs && e.attrs[name] != "" then e.attrs[name] else fallback
  }

  /** `el.innerText ? el.innerText.slice(0, 50) : ''` */
  function ShortText(e: Element): (r: string)
    ensures var text := e.innerText.GetOr("");
      && r <= text
      && |r| == if |text| <= 50 then |text| else 50
  {
    Prefix(e.innerText.GetOr(""), 50)
  }

  /** The snapshot a click sends: class text normalised, both source fields present. */
  function ClickSnapshot(e: Element, id: string): (r: Snapshot)
    ensures r.id == id && r.tagName == Lower(e.tag)
    ensures r.className == ClassText(ClassNameText(e.className))
    ensures r.innerText == ShortText(e) && |r.innerText| <= 50
    ensures r.width == e.rect.width && r.height == e.rect.height
    ensures r.styles == ComputedStyles(e) && r.styles.Keys == StyleKeys
    ensures r.source.fileName == AttrOr(e, SourceFileAttr, "Unknown")
    ensures r.source.lineNumber == Some(AttrOr(e, SourceLineAttr, "0"))
    ensures r.source.fileName != "" && r.source.lineNumber.value != ""
  {
    Snapshot(id, Lower(e.tag), ClassText(ClassNameText(e.className)), ShortText(e),
             e.rect.width, e.rect.height, ComputedStyles(e),
             Source(AttrOr(e, SourceFileAttr, "Unknown"), Some(AttrOr(e, SourceLineAttr, "0"))))
  }

  /** The snapshot HIGHLIGHT_NODE sends: `className` raw, no line number. */
  function HighlightSnapshot(e: Element, id: string): Snapshot {
    Snapshot(id, Lower(e.tag), e.className, ShortText(e),
             e.rect.width, e.rect.height, ComputedStyles(e),
             Source(AttrOr(e, SourceFileAttr, "Unknown"), None))
  }

  /** The two selection paths send the same snapshot except that the highlight
      path passes `className` through unnormalised and leaves out the line
      number; on an element whose `className` is a string only the line
      number differs. */
  lemma HighlightDiffersFromClick(e: Element, id: string)
    ensures HighlightSnapshot(e, id)
      == ClickSnapshot(e, id).(className := e.className,
                               source := Source(ClickSnapshot(e, id).source.fileName, None))
    ensures e.className.ClassText? ==> HighlightSnapshot(e, id).className == ClickSnapshot(e, id).className
    ensures HighlightSnapshot(e, id).source.lineNumber.None?
  {
  }

  /** Whether `window.parent.postMessage` can structured-clone the envelope.
      Every payload is plain data except a snapshot's `className`, which on
      an SVG element is an `SVGAnimatedString`, a platform object the clone
      refuses with a DataCloneError. */
  predicate Cloneable(m: OutboundMessage) {
    !(m.ElementSelected? && m.snapshot.className.ClassObject?)
  }

  /** The click path always posts: its snapshot carries the class as text. */
  lemma ClickSnapshotCloneable(e: Element, id: string)
    ensures Cloneable(ElementSelected(ClickSnapshot(e, id)))
  {
  }

  /** As written, the HIGHLIGHT_NODE snapshot can be posted exactly when the
      target's `className` is a string: for an SVG target the post throws. */
  lemma HighlightCloneableIff(e: Element, id: string)
    ensures Cloneable(ElementSelected(HighlightSnapshot(e, id))) <==> e.className.ClassText?
  {
  }

  /** The HIGHLIGHT_NODE snapshot with `className` normalised as the click
      path normalises it: always postable, and the same snapshot as written
      whenever that one can be posted. */
  function HighlightSnapshotNormalised(e: Element, id: string): (r: Snapshot)
    ensures r.className == ClassText(ClassNameText(e.className))
    ensures Cloneable(ElementSelected(r))
    ensures e.className.ClassText? ==> r == HighlightSnapshot(e, id)
  {
    HighlightSnapshot(e, id).(className := ClassText(ClassNameText(e.className)))
  }

  /** With the class normalised, the two selection paths differ only in the
      missing line number. */
  lemma NormalisedHighlightMatchesClick(e: Element, id: string)
    ensures HighlightSnapshotNormalised(e, id)
      == ClickSnapshot(e, id).(source := Source(ClickSnapshot(e, id).source.fileName, None))
  {
  }

  // ---------------------------------------------------------------------------
  // Inbound commands

  /** An inbound `event.data`: the properties of the posted object. */
  type InboundMessage = map<string, JsValue>

  function Field(msg: InboundMessage, key: string): JsValue {
    Get(Obj(msg), key)
  }

  /** `safeAction`, or None when the message is dropped at the filter:
      `legacyType` is the `type`/`event` fallback, `action || legacyType` the
      normalised action. */
  function SelectedAction(msg: InboundMessage): Option<JsValue> {
    var kind := Field(msg, "type");
    var action := Field(msg, "action");
    var legacyType := if kind == Str(ControlMarker) then action else Or(kind, Field(msg, "event"));
    if kind != Str(ControlMarker) && !Truthy(action) then None
    else Some(Or(action, legacyType))
  }

  datatype Command =
    | ToggleInspector(enabled: JsValue)
    | HighlightNode(id: string)
    | UpdateStyle(id: string, property: string, value: string)
    | Ping

  function ActionName(c: Command): string {
    match c
    case ToggleInspector(_) => "TOGGLE_INSPECTOR"
    case HighlightNode(_) => "HIGHLIGHT_NODE"
    case UpdateStyle(_, _, _) => "UPDATE_STYLE"
    case Ping => "PING"
  }

  /** The value written by `style[property] = value`: null clears the property. */
  function CssValue(v: JsValue): (r: string)
    ensures v.Null? ==> r == ""
    ensures v.Str? ==> r == v.s
    ensures v.Undefined? ==> r == "undefined"
  {
    if v == Null then "" else JsToString(v)
  }

  /** The `message` listener up to its `switch`: None when the message is
      ignored (dropped at the filter or an action the switch does not know).
      Payload fields come from `data` when it is truthy, else from the message
      itself; the looked-up identifier is the field's string form, as the
      selector template makes it. */
  function ParseCommand(msg: InboundMessage): (r: Option<Command>)
    ensures r.Some? ==> SelectedAction(msg) == Some(Str(ActionName(r.value)))
    ensures r.Some? ==>
      var payload := if Truthy(Field(msg, "data")) then Field(msg, "data") else Obj(msg);
      match r.value
      case ToggleInspector(enabled) => enabled == Get(payload, "enabled")
      case HighlightNode(id) => id == JsToString(Get(payload, "id"))
      case UpdateStyle(id, property, value) =>
        && id == JsToString(Get(payload, "id"))
        && property == JsToString(Get(payload, "property"))
        && value == CssValue(Get(payload, "value"))
      case Ping => true
  {
    match SelectedAction(msg)
    case None => None
    case Some(a) =>
      var data := Field(msg, "data");
      var payload := if Truthy(data) then data else Obj(msg);
      if a == Str("TOGGLE_INSPECTOR") then Some(ToggleInspector(Get(payload, "enabled")))
      else if a == Str("HIGHLIGHT_NODE") then Some(HighlightNode(JsToString(Get(payload, "id"))))
      else if a == Str("UPDATE_STYLE") then
        Some(UpdateStyle(JsToString(Get(payload, "id")), JsToString(Get(payload, "property")),
                         CssValue(Get(payload, "value"))))
      else if a == Str("PING") then Some(Ping)
      else None
  }

  /** Whenever a message gets past the filter, the normalised action is the
      message's own `action`: `action || legacyType` never falls through to
      the legacy `type`/`event` value. */
  lemma SelectedActionIsAction(msg: InboundMessage)
    ensures SelectedAction(msg).Some? ==> SelectedAction(msg).value == Field(msg, "action")
    ensures SelectedAction(msg).Some? <==>
      Field(msg, "type") == Str(ControlMarker) || Truthy(Field(msg, "action"))
  {
  }

  /** A command is carried out exactly when `action` names it; neither a
      message without the control marker and without `action` nor a legacy
      shape (`type`/`event` naming the command) is ever dispatched. */
  lemma DispatchOnlyByAction(msg: InboundMessage)
    ensures ParseCommand(msg).Some? ==> Field(msg, "action") == Str(ActionName(ParseCommand(msg).value))
    ensures ParseCommand(msg).Some? ==> Field(msg, "type") == Str(ControlMarker) || Truthy(Field(msg, "action"))
    ensures Field(msg, "action") in {Str("TOGGLE_INSPECTOR"), Str("HIGHLIGHT_NODE"), Str("UPDATE_STYLE"), Str("PING")}
            ==> ParseCommand(msg).Some?
  {
    SelectedActionIsAction(msg);
  }

  /** The legacy `event` field never changes what a message does. */
  lemma EventFieldIgnored(msg: InboundMessage, v: JsValue)
    ensures ParseCommand(msg["event" := v]) == ParseCommand(msg)
  {
    var msg' := msg["event" := v];
    assert forall k :: k != "event" ==> Field(msg', k) == Field(msg, k);
    SelectedActionIsAction(msg);
    SelectedActionIsAction(msg');
  }

  /** What the `message` listener does with a posted value `event.data`:
      throws, or reaches the switch with a command (None: ignored). */
  datatype Reception = Throws | Handled(command: Option<Command>)

  /** The properties a posted value exposes to the listener: its own fields
      for an object, none of the ones read for any other value. */
  function Fields(data: JsValue): InboundMessage {
    if data.Obj? then data.fields else map[]
  }

  /** The listener as written: the destructuring guards a nullish
      `event.data` with `|| {}`, but the legacy fallback then reads
      `event.data.type` directly, which throws on null or undefined. */
  function ReceiveAsWritten(data: JsValue): (r: Reception)
    ensures r == Throws <==> data.Null? || data.Undefined?
  {
    if data.Null? || data.Undefined? then Throws else Handled(ParseCommand(Fields(data)))
  }

  /** A `postMessage(null)` from any other script in the page makes the
      listener throw instead of ignoring the message. */
  lemma NullMessageThrows()
    ensures ReceiveAsWritten(Null) == Throws
  {
  }

  /** The listener as evidently intended: a nullish `event.data` is ignored
      like any other value without an `action`. */
  function Receive(data: JsValue): (r: Option<Command>)
    ensures data.Null? || data.Undefined? ==> r == None
    ensures data.Obj? ==> r == ParseCommand(data.fields)
    ensures r.Some? ==> data.Obj?
  {
    if data.Obj? then ParseCommand(data.fields) else None
  }

  /** The corrected listener never throws and does exactly what the written
      one does wherever that one does not throw. */
  lemma ReceiveAgrees(data: JsValue)
    ensures ReceiveAsWritten(data).Handled? ==> ReceiveAsWritten(data).command == Receive(data)
    ensures ReceiveAsWritten(data) == Throws ==> Receive(data) == None
  {
    if !data.Obj? && !data.Null? && !data.Undefined? {
      assert Fields(data) == map[];
      assert Field(map[], "type") == Undefined && Field(map[], "action") == Undefined;
    }
  }

  // ---------------------------------------------------------------------------
  // Telemetry

  /** One console argument as CONSOLE_LOG carries it: objects through
      `JSON.stringify` (`json`, None when it throws), everything else through
      `String`. */
  function SafeArg(arg: JsValue, json: JsValue -> Option<string>): (r: string)
    ensures (arg.Obj? || arg.ErrorValue?) && json(arg).Some? ==> r == json(arg).value
    ensures (arg.Obj? || arg.ErrorValue?) && json(arg).None? ==> r == "[Circular]"
    ensures !(arg.Obj? || arg.ErrorValue?) ==> r == JsToString(arg)
  {
    if arg.Obj? || arg.ErrorValue? then
      match json(arg)
      case Some(text) => text
      case None => "[Circular]"
    else JsToString(arg)
  }

  /** `args.map(...)`: one string per argument, in order. */
  function SafeArgs(args: seq<JsValue>, json: JsValue -> Option<string>): (r: seq<string>)
    ensures |r| == |args|
    ensures forall i :: 0 <= i < |args| ==> r[i] == SafeArg(args[i], json)
  {
    seq(|args|, i requires 0 <= i < |args| => SafeArg(args[i], json))
  }

  /** `typeof args[0] === 'string' ? args[0] : args[0].url`, where `input`
      is the first argument (Undefined when there is none): a string is its
      own URL; a `Request` (an object with a `url`) gives that URL; any other
      object, a `URL` among them, gives undefined; reading `url` of null or
      undefined throws, which is None. */
  function FetchUrl(input: JsValue): (r: Option<JsValue>)
    ensures r.None? <==> input.Null? || input.Undefined?
    ensures input.Str? ==> r == Some(input)
    ensures input.Obj? ==> r == Some(if "url" in input.fields then input.fields["url"] else Undefined)
    ensures input.Bool? || input.Num? ==> r == Some(Undefined)
  {
    if input.Str? then Some(input)
    else if input.Null? || input.Undefined? then None
    else Some(Get(input, "url"))
  }

  /** How the wrapped `fetch` settles: a response, or a rejection with an error. */
  datatype FetchSettlement = Resolved(status: int) | Rejected(name: string, message: string)

  /** The NETWORK_LOG record for one call: method from the init object
      (`'GET'` when absent or falsy), the status or `'failed'` with the error
      message, and the elapsed time. */
  function NetworkRecord(url: JsValue, init: JsValue, outcome: FetchSettlement, start: int, end: int): (m: OutboundMessage)
    ensures m.NetworkLog? && m.url == url && m.duration == end - start
    ensures !Truthy(Get(init, "method")) ==> m.httpMethod == Str("GET")
    ensures Truthy(Get(init, "method")) ==> m.httpMethod == Get(init, "method")
    ensures outcome.Resolved? ==> m.status == HttpStatus(outcome.status) && m.error == None
    ensures outcome.Rejected? ==> m.status == Failed && m.error == Some(outcome.message)
  {
    var httpMethod := Or(Get(init, "method"), Str("GET"));
    match outcome
    case Resolved(status) => NetworkLog(url, httpMethod, HttpStatus(status), end - start, None)
    case Rejected(_, message) => NetworkLog(url, httpMethod, Failed, end - start, Some(message))
  }

  // ---------------------------------------------------------------------------
  // Browser measurements

  /** Scroll offsets and the five height measurements the bridge reads. */
  datatype Layout = Layout(
    scrollX: int, scrollY: int,
    bodyScrollHeight: int, bodyOffsetHeight: int,
    htmlClientHeight: int, htmlScrollHeight: int, htmlOffsetHeight: int)

  function Max(a: int, b: int): int {
    if a >= b then a else b
  }

  /** The RESIZE height: the largest of the five measurements. */
  function DocumentHeight(l: Layout): (h: int)
    ensures h >= l.bodyScrollHeight && h >= l.bodyOffsetHeight && h >= l.htmlClientHeight
      && h >= l.htmlScrollHeight && h >= l.htmlOffsetHeight
    ensures h in {l.bodyScrollHeight, l.bodyOffsetHeight, l.htmlClientHeight, l.htmlScrollHeight, l.htmlOffsetHeight}
  {
    Max(Max(Max(Max(l.bodyScrollHeight, l.bodyOffsetHeight), l.htmlClientHeight), l.htmlScrollHeight), l.htmlOffsetHeight)
  }

  /** The highlight box: not created yet, hidden, or shown with the `top`,
      `left`, width and height it is styled with. The box is `position: fixed`,
      so those are viewport coordinates. */
  datatype Overlay = Absent | Hidden | Shown(box: Rect)

  /** A shown overlay covers an element whose viewport box is `r` when its
      own fixed-position box is exactly `r`. */
  predicate Covers(o: Overlay, r: Rect) {
    o.Shown? && o.box == r
  }

  /** `updateOverlayPosition` as written, for an element whose viewport box is
      `r`: the fixed-position box gets the viewport box plus the scroll
      offsets, so it covers the element only on an unscrolled page. */
  function ShownOver(r: Rect, l: Layout): (o: Overlay)
    ensures o.Shown? && o.box.width == r.width && o.box.height == r.height
    ensures o.box.top - l.scrollY == r.top && o.box.left - l.scrollX == r.left
  {
    Shown(Rect(r.top + l.scrollY, r.left + l.scrollX, r.width, r.height))
  }

  /** The placement the highlight is meant to have: the fixed-position box
      takes the viewport box unchanged and covers the element at any scroll. */
  function ShownAtViewport(r: Rect): (o: Overlay)
    ensures Covers(o, r)
  {
    Shown(r)
  }

  /** The written placement agrees with the intended one, and covers the
      element, exactly when the page is not scrolled. */
  lemma ShownOverCoversIff(r: Rect, l: Layout)
    ensures ShownOver(r, l) == ShownAtViewport(r) <==> l.scrollX == 0 && l.scrollY == 0
    ensures Covers(ShownOver(r, l), r) <==> l.scrollX == 0 && l.scrollY == 0
  {
  }
}
