/** The inspector bridge: the state the injected script keeps (identifier
    counter, inspector flag, highlight box, bound pointer listeners) together
    with the part of the page it changes (the body tree) and the messages it
    has posted to the host frame. */
module Synapse {
  import opened Js
  import opened Dom
  import opened Protocol

  /** The capturing document listeners the inspector binds. */
  datatype Listener = MouseOverCapture | ClickCapture

  const InspectorListeners: set<Listener> := {MouseOverCapture, ClickCapture}

  /** The target of a pointer event: the root `<html>` element, or an element
      of the body tree (the empty path is the body itself). */
  datatype Target = DocumentElement | InBody(path: Path)

  /** What the browser's `error` event carries when an exception escapes a
      listener: its message, script and line. */
  datatype ErrorReport = ErrorReport(message: string, filename: string, lineno: int)

  /** The four patched console entry points. */
  datatype ConsoleMethod = Log | Warn | Error | Info

  function ConsoleLevel(m: ConsoleMethod): string {
    match m
    case Log => "log"
    case Warn => "warn"
    case Error => "error"
    case Info => "info"
  }

  class Bridge {
    /** `document.body` and everything under it, as the page currently has it. */
    var body: Element
    /** Scroll offsets and height measurements; the browser owns them. */
    var layout: Layout
    var nextId: nat
    var inspectorEnabled: bool
    var overlay: Overlay
    /** The inspector listeners currently bound on the document. */
    var listeners: set<Listener>
    /** Every envelope posted to the parent window so far, in order. */
    var outbox: seq<OutboundMessage>
    /** `window.self === window.top`: the page is not framed. */
    const standalone: bool
    /** `JSON.stringify` on an object: its text, or None when it throws. */
    const json: JsValue -> Option<string>

    /** The bound listeners are exactly the inspector's while it is enabled and
        none otherwise; an enabled inspector has its overlay; identifiers start
        at `el-1`. */
    ghost predicate Valid()
      reads this
    {
      && nextId >= 1
      && listeners == (if inspectorEnabled then InspectorListeners else {})
      && (inspectorEnabled ==> overlay != Absent)
    }

    /** The script's state right after it runs, before the `load` event. */
    constructor (body: Element, layout: Layout, standalone: bool, json: JsValue -> Option<string>)
      ensures Valid()
      ensures this.body == body && this.layout == layout
      ensures this.standalone == standalone && this.json == json
      ensures nextId == 1 && !inspectorEnabled && overlay == Absent && listeners == {} && outbox == []
    {
      this.body := body;
      this.layout := layout;
      this.standalone := standalone;
      this.json := json;
      nextId := 1;
      inspectorEnabled := false;
      overlay := Absent;
      listeners := {};
      outbox := [];
    }

    method SendMessage(m: OutboundMessage)
      modifies this`outbox
      ensures outbox == old(outbox) + [m]
    {
      outbox := outbox + [m];
    }

    // -------------------------------------------------------------------------
    // Identity tagging and serialisation

    /** `ensureArdorId(el)`: null for a null element; the carried identifier,
        untouched, for a tagged one; otherwise `el-<nextId>` is written and the
        counter moves on by exactly one. */
    method EnsureArdorId(el: Option<Element>) returns (id: Option<string>, tagged: Option<Element>)
      modifies this`nextId
      ensures el.None? ==> id.None? && tagged.None? && nextId == old(nextId)
      ensures el.Some? && IdAttr in el.value.attrs ==>
        id == Some(el.value.attrs[IdAttr]) && tagged == el && nextId == old(nextId)
      ensures el.Some? && IdAttr !in el.value.attrs ==>
        && id == Some(GeneratedId(old(nextId)))
        && tagged == Some(el.value.(attrs := el.value.attrs[IdAttr := id.value]))
        && nextId == old(nextId) + 1
      ensures el.Some? ==>
        var t := EnsureId(el.value, old(nextId));
        id == Some(t.id) && tagged == Some(t.element) && nextId == t.next
    {
      if el.None? {
        return None, None;
      }
      var e := el.value;
      if IdAttr !in e.attrs {
        e := e.(attrs := e.attrs[IdAttr := GeneratedId(nextId)]);
        nextId := nextId + 1;
      }
      id, tagged := Some(e.attrs[IdAttr]), Some(e);
    }

    /** `serialize(el)`: tags `el`, then walks its children in order and keeps
        the nodes of those that are not skipped. */
    method SerializeElement(e: Element) returns (node: Option<SNode>, tagged: Element)
      modifies this`nextId
      ensures Serialize(e, old(nextId)) == SerResult(node, tagged, nextId)
      decreases e
    {
      if Excluded(e) {
        return None, e;
      }
      var id, self := EnsureArdorId(Some(e));
      var kids: seq<SNode> := [];
      var done: seq<Element> := [];
      ghost var start := nextId;
      for i := 0 to |e.children|
        invariant SerializeAll(e.children[..i], start) == SerListResult(kids, done, nextId)
      {
        assert e.children[..i + 1][..i] == e.children[..i];
        var child, childTagged := SerializeElement(e.children[i]);
        if child.Some? {
          kids := kids + [child.value];
        }
        done := done + [childTagged];
      }
      assert e.children[..|e.children|] == e.children;
      node := Some(SNode(id.value, Lower(e.tag), ClassNameText(e.className), kids));
      tagged := self.value.(children := done);
    }

    /** `getSerializedTree()` from the body: the tree, with every visited
        element now tagged in the page. */
    method GetSerializedTree() returns (tree: Option<SNode>)
      requires Valid()
      modifies this`body, this`nextId
      ensures Valid()
      ensures var r := Serialize(old(body), old(nextId));
        tree == r.node && body == r.tagged && nextId == r.next
      ensures tree.None? <==> Excluded(old(body))
      ensures tree.Some? ==> Mirrors(tree.value, body)
      ensures OnlyAddsIds(old(body), body)
    {
      SerializeOnlyAddsIds(body, nextId);
      SerializeMirrors(body, nextId);
      var t;
      tree, t := SerializeElement(body);
      body := t;
    }

    method SendDOMTree()
      requires Valid()
      modifies this`body, this`nextId, this`outbox
      ensures Valid()
      ensures var r := Serialize(old(body), old(nextId));
        body == r.tagged && nextId == r.next && outbox == old(outbox) + [DomTreeUpdate(r.node)]
    {
      var tree := GetSerializedTree();
      SendMessage(DomTreeUpdate(tree));
    }

    // -------------------------------------------------------------------------
    // Overlay, handshake, height

    /** `createOverlay()`: creates the hidden box once; later calls do nothing. */
    method CreateOverlay()
      modifies this`overlay
      ensures overlay != Absent
      ensures old(overlay) == Absent ==> overlay == Hidden
      ensures old(overlay) != Absent ==> overlay == old(overlay)
    {
      if overlay == Absent {
        overlay := Hidden;
      }
    }

    /** `updateOverlayPosition(el)`, given the element's viewport box (None
        for a null element): hidden for none; otherwise the fixed-position box
        gets the viewport box plus the scroll offsets, so it covers the element
        only on an unscrolled page (see Protocol.ShownOverCoversIff). */
    method UpdateOverlayPosition(target: Option<Rect>)
      modifies this`overlay
      ensures target.None? ==> overlay == Hidden
      ensures target.Some? ==> overlay == ShownOver(target.value, layout)
    {
      CreateOverlay();
      if target.None? {
        overlay := Hidden;
        return;
      }
      overlay := ShownOver(target.value, layout);
    }

    method SendHandshake()
      modifies this`outbox
      ensures outbox == old(outbox) + [BridgeReady(BridgeVersion, Features)]
    {
      SendMessage(Handshake);
    }

    /** `sendHeight()`: one RESIZE carrying the largest height measurement. */
    method SendHeight()
      modifies this`outbox
      ensures outbox == old(outbox) + [Resize(DocumentHeight(layout))]
    {
      SendMessage(Resize(DocumentHeight(layout)));
    }

    /** The `load` handler. */
    method OnLoad()
      requires Valid()
      modifies this`overlay, this`outbox, this`body, this`nextId
      ensures Valid()
      ensures overlay == (if old(overlay) == Absent then Hidden else old(overlay))
      ensures var r := Serialize(old(body), old(nextId));
        && body == r.tagged && nextId == r.next
        && outbox == old(outbox) + [Handshake, Resize(DocumentHeight(layout)), DomTreeUpdate(r.node)]
    {
      CreateOverlay();
      SendHandshake();
      SendHeight();
      SendDOMTree();
    }

    // -------------------------------------------------------------------------
    // Inspector

    /** The CONSOLE_LOG the inspector's own `console.log` call produces
        through the patched console. */
    function InspectorLog(enabled: JsValue, now: int): (r: OutboundMessage)
      reads this
      ensures r == ConsoleLog("log", now, ["[Ardor Bridge] Inspector:", SafeArg(enabled, json)])
    {
      var args := SafeArgs([Str("[Ardor Bridge] Inspector:"), enabled], json);
      assert args == [args[0], args[1]];
      ConsoleLog("log", now, args)
    }

    /** `toggleInspector(enabled)`: on a truthy value, the flag, a crosshair
        cursor on the body and both capturing listeners; otherwise the flag
        cleared, the cursor cleared, the overlay hidden and both listeners
        removed. Either way the overlay exists afterwards. */
    method ToggleInspector(enabled: JsValue, now: int)
      requires Valid()
      modifies this`inspectorEnabled, this`overlay, this`body, this`listeners, this`outbox
      ensures Valid()
      ensures inspectorEnabled == Truthy(enabled)
      ensures listeners == (if Truthy(enabled) then InspectorListeners else {})
      ensures body == old(body).(style := old(body).style["cursor" := if Truthy(enabled) then "crosshair" else ""])
      ensures Truthy(enabled) ==> overlay == (if old(overlay) == Absent then Hidden else old(overlay))
      ensures !Truthy(enabled) ==> overlay == Hidden
      ensures outbox == old(outbox) + [InspectorLog(enabled, now)]
    {
      inspectorEnabled := Truthy(enabled);
      CreateOverlay();
      if Truthy(enabled) {
        body := body.(style := body.style["cursor" := "crosshair"]);
        listeners := listeners + InspectorListeners;
      } else {
        body := body.(style := body.style["cursor" := ""]);
        overlay := Hidden;
        listeners := listeners - InspectorListeners;
      }
      SendMessage(InspectorLog(enabled, now));
    }

    /** The event target is a live element of this page. */
    ghost predicate Live(target: Target)
      reads this
    {
      target.InBody? ==> ValidPath(body, target.path)
    }

    /** Targets the pointer handlers leave alone: the root element, the body
        and the overlay (anything with its DOM id). */
    predicate Ignored(target: Target)
      reads this
      requires Live(target)
    {
      target.DocumentElement? || target.path == [] || At(body, target.path).domId == OverlayDomId
    }

    /** `handleMouseOver`: while enabled it stops propagation and moves the
        overlay over any element that is not ignored; while disabled it does
        nothing. */
    method HandleMouseOver(target: Target) returns (stopped: bool)
      requires Valid() && Live(target)
      modifies this`overlay
      ensures Valid()
      ensures stopped == inspectorEnabled
      ensures !inspectorEnabled || Ignored(target) ==> overlay == old(overlay)
      ensures inspectorEnabled && !Ignored(target) ==> overlay == ShownOver(At(body, target.path).rect, layout)
    {
      if !inspectorEnabled {
        return false;
      }
      stopped := true;
      if Ignored(target) {
        return;
      }
      UpdateOverlayPosition(Some(At(body, target.path).rect));
    }

    /** The CONSOLE_LOG of the click handler's `console.log` on an unframed page. */
    function PeekLog(e: Element, now: int): (r: OutboundMessage)
      reads this
      ensures r.ConsoleLog? && r.level == "log" && r.timestamp == now
      ensures |r.args| == 2 && r.args[0] == "[Ardor Peek]"
      ensures r.args[1] == SafeArg(Obj(map["tagName" := Str(e.tag),
                                           "sourceFile" := Str(AttrOr(e, SourceFileAttr, "Unknown")),
                                           "lineNumber" := Str(AttrOr(e, SourceLineAttr, "0"))]), json)
    {
      var record := Obj(map["tagName" := Str(e.tag),
                            "sourceFile" := Str(AttrOr(e, SourceFileAttr, "Unknown")),
                            "lineNumber" := Str(AttrOr(e, SourceLineAttr, "0"))]);
      ConsoleLog("log", now, SafeArgs([Str("[Ardor Peek]"), record], json))
    }

    /** `handleClick`: while enabled and not on an ignored target, it
        suppresses the default action and propagation, tags the element,
        moves the overlay over it and posts exactly one ELEMENT_SELECTED
        (followed by the demo console line on an unframed page); otherwise
        it does nothing. */
    method HandleClick(target: Target, now: int) returns (suppressed: bool)
      requires Valid() && Live(target)
      modifies this`body, this`nextId, this`overlay, this`outbox
      ensures Valid()
      ensures suppressed == (inspectorEnabled && !old(Ignored(target)))
      ensures !suppressed ==>
        body == old(body) && nextId == old(nextId) && overlay == old(overlay) && outbox == old(outbox)
      ensures suppressed ==>
        var el := At(old(body), target.path);
        var t := EnsureId(el, old(nextId));
        && body == ReplaceAt(old(body), target.path, t.element)
        && nextId == t.next
        && overlay == ShownOver(el.rect, layout)
        && outbox == old(outbox) + [ElementSelected(ClickSnapshot(t.element, t.id))]
                                 + (if standalone then [PeekLog(t.element, now)] else [])
    {
      if !inspectorEnabled || Ignored(target) {
        return false;
      }
      suppressed := true;
      var el := At(body, target.path);
      var id, tagged := EnsureArdorId(Some(el));
      body := ReplaceAt(body, target.path, tagged.value);
      UpdateOverlayPosition(Some(el.rect));
      SendMessage(ElementSelected(ClickSnapshot(tagged.value, id.value)));
      if standalone {
        SendMessage(PeekLog(tagged.value, now));
      }
    }

    /** The `keydown` listener: Escape while enabled disables the inspector;
        any other key, or Escape while disabled, changes nothing. */
    method HandleKeyDown(key: string, now: int)
      requires Valid()
      modifies this`inspectorEnabled, this`overlay, this`body, this`listeners, this`outbox
      ensures Valid()
      ensures key == "Escape" && old(inspectorEnabled) ==>
        && !inspectorEnabled && listeners == {} && overlay == Hidden
        && body == old(body).(style := old(body).style["cursor" := ""])
        && outbox == old(outbox) + [InspectorLog(Bool(false), now)]
      ensures !(key == "Escape" && old(inspectorEnabled)) ==> unchanged(this)
    {
      if key == "Escape" && inspectorEnabled {
        ToggleInspector(Bool(false), now);
      }
    }

    // -------------------------------------------------------------------------
    // Inbound commands

    /** The HIGHLIGHT_NODE case: the first element carrying `targetId` gets
        the overlay and is reported in one ELEMENT_SELECTED whose snapshot
        passes `className` through raw. On an SVG element that value is an
        `SVGAnimatedString`, `postMessage` throws a DataCloneError, and the
        exception leaves the listener: the bridge's own `error` listener then
        posts `Uncaught: …` with what the browser reports (`report`). When no
        element carries the identifier nothing happens. */
    method HighlightById(targetId: string, now: int, report: ErrorReport)
      requires Valid()
      modifies this`overlay, this`body, this`outbox, this`nextId
      ensures Valid()
      ensures match FindById(old(body), targetId)
        case None => unchanged(this)
        case Some(p) =>
          var el := At(old(body), p);
          && overlay == ShownOver(el.rect, layout)
          && body == old(body) && nextId == old(nextId)
          && (el.className.ClassText? ==>
                outbox == old(outbox) + [ElementSelected(HighlightSnapshot(el, targetId))])
          && (el.className.ClassObject? ==>
                outbox == old(outbox) + [ConsoleLog("error", now, ["Uncaught: " + report.message,
                                                                  "@ " + report.filename + ":" + IntToString(report.lineno)])])
    {
      var found := FindById(body, targetId);
      if found.Some? {
        var target := At(body, found.value);
        UpdateOverlayPosition(Some(target.rect));
        var id, _ := EnsureArdorId(Some(target));
        var selected := ElementSelected(HighlightSnapshot(target, id.value));
        HighlightCloneableIff(target, id.value);
        if Cloneable(selected) {
          SendMessage(selected);
        } else {
          OnWindowError(report.message, report.filename, report.lineno, now);
        }
      }
    }

    /** The UPDATE_STYLE case: the first element carrying `targetId` gets the
        inline property and the overlay; when no element carries it nothing
        happens. */
    method UpdateStyleById(targetId: string, property: string, value: string)
      requires Valid()
      modifies this`overlay, this`body
      ensures Valid()
      ensures match FindById(old(body), targetId)
        case None => unchanged(this)
        case Some(p) =>
          var el := At(old(body), p);
          && body == ReplaceAt(old(body), p, el.(style := el.style[property := value]))
          && overlay == ShownOver(el.rect, layout)
    {
      var found := FindById(body, targetId);
      if found.Some? {
        var styleEl := At(body, found.value);
        body := ReplaceAt(body, found.value, styleEl.(style := styleEl.style[property := value]));
        UpdateOverlayPosition(Some(styleEl.rect));
      }
    }

    /** The `message` listener, given the posted `event.data` and what the
        browser would report should the listener throw. Ignored messages (a
        nullish one included) and unknown actions change nothing;
        HIGHLIGHT_NODE and UPDATE_STYLE with an identifier no element carries
        change nothing; HIGHLIGHT_NODE on an SVG element throws after moving
        the overlay; PING posts exactly one handshake. */
    method HandleMessage(data: JsValue, now: int, report: ErrorReport)
      requires Valid()
      modifies this`inspectorEnabled, this`overlay, this`body, this`listeners, this`outbox, this`nextId
      ensures Valid()
      ensures Receive(data).None? ==> unchanged(this)
      ensures Receive(data) == Some(Ping) ==>
        outbox == old(outbox) + [Handshake] && body == old(body) && overlay == old(overlay)
        && inspectorEnabled == old(inspectorEnabled) && nextId == old(nextId)
      ensures Receive(data).Some? && Receive(data).value.ToggleInspector? ==>
        var enabled := Receive(data).value.enabled;
        && inspectorEnabled == Truthy(enabled)
        && body == old(body).(style := old(body).style["cursor" := if Truthy(enabled) then "crosshair" else ""])
        && (!Truthy(enabled) ==> overlay == Hidden)
        && (Truthy(enabled) ==> overlay == if old(overlay) == Absent then Hidden else old(overlay))
        && outbox == old(outbox) + [InspectorLog(enabled, now)]
        && nextId == old(nextId)
      ensures Receive(data).Some? && Receive(data).value.HighlightNode? ==>
        match FindById(old(body), Receive(data).value.id)
        case None => unchanged(this)
        case Some(p) =>
          var el := At(old(body), p);
          && overlay == ShownOver(el.rect, layout)
          && body == old(body) && nextId == old(nextId) && inspectorEnabled == old(inspectorEnabled)
          && (el.className.ClassText? ==>
                outbox == old(outbox) + [ElementSelected(HighlightSnapshot(el, Receive(data).value.id))])
          && (el.className.ClassObject? ==>
                outbox == old(outbox) + [ConsoleLog("error", now, ["Uncaught: " + report.message,
                                                                  "@ " + report.filename + ":" + IntToString(report.lineno)])])
      ensures Receive(data).Some? && Receive(data).value.UpdateStyle? ==>
        var c := Receive(data).value;
        match FindById(old(body), c.id)
        case None => unchanged(this)
        case Some(p) =>
          var el := At(old(body), p);
          && body == ReplaceAt(old(body), p, el.(style := el.style[c.property := c.value]))
          && overlay == ShownOver(el.rect, layout)
          && outbox == old(outbox) && nextId == old(nextId) && inspectorEnabled == old(inspectorEnabled)
    {
      var command := Receive(data);
      match command {
        case None =>
        case Some(ToggleInspector(enabled)) =>
          ToggleInspector(enabled, now);
        case Some(HighlightNode(targetId)) =>
          HighlightById(targetId, now, report);
        case Some(UpdateStyle(targetId, property, value)) =>
          UpdateStyleById(targetId, property, value);
        case Some(Ping) =>
          SendHandshake();
      }
    }

    // -------------------------------------------------------------------------
    // Telemetry

    /** A patched `console.<method>(...args)`: one CONSOLE_LOG with every
        argument rendered to a string. */
    method ConsoleCall(m: ConsoleMethod, args: seq<JsValue>, now: int)
      modifies this`outbox
      ensures outbox == old(outbox) + [ConsoleLog(ConsoleLevel(m), now, SafeArgs(args, json))]
    {
      SendMessage(ConsoleLog(ConsoleLevel(m), now, SafeArgs(args, json)));
    }

    /** The window `error` listener. */
    method OnWindowError(message: string, filename: string, lineno: int, now: int)
      modifies this`outbox
      ensures outbox == old(outbox)
        + [ConsoleLog("error", now, ["Uncaught: " + message, "@ " + filename + ":" + IntToString(lineno)])]
    {
      SendMessage(ConsoleLog("error", now, ["Uncaught: " + message, "@ " + filename + ":" + IntToString(lineno)]));
    }

    /** The window `unhandledrejection` listener. */
    method OnUnhandledRejection(reason: JsValue, now: int)
      modifies this`outbox
      ensures outbox == old(outbox) + [ConsoleLog("error", now, ["Unhandled Rejection: " + JsToString(reason)])]
    {
      SendMessage(ConsoleLog("error", now, ["Unhandled Rejection: " + JsToString(reason)]));
    }

    /** The `fetch` wrapper, given its first two arguments and how the real
        `fetch` settles. When the URL can be read, the caller gets exactly
        that settlement (a rejection is rethrown unchanged) and exactly one
        NETWORK_LOG is posted. Without a first argument (or with null) reading
        its `url` throws before the real `fetch` is called: the returned
        promise rejects with that TypeError, which is None here, and nothing
        is posted. */
    method Fetch(input: JsValue, init: JsValue, start: int, outcome: FetchSettlement, end: int)
      returns (result: Option<FetchSettlement>)
      modifies this`outbox
      ensures FetchUrl(input).None? ==> result == None && outbox == old(outbox)
      ensures FetchUrl(input).Some? ==>
        result == Some(outcome)
        && outbox == old(outbox) + [NetworkRecord(FetchUrl(input).value, init, outcome, start, end)]
    {
      var url := FetchUrl(input);
      if url.None? {
        return None;
      }
      SendMessage(NetworkRecord(url.value, init, outcome, start, end));
      result := Some(outcome);
    }
  }
}
