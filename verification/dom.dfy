/** The page's DOM as the bridge sees it (a tree of element records rooted at
    `document.body`), the identity tag the bridge writes on elements, and the
    serialised tree it sends to the host frame. */
module Dom {
  import opened Js

  /** The reserved attribute that carries an element's bridge identifier. */
  const IdAttr := "data-ardor-id"
  /** The DOM `id` of the bridge's own highlight box. */
  const OverlayDomId := "ardor-overlay"
  const SourceFileAttr := "data-source-file"
  const SourceLineAttr := "data-source-line"

  /** `el.className`: a string on HTML elements, an `SVGAnimatedString` object on SVG ones. */
  datatype ClassName = ClassText(text: string) | ClassObject

  /** `getBoundingClientRect()`, viewport-relative, in whole pixels. */
  datatype Rect = Rect(top: int, left: int, width: int, height: int)

  /** One element: its tag as `tagName` reports it, its DOM `id`, `className`,
      attributes, inline style (an entry whose value is `""` stands for no
      inline declaration, which is what assigning `''` leaves), computed style
      and viewport box as the browser reports them, its rendered text (`innerText`, absent on non-HTML elements), and its
      element children in document order. */
  datatype Element = Element(
    tag: string,
    domId: string,
    className: ClassName,
    attrs: map<string, string>,
    style: map<string, string>,
    computed: map<string, string>,
    rect: Rect,
    innerText: Option<string>,
    children: seq<Element>)

  /** One node of the tree sent as DOM_TREE_UPDATE. */
  datatype SNode = SNode(id: string, tagName: string, className: string, children: seq<SNode>)

  // ---------------------------------------------------------------------------
  // Identity tagging

  /** The identifier written on the element tagged while the counter holds `n`. */
  function GeneratedId(n: nat): string {
    "el-" + NatToString(n)
  }

  /** Identifiers generated from different counter values differ. */
  lemma GeneratedIdInjective(a: nat, b: nat)
    requires GeneratedId(a) == GeneratedId(b)
    ensures a == b
  {
    assert GeneratedId(a)[3..] == NatToString(a);
    assert GeneratedId(b)[3..] == NatToString(b);
    NatToStringInjective(a, b);
  }

  /** The identifier an element carries, if any. */
  function IdOf(e: Element): Option<string> {
    if IdAttr in e.attrs then Some(e.attrs[IdAttr]) else None
  }

  datatype Tagging = Tagging(id: string, element: Element, next: nat)

  /** `ensureArdorId` on a present element, with the counter value `next`:
      the element ends up carrying the returned identifier; one it already
      had is kept and nothing changes, otherwise the counter's identifier is
      written, the counter advances, and the element is otherwise untouched. */
  function EnsureId(e: Element, next: nat): (r: Tagging)
    ensures IdOf(r.element) == Some(r.id)
    ensures IdOf(e).Some? ==> r == Tagging(IdOf(e).value, e, next)
    ensures IdOf(e).None? ==>
      && r.id == GeneratedId(next) && r.next == next + 1
      && r.element.attrs - {IdAttr} == e.attrs && r.element == e.(attrs := r.element.attrs)
  {
    if IdAttr in e.attrs then Tagging(e.attrs[IdAttr], e, next)
    else Tagging(GeneratedId(next), e.(attrs := e.attrs[IdAttr := GeneratedId(next)]), next + 1)
  }

  /** Tagging twice is tagging once: the second call returns the identifier
      written by the first and leaves element and counter alone. */
  lemma EnsureIdStable(e: Element, n: nat, m: nat)
    ensures var t := EnsureId(e, n);
      IdOf(t.element) == Some(t.id) && EnsureId(t.element, m) == Tagging(t.id, t.element, m)
  {
  }

  // ---------------------------------------------------------------------------
  // Serialisation

  /** Elements that `getSerializedTree` skips together with their subtrees. */
  predicate Excluded(e: Element) {
    e.domId == OverlayDomId || e.tag == "SCRIPT" || e.tag == "STYLE"
  }

  /** `typeof el.className === 'string' ? el.className : ''` */
  function ClassNameText(c: ClassName): string {
    match c
    case ClassText(t) => t
    case ClassObject => ""
  }

  datatype SerResult = SerResult(node: Option<SNode>, tagged: Element, next: nat)
  datatype SerListResult = SerListResult(nodes: seq<SNode>, tagged: seq<Element>, next: nat)

  /** `serialize(el)` with the counter at `next`: the node (None for a skipped
      element), the element with the identifiers written during the walk, and
      the counter afterwards. The element is tagged before its children. */
  function Serialize(e: Element, next: nat): SerResult
    decreases e, 1
  {
    if Excluded(e) then SerResult(None, e, next)
    else
      var t := EnsureId(e, next);
      var kids := SerializeAll(e.children, t.next);
      SerResult(Some(SNode(t.id, Lower(e.tag), ClassNameText(e.className), kids.nodes)),
                t.element.(children := kids.tagged), kids.next)
  }

  /** The `for (const child of el.children)` loop over the first `|cs|` children:
      serialised children that are not skipped are pushed in order. */
  function SerializeAll(cs: seq<Element>, next: nat): SerListResult
    decreases cs, 0
  {
    if cs == [] then SerListResult([], [], next)
    else
      var pre := SerializeAll(cs[..|cs| - 1], next);
      var last := Serialize(cs[|cs| - 1], pre.next);
      SerListResult(pre.nodes + (if last.node.Some? then [last.node.value] else []),
                    pre.tagged + [last.tagged], last.next)
  }

  /** Indices of the children that serialisation keeps, in increasing (document) order. */
  function KeptIndices(cs: seq<Element>): (r: seq<nat>)
    ensures forall k :: 0 <= k < |r| ==> r[k] < |cs| && !Excluded(cs[r[k]])
    ensures forall k, l :: 0 <= k < l < |r| ==> r[k] < r[l]
    ensures forall i :: 0 <= i < |cs| && !Excluded(cs[i]) ==> i in r
  {
    if cs == [] then []
    else
      var pre := KeptIndices(cs[..|cs| - 1]);
      if Excluded(cs[|cs| - 1]) then pre else pre + [|cs| - 1]
  }

  /** `n` is the serialisation of the tagged element `e`: `e` is not skipped,
      carries the identifier `n.id`, `n` has its lower-cased tag and its class
      text, and the children of `n` are, in order, the serialisations of the
      children of `e` that are not skipped. Nothing under a skipped child
      appears. */
  ghost predicate Mirrors(n: SNode, e: Element)
    decreases e
  {
    && !Excluded(e)
    && IdOf(e) == Some(n.id)
    && n.tagName == Lower(e.tag)
    && n.className == ClassNameText(e.className)
    && var kept := KeptIndices(e.children);
       |n.children| == |kept|
       && forall k :: 0 <= k < |kept| ==> Mirrors(n.children[k], e.children[kept[k]])
  }

  /** A skipped element yields no node; any other element yields a node that
      mirrors the tagged element. */
  lemma {:induction false} SerializeMirrors(e: Element, n: nat)
    ensures var r := Serialize(e, n);
      && (r.node.None? <==> Excluded(e))
      && Excluded(r.tagged) == Excluded(e)
      && (r.node.Some? ==> Mirrors(r.node.value, r.tagged))
    decreases e, 1
  {
    if !Excluded(e) {
      var t := EnsureId(e, n);
      SerializeAllMirrors(e.children, t.next);
    }
  }

  lemma {:induction false} SerializeAllMirrors(cs: seq<Element>, n: nat)
    ensures var r := SerializeAll(cs, n);
      && |r.tagged| == |cs|
      && (forall i :: 0 <= i < |cs| ==> Excluded(r.tagged[i]) == Excluded(cs[i]))
      && |r.nodes| == |KeptIndices(r.tagged)|
      && forall k :: 0 <= k < |r.nodes| ==> Mirrors(r.nodes[k], r.tagged[KeptIndices(r.tagged)[k]])
    decreases cs, 0
  {
    if cs != [] {
      var m := |cs| - 1;
      var pre := SerializeAll(cs[..m], n);
      var last := Serialize(cs[m], pre.next);
      SerializeAllMirrors(cs[..m], n);
      SerializeMirrors(cs[m], pre.next);
      var r := SerializeAll(cs, n);
      assert r.tagged == pre.tagged + [last.tagged];
      forall i | 0 <= i < |cs|
        ensures Excluded(r.tagged[i]) == Excluded(cs[i])
      {
        if i < m {
          assert r.tagged[i] == pre.tagged[i] && cs[..m][i] == cs[i];
        }
      }
      MirrorsAppend(pre.nodes, pre.tagged, last.node, last.tagged);
    }
  }

  /** Appending a child appends its index to the kept ones unless it is skipped. */
  lemma KeptIndicesAppend(cs: seq<Element>, c: Element)
    ensures KeptIndices(cs + [c]) == if Excluded(c) then KeptIndices(cs) else KeptIndices(cs) + [|cs|]
  {
    assert (cs + [c])[..|cs|] == cs;
  }

  /** Appending one serialised child to the mirrored prefix of a child list
      keeps the list mirrored. */
  lemma MirrorsAppend(nodes: seq<SNode>, tagged: seq<Element>, x: Option<SNode>, t: Element)
    requires |nodes| == |KeptIndices(tagged)|
    requires forall k :: 0 <= k < |nodes| ==> Mirrors(nodes[k], tagged[KeptIndices(tagged)[k]])
    requires x.None? <==> Excluded(t)
    requires x.Some? ==> Mirrors(x.value, t)
    ensures var nodes' := nodes + (if x.Some? then [x.value] else []);
      var tagged' := tagged + [t];
      && |nodes'| == |KeptIndices(tagged')|
      && forall k :: 0 <= k < |nodes'| ==> Mirrors(nodes'[k], tagged'[KeptIndices(tagged')[k]])
  {
    var tagged' := tagged + [t];
    var m := |tagged|;
    var kept, preKept := KeptIndices(tagged'), KeptIndices(tagged);
    KeptIndicesAppend(tagged, t);
    assert tagged'[m] == t;
    if x.Some? {
      var nodes' := nodes + [x.value];
      assert kept == preKept + [m];
      forall k | 0 <= k < |nodes|
        ensures Mirrors(nodes'[k], tagged'[kept[k]])
      {
        assert nodes'[k] == nodes[k] && kept[k] == preKept[k];
        assert tagged'[preKept[k]] == tagged[preKept[k]];
      }
      assert nodes'[|nodes|] == x.value && kept[|nodes|] == m;
    } else {
      assert kept == preKept;
      forall k | 0 <= k < |nodes|
        ensures Mirrors(nodes[k], tagged'[kept[k]])
      {
        assert tagged'[preKept[k]] == tagged[preKept[k]];
      }
      assert nodes + [] == nodes;
    }
  }

  /** `t` differs from `e` at most by identifiers added where none was:
      every attribute `e` has is kept with its value (so an identifier is
      never overwritten), skipped subtrees are left exactly as they were, and
      the tree's shape, tags, classes and styles are unchanged. */
  ghost predicate OnlyAddsIds(e: Element, t: Element)
    decreases e
  {
    && t == e.(attrs := t.attrs, children := t.children)
    && (forall a :: a in e.attrs ==> a in t.attrs && t.attrs[a] == e.attrs[a])
    && (forall a :: a in t.attrs ==> a in e.attrs || a == IdAttr)
    && (Excluded(e) ==> t == e)
    && (!Excluded(e) ==>
          |t.children| == |e.children|
          && forall i :: 0 <= i < |e.children| ==> OnlyAddsIds(e.children[i], t.children[i]))
  }

  /** A walk only adds identifiers, and its counter never goes back. */
  lemma {:induction false} SerializeOnlyAddsIds(e: Element, n: nat)
    ensures OnlyAddsIds(e, Serialize(e, n).tagged) && Serialize(e, n).next >= n
    decreases e, 1
  {
    if !Excluded(e) {
      var t := EnsureId(e, n);
      SerializeAllOnlyAddsIds(e.children, t.next);
      var r := Serialize(e, n);
      assert r.tagged.children == SerializeAll(e.children, t.next).tagged;
      assert forall i :: 0 <= i < |e.children| ==> OnlyAddsIds(e.children[i], r.tagged.children[i]);
    }
  }

  lemma {:induction false} SerializeAllOnlyAddsIds(cs: seq<Element>, n: nat)
    ensures var r := SerializeAll(cs, n);
      |r.tagged| == |cs| && r.next >= n
      && forall i :: 0 <= i < |cs| ==> OnlyAddsIds(cs[i], r.tagged[i])
    decreases cs, 0
  {
    if cs != [] {
      var pre := SerializeAll(cs[..|cs| - 1], n);
      SerializeAllOnlyAddsIds(cs[..|cs| - 1], n);
      SerializeOnlyAddsIds(cs[|cs| - 1], pre.next);
    }
  }

  /** Serialising an unchanged tree a second time gives the same tree with the
      same identifiers, writes nothing and does not advance the counter,
      whatever its value. */
  lemma {:induction false} SerializeStable(e: Element, n: nat, m: nat)
    ensures var r := Serialize(e, n);
      Serialize(r.tagged, m) == SerResult(r.node, r.tagged, m)
    decreases e, 1
  {
    if !Excluded(e) {
      var t := EnsureId(e, n);
      var kids := SerializeAll(e.children, t.next);
      SerializeAllStable(e.children, t.next, m);
      var r := Serialize(e, n);
      assert r.tagged == t.element.(children := kids.tagged);
      assert EnsureId(r.tagged, m) == Tagging(t.id, r.tagged, m);
    }
  }

  lemma {:induction false} SerializeAllStable(cs: seq<Element>, n: nat, m: nat)
    ensures var r := SerializeAll(cs, n);
      SerializeAll(r.tagged, m) == SerListResult(r.nodes, r.tagged, m)
    decreases cs, 0
  {
    if cs != [] {
      var pre := SerializeAll(cs[..|cs| - 1], n);
      SerializeAllStable(cs[..|cs| - 1], n, m);
      SerializeStable(cs[|cs| - 1], pre.next, m);
      var r := SerializeAll(cs, n);
      assert r.tagged[..|r.tagged| - 1] == pre.tagged;
    }
  }

  // ---------------------------------------------------------------------------
  // The identifiers one walk writes

  /** The identifiers of the elements a walk visits (every element under no
      skipped one), in preorder, as they stand before the walk: None for an
      element without one. */
  function VisitedIds(e: Element): seq<Option<string>>
    decreases e, 1
  {
    if Excluded(e) then [] else [IdOf(e)] + VisitedIdsAll(e.children)
  }

  function VisitedIdsAll(cs: seq<Element>): seq<Option<string>>
    decreases cs, 0
  {
    if cs == [] then [] else VisitedIdsAll(cs[..|cs| - 1]) + VisitedIds(cs[|cs| - 1])
  }

  /** The identifiers of a serialised tree, in preorder. */
  function NodeIds(n: SNode): seq<string>
    decreases n, 1
  {
    [n.id] + NodeIdsAll(n.children)
  }

  function NodeIdsAll(ns: seq<SNode>): seq<string>
    decreases ns, 0
  {
    if ns == [] then [] else NodeIdsAll(ns[..|ns| - 1]) + NodeIds(ns[|ns| - 1])
  }

  /** How many of the visited elements carry no identifier. */
  function Untagged(s: seq<Option<string>>): nat {
    if s == [] then 0 else (if s[0].None? then 1 else 0) + Untagged(s[1..])
  }

  /** The identifiers after a walk that starts with the counter at `n`: an
      element that had one keeps it, and the untagged ones receive
      `GeneratedId(n)`, `GeneratedId(n + 1)`, ... in the order visited. */
  function Fill(s: seq<Option<string>>, n: nat): (r: seq<string>)
    ensures |r| == |s|
  {
    if s == [] then []
    else match s[0]
      case Some(x) => [x] + Fill(s[1..], n)
      case None => [GeneratedId(n)] + Fill(s[1..], n + 1)
  }

  lemma {:induction false} UntaggedAppend(a: seq<Option<string>>, b: seq<Option<string>>)
    ensures Untagged(a + b) == Untagged(a) + Untagged(b)
  {
    if a != [] {
      assert (a + b)[0] == a[0] && (a + b)[1..] == a[1..] + b;
      UntaggedAppend(a[1..], b);
    } else {
      assert a + b == b;
    }
  }

  lemma {:induction false} FillAppend(a: seq<Option<string>>, b: seq<Option<string>>, n: nat)
    ensures Fill(a + b, n) == Fill(a, n) + Fill(b, n + Untagged(a))
  {
    if a != [] {
      assert (a + b)[0] == a[0] && (a + b)[1..] == a[1..] + b;
      FillAppend(a[1..], b, if a[0].None? then n + 1 else n);
    } else {
      assert a + b == b;
    }
  }

  /** Entry i of `Fill(s, n)`: the identifier it had, or the counter value
      `n` plus the number of untagged entries before it. */
  lemma {:induction false} FillAt(s: seq<Option<string>>, n: nat, i: nat)
    requires i < |s|
    ensures s[i].Some? ==> Fill(s, n)[i] == s[i].value
    ensures s[i].None? ==> Fill(s, n)[i] == GeneratedId(n + Untagged(s[..i]))
    decreases i
  {
    if i == 0 {
      assert s[..0] == [];
    } else {
      var n' := if s[0].None? then n + 1 else n;
      FillAt(s[1..], n', i - 1);
      assert Fill(s, n)[i] == Fill(s[1..], n')[i - 1];
      assert s[1..][i - 1] == s[i];
      assert s[..i] == [s[0]] + s[1..][..i - 1];
      UntaggedAppend([s[0]], s[1..][..i - 1]);
      assert [s[0]][1..] == [];
    }
  }

  /** An untagged entry raises the count of untagged entries before any later one. */
  lemma UntaggedGrows(s: seq<Option<string>>, i: nat, j: nat)
    requires i < j <= |s| && s[i].None?
    ensures Untagged(s[..i]) < Untagged(s[..j])
  {
    assert s[..j] == s[..i] + s[i..j];
    UntaggedAppend(s[..i], s[i..j]);
    assert s[i..j] == [s[i]] + s[i + 1..j];
    UntaggedAppend([s[i]], s[i + 1..j]);
  }

  /** `serialize` writes identifiers consecutively: walking the result in
      preorder, its identifiers are those the visited elements had, with the
      untagged ones filled from the counter in order, and the counter ends
      one past the last value used. */
  lemma {:induction false} SerializeIds(e: Element, n: nat)
    ensures var r := Serialize(e, n);
      && r.next == n + Untagged(VisitedIds(e))
      && (r.node.Some? ==> NodeIds(r.node.value) == Fill(VisitedIds(e), n))
      && (r.node.None? ==> VisitedIds(e) == [])
    decreases e, 1
  {
    if !Excluded(e) {
      var t := EnsureId(e, n);
      var kids := SerializeAll(e.children, t.next);
      SerializeAllIds(e.children, t.next);
      var s := VisitedIds(e);
      assert s[0] == IdOf(e) && s[1..] == VisitedIdsAll(e.children);
    }
  }

  lemma {:induction false} SerializeAllIds(cs: seq<Element>, n: nat)
    ensures var r := SerializeAll(cs, n);
      && r.next == n + Untagged(VisitedIdsAll(cs))
      && NodeIdsAll(r.nodes) == Fill(VisitedIdsAll(cs), n)
    decreases cs, 0
  {
    if cs != [] {
      var m := |cs| - 1;
      var pre := SerializeAll(cs[..m], n);
      var last := Serialize(cs[m], pre.next);
      SerializeAllIds(cs[..m], n);
      SerializeIds(cs[m], pre.next);
      var a, b := VisitedIdsAll(cs[..m]), VisitedIds(cs[m]);
      assert VisitedIdsAll(cs) == a + b;
      FillAppend(a, b, n);
      UntaggedAppend(a, b);
      var r := SerializeAll(cs, n);
      if last.node.Some? {
        assert r.nodes == pre.nodes + [last.node.value];
        assert r.nodes[..|r.nodes| - 1] == pre.nodes;
      } else {
        assert r.nodes == pre.nodes;
        assert a + b == a;
      }
    }
  }

  /** The identifiers one `serialize` walk writes, in preorder: an element
      that was tagged keeps its identifier, the untagged element with k
      untagged ones before it receives `GeneratedId(n + k)`, a value below
      the final counter, so no two elements tagged by the walk share an
      identifier. */
  lemma SerializeWritesDistinctIds(e: Element, n: nat)
    ensures var r := Serialize(e, n);
      var s := VisitedIds(e);
      r.node.Some? ==>
        var ids := NodeIds(r.node.value);
        && |ids| == |s|
        && (forall i :: 0 <= i < |s| && s[i].Some? ==> ids[i] == s[i].value)
        && (forall i :: 0 <= i < |s| && s[i].None? ==>
              ids[i] == GeneratedId(n + Untagged(s[..i])) && n + Untagged(s[..i]) < r.next)
        && (forall i, j :: 0 <= i < j < |s| && s[i].None? && s[j].None? ==> ids[i] != ids[j])
  {
    var s := VisitedIds(e);
    SerializeIds(e, n);
    forall i | 0 <= i < |s| {
      FillAt(s, n, i);
    }
    FillGeneratedDistinct(s, n);
  }

  /** The counter values `Fill` hands out lie below `n + Untagged(s)` and are
      pairwise different, so are the identifiers. */
  lemma FillGeneratedDistinct(s: seq<Option<string>>, n: nat)
    ensures forall i :: 0 <= i < |s| && s[i].None? ==> Untagged(s[..i]) < Untagged(s)
    ensures forall i, j :: 0 <= i < j < |s| && s[i].None? && s[j].None? ==> Fill(s, n)[i] != Fill(s, n)[j]
  {
    forall i | 0 <= i < |s| && s[i].None?
      ensures Untagged(s[..i]) < Untagged(s)
    {
      UntaggedGrows(s, i, |s|);
      assert s[..|s|] == s;
    }
    forall i, j | 0 <= i < j < |s| && s[i].None? && s[j].None?
      ensures Fill(s, n)[i] != Fill(s, n)[j]
    {
      UntaggedGrows(s, i, j);
      FillAt(s, n, i);
      FillAt(s, n, j);
      if Fill(s, n)[i] == Fill(s, n)[j] {
        GeneratedIdInjective(n + Untagged(s[..i]), n + Untagged(s[..j]));
      }
    }
  }

  // ---------------------------------------------------------------------------
  // Addressing elements

  /** A path of child indices from the body to a live element. */
  type Path = seq<nat>

  predicate ValidPath(e: Element, p: Path)
    decreases p
  {
    p == [] || (p[0] < |e.children| && ValidPath(e.children[p[0]], p[1..]))
  }

  function At(e: Element, p: Path): Element
    requires ValidPath(e, p)
    decreases p
  {
    if p == [] then e else At(e.children[p[0]], p[1..])
  }

  /** The tree with the element at `p` replaced by `x`; every other element,
      and every path into the tree, stays as it was. */
  function ReplaceAt(e: Element, p: Path, x: Element): (r: Element)
    requires ValidPath(e, p)
    ensures ValidPath(r, p) && At(r, p) == x
    ensures p != [] ==> r == e.(children := r.children) && |r.children| == |e.children|
    decreases p
  {
    if p == [] then x
    else e.(children := e.children[p[0] := ReplaceAt(e.children[p[0]], p[1..], x)])
  }

  /** Some element of the tree carries the identifier `id`. */
  ghost predicate HasId(e: Element, id: string)
    decreases e
  {
    IdOf(e) == Some(id) || exists i :: 0 <= i < |e.children| && HasId(e.children[i], id)
  }

  /** `p` leads to the first element in document order that carries `id`:
      every element met before it on a preorder walk (an ancestor, or an
      earlier sibling subtree of one) lacks the identifier. */
  ghost predicate FirstWithId(e: Element, p: Path, id: string)
    decreases p
  {
    if p == [] then IdOf(e) == Some(id)
    else
      && IdOf(e) != Some(id)
      && p[0] < |e.children|
      && (forall j :: 0 <= j < p[0] ==> !HasId(e.children[j], id))
      && FirstWithId(e.children[p[0]], p[1..], id)
  }

  /** `querySelector('[data-ardor-id="<id>"]')` over the body: the path of the
      first element in document order that carries `id`. */
  function FindById(e: Element, id: string): (r: Option<Path>)
    ensures r.Some? ==> ValidPath(e, r.value) && IdOf(At(e, r.value)) == Some(id)
    ensures r.Some? ==> FirstWithId(e, r.value, id)
    ensures r.None? <==> !HasId(e, id)
    decreases e, 1
  {
    if IdOf(e) == Some(id) then Some([])
    else FindInChildren(e.children, 0, id)
  }

  function FindInChildren(cs: seq<Element>, i: nat, id: string): (r: Option<Path>)
    requires i <= |cs|
    ensures r.Some? ==>
      (|r.value| > 0 && i <= r.value[0] < |cs|
       && ValidPath(cs[r.value[0]], r.value[1..]) && IdOf(At(cs[r.value[0]], r.value[1..])) == Some(id))
    ensures r.Some? ==>
      (forall j :: i <= j < r.value[0] ==> !HasId(cs[j], id))
      && FirstWithId(cs[r.value[0]], r.value[1..], id)
    ensures r.None? <==> forall j :: i <= j < |cs| ==> !HasId(cs[j], id)
    decreases cs, 0, |cs| - i
  {
    if i == |cs| then None
    else match FindById(cs[i], id)
      case Some(p) => assert ([i] + p)[1..] == p; Some([i] + p)
      case None => FindInChildren(cs, i + 1, id)
  }
}
