/**
 The UI tree of a uiautomator dump: which nodes are kept, and their frames as fractions of the display.
 */
module UiTree {

  import opened Options

  datatype Bounds = Bounds(x1: int, y1: int, x2: int, y2: int)

  /** A parsed node: its bounds where they could be read, and what decides whether it is worth keeping. */
  datatype Node = Node(bounds: Option<Bounds>, interactive: bool, password: bool, labelled: bool, named: bool)

  datatype Frame = Frame(x: real, y: real, width: real, height: real)

  datatype Element = Element(node: nat, frame: Frame)

  function Max(a: int, b: int): int { if a >= b then a else b }

  function Min(a: int, b: int): int { if a <= b then a else b }

  // ---------------------------------------------------------------- rounding

  function Round4(n: real): real {
    (n * 10000.0 + 0.5).Floor as real / 10000.0
  }

  function Floor4(n: real): real {
    var f := (n * 10000.0 + 0.000000001).Floor as real / 10000.0;
    if f < 0.0 then 0.0 else f
  }

  function Fraction(a: int, b: int): real
    requires b > 0
  {
    a as real / b as real
  }

  /** A near and a far edge as fractions, rounded: neither past the display, each within a rounding step. */
  predicate Rounded(near: real, far: real, at: real, length: real) {
    && 0.0 <= at && 0.0 <= length && at + length <= 1.0
    && -0.00005 <= at - near <= 0.00005
    && -0.0001 <= at + length - far <= 0.0001
  }

  lemma FloorBounds(x: real)
    ensures x.Floor as real <= x < x.Floor as real + 1.0
  {
  }

  lemma FloorBelow(x: real, n: int)
    requires x < n as real + 1.0
    ensures x.Floor <= n
  {
  }

  lemma RoundsWithin(near: real, far: real)
    requires 0.0 <= near < far <= 1.0
    ensures Rounded(near, far, Round4(near), Floor4(far - Round4(near)))
  {
    var m := (near * 10000.0 + 0.5).Floor;
    var v := (far - Round4(near)) * 10000.0 + 0.000000001;
    FloorBounds(near * 10000.0 + 0.5);
    FloorBounds(v);
    FloorBelow(v, 10000 - m);
  }

  lemma Signs(a: real, b: real)
    requires b > 0.0
    ensures a > 0.0 ==> a * b > 0.0
    ensures a < 0.0 ==> a * b < 0.0
  {
  }

  lemma FractionsOrdered(a: int, b: int, w: int)
    requires 0 <= a < b <= w
    ensures 0.0 <= Fraction(a, w) < Fraction(b, w) <= 1.0
  {
    FractionTimes(a, w);
    FractionTimes(b, w);
    hide Fraction;
    OrderedTimes(Fraction(a, w), Fraction(b, w), w as real);
  }

  lemma FractionTimes(a: int, w: int)
    requires w > 0
    ensures Fraction(a, w) * w as real == a as real
  {
  }

  lemma TimesMinus(x: real, y: real, r: real)
    ensures (x - y) * r == x * r - y * r
  {
  }

  lemma OrderedTimes(x: real, y: real, r: real)
    requires r > 0.0 && 0.0 <= x * r < y * r <= r
    ensures 0.0 <= x < y <= 1.0
  {
    Signs(x, r);
    TimesMinus(y, x, r);
    Signs(y - x, r);
    TimesMinus(y, 1.0, r);
    Signs(y - 1.0, r);
  }

  // ---------------------------------------------------------------- one node

  /** The part of a node on the display. */
  function Clipped(b: Bounds, w: int, h: int): Bounds {
    Bounds(Max(0, b.x1), Max(0, b.y1), Min(w, b.x2), Min(h, b.y2))
  }

  predicate Shows(c: Bounds) {
    c.x2 > c.x1 && c.y2 > c.y1
  }

  predicate Kept(n: Node) {
    n.interactive || n.password || n.labelled || n.named
  }

  function FrameOf(c: Bounds, w: int, h: int): Frame
    requires w > 0 && h > 0
  {
    var x, y := Round4(Fraction(c.x1, w)), Round4(Fraction(c.y1, h));
    Frame(x, y, Floor4(Fraction(c.x2, w) - x), Floor4(Fraction(c.y2, h) - y))
  }

  predicate Emits(n: Node, w: int, h: int) {
    n.bounds.Some? && Shows(Clipped(n.bounds.value, w, h)) && Kept(n)
  }

  /** A frame that the consumers accept: within the unit square, and close to what was clipped. */
  predicate Faithful(f: Frame, c: Bounds, w: int, h: int)
    requires w > 0 && h > 0
  {
    && Rounded(Fraction(c.x1, w), Fraction(c.x2, w), f.x, f.width)
    && Rounded(Fraction(c.y1, h), Fraction(c.y2, h), f.y, f.height)
  }

  lemma FramesAreFaithful(b: Bounds, w: int, h: int)
    requires w > 0 && h > 0 && Shows(Clipped(b, w, h))
    ensures Faithful(FrameOf(Clipped(b, w, h), w, h), Clipped(b, w, h), w, h)
  {
    hide Rounded, Round4, Floor4, Fraction;
    var c := Clipped(b, w, h);
    FractionsOrdered(c.x1, c.x2, w);
    FractionsOrdered(c.y1, c.y2, h);
    RoundsWithin(Fraction(c.x1, w), Fraction(c.x2, w));
    RoundsWithin(Fraction(c.y1, h), Fraction(c.y2, h));
  }

  // ---------------------------------------------------------------- the whole dump

  /** The far extents of the nodes, from where they start. */
  function Extents(nodes: seq<Node>, w: int, h: int): (int, int)
    decreases |nodes|
  {
    if nodes == [] then (w, h)
    else match nodes[0].bounds
      case None => Extents(nodes[1..], w, h)
      case Some(b) => Extents(nodes[1..], Max(w, b.x2), Max(h, b.y2))
  }

  /** The display: the root's far corner, or the farthest any node reaches where that is degenerate. */
  function Display(nodes: seq<Node>): (int, int)
    requires nodes != []
  {
    var root := nodes[0].bounds;
    var w, h := if root.Some? then root.value.x2 else 0, if root.Some? then root.value.y2 else 0;
    if w <= 0 || h <= 0 then Extents(nodes, w, h) else (w, h)
  }

  function ElementsFrom(nodes: seq<Node>, i: nat, w: int, h: int): seq<Element>
    requires w > 0 && h > 0 && i <= |nodes|
    decreases |nodes| - i
  {
    if i == |nodes| then []
    else if Emits(nodes[i], w, h) then
      [Element(i, FrameOf(Clipped(nodes[i].bounds.value, w, h), w, h))] + ElementsFrom(nodes, i + 1, w, h)
    else ElementsFrom(nodes, i + 1, w, h)
  }

  /** None where nothing usable was dumped. */
  function Elements(nodes: seq<Node>): Option<seq<Element>> {
    if nodes == [] then Some([])
    else
      var (w, h) := Display(nodes);
      if w <= 0 || h <= 0 then None else Some(ElementsFrom(nodes, 0, w, h))
  }

  lemma {:induction false} ElementsFromAre(nodes: seq<Node>, i: nat, w: int, h: int, e: Element)
    requires w > 0 && h > 0 && i <= |nodes|
    ensures e in ElementsFrom(nodes, i, w, h) <==>
              && i <= e.node < |nodes| && Emits(nodes[e.node], w, h)
              && e.frame == FrameOf(Clipped(nodes[e.node].bounds.value, w, h), w, h)
    decreases |nodes| - i
  {
    hide FrameOf, Emits, Clipped;
    if i < |nodes| { ElementsFromAre(nodes, i + 1, w, h, e); }
  }

  /** Elements of ever later nodes, none before node i. */
  ghost predicate InOrder(es: seq<Element>, i: nat) {
    && (forall k | 0 <= k < |es| :: i <= es[k].node)
    && (forall j, k | 0 <= j < k < |es| :: es[j].node < es[k].node)
  }

  lemma PutBefore(e: Element, rest: seq<Element>)
    requires InOrder(rest, e.node + 1)
    ensures InOrder([e] + rest, e.node)
  {
    var es := [e] + rest;
    forall j, k | 0 <= j < k < |es| ensures es[j].node < es[k].node { assert es[k] == rest[k - 1]; }
  }

  lemma {:induction false} ElementsInOrder(nodes: seq<Node>, i: nat, w: int, h: int)
    requires w > 0 && h > 0 && i <= |nodes|
    ensures InOrder(ElementsFrom(nodes, i, w, h), i)
    decreases |nodes| - i
  {
    if i < |nodes| {
      ElementsInOrder(nodes, i + 1, w, h);
      if Emits(nodes[i], w, h) {
        PutBefore(Element(i, FrameOf(Clipped(nodes[i].bounds.value, w, h), w, h)), ElementsFrom(nodes, i + 1, w, h));
      }
    }
  }

  lemma OnlyTheShownAreEmitted(nodes: seq<Node>)
    requires nodes != [] && Elements(nodes).Some?
    ensures var (w, h) := Display(nodes);
            var es := Elements(nodes).value;
            && w > 0 && h > 0
            && (forall i | 0 <= i < |nodes| :: Emits(nodes[i], w, h) <==> exists k :: 0 <= k < |es| && es[k].node == i)
            && (forall j, k | 0 <= j < k < |es| :: es[j].node < es[k].node)
            && (forall k | 0 <= k < |es| :: es[k].node < |nodes| && Emits(nodes[es[k].node], w, h)
                                            && Faithful(es[k].frame, Clipped(nodes[es[k].node].bounds.value, w, h), w, h))
  {
    hide FrameOf, Clipped, Shows, Kept, Faithful, ElementsFrom;
    var (w, h) := Display(nodes);
    var es := ElementsFrom(nodes, 0, w, h);
    ElementsInOrder(nodes, 0, w, h);
    forall k | 0 <= k < |es|
      ensures es[k].node < |nodes| && Emits(nodes[es[k].node], w, h)
      ensures Faithful(es[k].frame, Clipped(nodes[es[k].node].bounds.value, w, h), w, h)
    {
      ElementsFromAre(nodes, 0, w, h, es[k]);
      FramesAreFaithful(nodes[es[k].node].bounds.value, w, h);
    }
    forall i | 0 <= i < |nodes| && Emits(nodes[i], w, h) ensures exists k :: 0 <= k < |es| && es[k].node == i {
      var e := Element(i, FrameOf(Clipped(nodes[i].bounds.value, w, h), w, h));
      ElementsFromAre(nodes, 0, w, h, e);
      var k :| 0 <= k < |es| && es[k] == e;
    }
  }

  // ---------------------------------------------------------------- what that means of the dump

  /** Some of the node's area is on the display. */
  predicate Visible(b: Bounds, w: int, h: int) {
    b.x1 < b.x2 && b.y1 < b.y2 && b.x1 < w && b.x2 > 0 && b.y1 < h && b.y2 > 0
  }

  /** It has bounds that are visible, and it can be acted on, holds a password, has a label or a name of its own. */
  predicate WorthAnElement(n: Node, w: int, h: int) {
    n.bounds.Some? && Visible(n.bounds.value, w, h) && (n.interactive || n.password || n.labelled || n.named)
  }

  /** The frame lies in the unit square; its near edge is the node's, or the display's where the node begins before
      it, within half a rounding step; its far edge is the node's, or the display's where the node ends after it,
      within a rounding step. */
  predicate Follows(at: real, length: real, from: int, to: int, size: int)
    requires size > 0
  {
    var near := if from <= 0 then 0.0 else from as real / size as real;
    var far := if to >= size then 1.0 else to as real / size as real;
    && 0.0 <= at && 0.0 <= length && at + length <= 1.0
    && -0.00005 <= at - near <= 0.00005
    && -0.0001 <= at + length - far <= 0.0001
  }

  /** The display is as wide and as high as the root's far corner, and where that does not say, as the farthest any
      node reaches. */
  predicate Reaches(nodes: seq<Node>, w: int, h: int)
    requires nodes != []
  {
    var root := nodes[0].bounds;
    if root.Some? && root.value.x2 > 0 && root.value.y2 > 0 then w == root.value.x2 && h == root.value.y2
    else
      && (forall n | n in nodes && n.bounds.Some? :: n.bounds.value.x2 <= w && n.bounds.value.y2 <= h)
      && (w > 0 ==> exists n :: n in nodes && n.bounds.Some? && n.bounds.value.x2 == w)
      && (h > 0 ==> exists n :: n in nodes && n.bounds.Some? && n.bounds.value.y2 == h)
  }

  lemma {:induction false} ExtentsReach(nodes: seq<Node>, w: int, h: int)
    ensures var (x, y) := Extents(nodes, w, h);
            && w <= x && h <= y
            && (forall n | n in nodes && n.bounds.Some? :: n.bounds.value.x2 <= x && n.bounds.value.y2 <= y)
            && (x > w ==> exists n :: n in nodes && n.bounds.Some? && n.bounds.value.x2 == x)
            && (y > h ==> exists n :: n in nodes && n.bounds.Some? && n.bounds.value.y2 == y)
    decreases |nodes|
  {
    if nodes != [] {
      assert nodes == [nodes[0]] + nodes[1..];
      match nodes[0].bounds
      case None => ExtentsReach(nodes[1..], w, h);
      case Some(b) =>
        assert nodes[0] in nodes;
        ExtentsReach(nodes[1..], Max(w, b.x2), Max(h, b.y2));
    }
  }

  lemma DisplayReaches(nodes: seq<Node>)
    requires nodes != []
    ensures var (w, h) := Display(nodes); Reaches(nodes, w, h)
  {
    var root := nodes[0].bounds;
    var w, h := if root.Some? then root.value.x2 else 0, if root.Some? then root.value.y2 else 0;
    ExtentsReach(nodes, w, h);
    assert nodes[0] in nodes;
  }

  lemma EmitsTheWorthy(n: Node, w: int, h: int)
    requires w > 0 && h > 0
    ensures Emits(n, w, h) <==> WorthAnElement(n, w, h)
  {
  }

  lemma WholeIsOne(w: int)
    requires w > 0
    ensures Fraction(w, w) == 1.0 && Fraction(0, w) == 0.0
  {
    var r := w as real;
    assert Fraction(w, w) * r == r;
  }

  lemma FaithfulFollows(f: Frame, b: Bounds, w: int, h: int)
    requires w > 0 && h > 0 && Visible(b, w, h) && Faithful(f, Clipped(b, w, h), w, h)
    ensures Follows(f.x, f.width, b.x1, b.x2, w) && Follows(f.y, f.height, b.y1, b.y2, h)
  {
    hide Follows, Rounded;
    AxisFollows(f.x, f.width, b.x1, b.x2, w);
    AxisFollows(f.y, f.height, b.y1, b.y2, h);
  }

  lemma AxisFollows(at: real, length: real, from: int, to: int, size: int)
    requires size > 0 && Rounded(Fraction(Max(0, from), size), Fraction(Min(size, to), size), at, length)
    ensures Follows(at, length, from, to, size)
  {
    WholeIsOne(size);
    hide Rounded;
    NearAndFar(at, length, Fraction(Max(0, from), size), Fraction(Min(size, to), size));
  }

  lemma NearAndFar(at: real, length: real, near: real, far: real)
    requires Rounded(near, far, at, length)
    ensures 0.0 <= at && 0.0 <= length && at + length <= 1.0
    ensures -0.00005 <= at - near <= 0.00005 && -0.0001 <= at + length - far <= 0.0001
  {
  }

  /** Whatever the dump: where it gives a display, that is the root's or the farthest any node reaches; a node becomes an
      element exactly when some of it is on the display and it is worth one, in document order; and every frame
      follows its node. */
  lemma EveryFrameIsFaithful(nodes: seq<Node>)
    requires nodes != [] && Elements(nodes).Some?
    ensures var (w, h) := Display(nodes);
            var es := Elements(nodes).value;
            && w > 0 && h > 0 && Reaches(nodes, w, h)
            && (forall i | 0 <= i < |nodes| :: WorthAnElement(nodes[i], w, h) <==> exists k :: 0 <= k < |es| && es[k].node == i)
            && (forall j, k | 0 <= j < k < |es| :: es[j].node < es[k].node)
            && (forall k | 0 <= k < |es| ::
                  && es[k].node < |nodes| && nodes[es[k].node].bounds.Some?
                  && var (f, b) := (es[k].frame, nodes[es[k].node].bounds.value);
                     Follows(f.x, f.width, b.x1, b.x2, w) && Follows(f.y, f.height, b.y1, b.y2, h))
  {
    hide Elements, Display, Emits, Reaches, Faithful, Follows, Visible;
    OnlyTheShownAreEmitted(nodes);
    DisplayReaches(nodes);
    var (w, h) := Display(nodes);
    var es := Elements(nodes).value;
    forall i | 0 <= i < |nodes|
      ensures Emits(nodes[i], w, h) <==> WorthAnElement(nodes[i], w, h)
    {
      EmitsTheWorthy(nodes[i], w, h);
    }
    forall k | 0 <= k < |es|
      ensures es[k].node < |nodes| && nodes[es[k].node].bounds.Some?
      ensures var (f, b) := (es[k].frame, nodes[es[k].node].bounds.value);
              Follows(f.x, f.width, b.x1, b.x2, w) && Follows(f.y, f.height, b.y1, b.y2, h)
    {
      FaithfulFollows(es[k].frame, nodes[es[k].node].bounds.value, w, h);
    }
  }

  /** A dump with nodes gives no tree exactly when none of them reaches right of the origin, or none below it. */
  lemma NoTreeWithoutADisplay(nodes: seq<Node>)
    requires nodes != []
    ensures Elements(nodes).None? <==>
            || (forall n | n in nodes && n.bounds.Some? :: n.bounds.value.x2 <= 0)
            || (forall n | n in nodes && n.bounds.Some? :: n.bounds.value.y2 <= 0)
  {
    hide Display;
    DisplayReaches(nodes);
    assert nodes[0] in nodes;
  }

  /** The dump's loops. */
  method ParseNodes(nodes: seq<Node>) returns (elements: Option<seq<Element>>)
    ensures elements == Elements(nodes)
  {
    if nodes == [] { return Some([]); }
    var root := nodes[0].bounds;
    var width, height := if root.Some? then root.value.x2 else 0, if root.Some? then root.value.y2 else 0;
    if width <= 0 || height <= 0 {
      ghost var all := Extents(nodes, width, height);
      assert nodes[0..] == nodes;
      for i := 0 to |nodes|
        invariant Extents(nodes[i..], width, height) == all
      {
        assert nodes[i..][1..] == nodes[i + 1..];
        if nodes[i].bounds.None? { continue; }
        width := Max(width, nodes[i].bounds.value.x2);
        height := Max(height, nodes[i].bounds.value.y2);
      }
      assert nodes[|nodes|..] == [];
    }
    assert (width, height) == Display(nodes);
    if width <= 0 || height <= 0 { return None; }
    var es := [];
    for i := 0 to |nodes|
      invariant es + ElementsFrom(nodes, i, width, height) == ElementsFrom(nodes, 0, width, height)
    {
      if nodes[i].bounds.None? { continue; }
      var c := Clipped(nodes[i].bounds.value, width, height);
      if !Shows(c) || !Kept(nodes[i]) { continue; }
      es := es + [Element(i, FrameOf(c, width, height))];
    }
    assert es + [] == es;
    elements := Some(es);
  }
}
