/**
 * The sprite scene as values: every sprite is a node of an arena indexed by
 * `nat`, with its parent link (`setParent`/`getParent`) and its child list
 * (`_childList`) kept apart, because `removeChild` drops a child from the
 * list but leaves its parent link alone. The traversals `update` and
 * `createUI` are specified here as the event logs they produce.
 */
module SpriteTree {
  import opened Wrappers
  import opened JavaNumeric

  /** One animation frame: the image and how long it shows. */
  datatype Frame = Frame(image: int, timer: int)

  /**
   * A sprite. `transformed` is true when the sprite's transform is not
   * `LTrans.TRANS_NONE`, so that it is drawn as a region; `maxFrame` is the
   * frame count that `setAnimation` records.
   */
  datatype Node = Node(
    x: real, y: real, visible: bool, alpha: real, rotation: real, scaleX: real, scaleY: real,
    layer: int, transformed: bool, parent: Option<nat>, children: seq<nat>,
    frames: seq<Frame>, maxFrame: int)

  datatype Axis = Horizontal | Vertical

  function Coord(s: Node, a: Axis): real {
    match a
    case Horizontal => s.x
    case Vertical => s.y
  }

  /** Every parent link and every child entry names a node of the arena. */
  predicate Linked(nodes: seq<Node>, s: Node) {
    && (s.parent.Some? ==> s.parent.value < |nodes|)
    && forall k :: 0 <= k < |s.children| ==> s.children[k] < |nodes|
  }

  predicate WellFormed(nodes: seq<Node>) {
    forall i :: 0 <= i < |nodes| ==> Linked(nodes, nodes[i])
  }

  /**
   * `depth` witnesses that parent links have no cycle: a parent is shallower
   * than its child. Without it `getScreenX` and the offset loop of
   * `createUI` never end.
   */
  predicate ParentRanked(nodes: seq<Node>, depth: seq<nat>) {
    && |depth| == |nodes|
    && forall i :: 0 <= i < |nodes| && nodes[i].parent.Some? && nodes[i].parent.value < |depth| ==>
         depth[nodes[i].parent.value] < depth[i]
  }

  /**
   * `height` witnesses that child lists have no cycle: every child is lower
   * than the sprite listing it. Without it `update` and `createUI` recurse
   * forever.
   */
  predicate ChildRanked(nodes: seq<Node>, height: seq<nat>) {
    && |height| == |nodes|
    && forall i, k :: 0 <= i < |nodes| && 0 <= k < |nodes[i].children| && nodes[i].children[k] < |height| ==>
         height[nodes[i].children[k]] < height[i]
  }

  predicate Ranked(nodes: seq<Node>, depth: seq<nat>, height: seq<nat>) {
    WellFormed(nodes) && ParentRanked(nodes, depth) && ChildRanked(nodes, height)
  }

  /**
   * `getScreenX`/`getScreenY`: the sum of the coordinates of every ancestor,
   * following parent links; 0 for a sprite without a parent.
   */
  function AncestorSum(nodes: seq<Node>, depth: seq<nat>, n: nat, a: Axis): (r: real)
    requires WellFormed(nodes) && ParentRanked(nodes, depth) && n < |nodes|
    ensures nodes[n].parent.None? ==> r == 0.0
    ensures (forall i :: 0 <= i < |nodes| ==> Coord(nodes[i], a) >= 0.0) ==> r >= 0.0
    decreases depth[n]
  {
    match nodes[n].parent
    case None => 0.0
    case Some(p) => Coord(nodes[p], a) + AncestorSum(nodes, depth, p, a)
  }

  /** A grandchild at (5,5) under a sprite at (10,10) under a root at (100,100) is on screen at (115,115). */
  lemma GrandchildScreenPosition()
    ensures var nodes := [Plain(100.0, 100.0, None), Plain(10.0, 10.0, Some(0)), Plain(5.0, 5.0, Some(1))];
      && WellFormed(nodes) && ParentRanked(nodes, [0, 1, 2])
      && nodes[2].x + AncestorSum(nodes, [0, 1, 2], 2, Horizontal) == 115.0
      && nodes[2].y + AncestorSum(nodes, [0, 1, 2], 2, Vertical) == 115.0
  {
    var nodes := [Plain(100.0, 100.0, None), Plain(10.0, 10.0, Some(0)), Plain(5.0, 5.0, Some(1))];
    assert WellFormed(nodes) by {
      forall i | 0 <= i < |nodes| ensures Linked(nodes, nodes[i]) {}
    }
    assert AncestorSum(nodes, [0, 1, 2], 0, Horizontal) == 0.0;
    assert AncestorSum(nodes, [0, 1, 2], 0, Vertical) == 0.0;
  }

  /** A visible sprite at (x, y) with no frames, no children and the defaults of a new sprite. */
  function Plain(x: real, y: real, parent: Option<nat>): (s: Node)
    ensures s.x == x && s.y == y && s.parent == parent && s.children == []
  {
    Node(x, y, true, 1.0, 0.0, 1.0, 1.0, 0, false, parent, [], [], -1)
  }

  // ---------------------------------------------------------------------------
  // update

  datatype UpdateEvent = AnimationUpdate(node: nat, elapsed: int) | OnUpdate(node: nat, elapsed: int)

  /**
   * `update`: an invisible sprite does nothing; a visible one advances its
   * animation, runs its own `onUpdate`, then updates every child in list
   * order. Alpha is not looked at.
   */
  function UpdateTrace(nodes: seq<Node>, height: seq<nat>, n: nat, elapsed: int): (r: seq<UpdateEvent>)
    requires WellFormed(nodes) && ChildRanked(nodes, height) && n < |nodes|
    ensures r != [] <==> nodes[n].visible
    ensures r != [] ==> r[0] == AnimationUpdate(n, elapsed)
    ensures forall e :: e in r ==> e.elapsed == elapsed
    decreases height[n], 1
  {
    if !nodes[n].visible then []
    else [AnimationUpdate(n, elapsed), OnUpdate(n, elapsed)] + UpdateChildren(nodes, height, n, 0, elapsed)
  }

  /** The updates of the children of `n` from position `k` of its list on. */
  function UpdateChildren(nodes: seq<Node>, height: seq<nat>, n: nat, k: nat, elapsed: int): (r: seq<UpdateEvent>)
    requires WellFormed(nodes) && ChildRanked(nodes, height) && n < |nodes| && k <= |nodes[n].children|
    ensures forall e :: e in r ==> e.elapsed == elapsed
    decreases height[n], 0, |nodes[n].children| - k
  {
    if k == |nodes[n].children| then []
    else
      assert Linked(nodes, nodes[n]);
      UpdateTrace(nodes, height, nodes[n].children[k], elapsed) + UpdateChildren(nodes, height, n, k + 1, elapsed)
  }

  /** Every event of an update names a visible sprite. */
  lemma {:induction false} UpdateOnlyVisible(nodes: seq<Node>, height: seq<nat>, n: nat, elapsed: int)
    requires WellFormed(nodes) && ChildRanked(nodes, height) && n < |nodes|
    ensures forall e :: e in UpdateTrace(nodes, height, n, elapsed) ==> e.node < |nodes| && nodes[e.node].visible
    decreases height[n], 1
  {
    if nodes[n].visible {
      UpdateChildrenOnlyVisible(nodes, height, n, 0, elapsed);
    }
  }

  lemma {:induction false} UpdateChildrenOnlyVisible(nodes: seq<Node>, height: seq<nat>, n: nat, k: nat, elapsed: int)
    requires WellFormed(nodes) && ChildRanked(nodes, height) && n < |nodes| && k <= |nodes[n].children|
    ensures forall e :: e in UpdateChildren(nodes, height, n, k, elapsed) ==> e.node < |nodes| && nodes[e.node].visible
    decreases height[n], 0, |nodes[n].children| - k
  {
    if k < |nodes[n].children| {
      assert Linked(nodes, nodes[n]);
      UpdateOnlyVisible(nodes, height, nodes[n].children[k], elapsed);
      UpdateChildrenOnlyVisible(nodes, height, n, k + 1, elapsed);
    }
  }

  /** Changing one sprite's alpha changes nothing about any update. */
  lemma {:induction false} UpdateIgnoresAlpha(nodes: seq<Node>, height: seq<nat>, n: nat, elapsed: int, m: nat, alpha: real)
    requires WellFormed(nodes) && ChildRanked(nodes, height) && n < |nodes| && m < |nodes|
    ensures WellFormed(nodes[m := nodes[m].(alpha := alpha)]) && ChildRanked(nodes[m := nodes[m].(alpha := alpha)], height)
    ensures UpdateTrace(nodes[m := nodes[m].(alpha := alpha)], height, n, elapsed) == UpdateTrace(nodes, height, n, elapsed)
    decreases height[n], 1
  {
    var other := nodes[m := nodes[m].(alpha := alpha)];
    assert forall i :: 0 <= i < |nodes| ==> other[i].children == nodes[i].children && other[i].parent == nodes[i].parent;
    assert WellFormed(other) by {
      forall i | 0 <= i < |other| ensures Linked(other, other[i]) { assert Linked(nodes, nodes[i]); }
    }
    if nodes[n].visible {
      UpdateChildrenIgnoreAlpha(nodes, height, n, 0, elapsed, m, alpha);
    }
  }

  lemma {:induction false} UpdateChildrenIgnoreAlpha(nodes: seq<Node>, height: seq<nat>, n: nat, k: nat, elapsed: int,
                                                     m: nat, alpha: real)
    requires WellFormed(nodes) && ChildRanked(nodes, height) && n < |nodes| && k <= |nodes[n].children| && m < |nodes|
    requires WellFormed(nodes[m := nodes[m].(alpha := alpha)]) && ChildRanked(nodes[m := nodes[m].(alpha := alpha)], height)
    ensures UpdateChildren(nodes[m := nodes[m].(alpha := alpha)], height, n, k, elapsed) == UpdateChildren(nodes, height, n, k, elapsed)
    decreases height[n], 0, |nodes[n].children| - k
  {
    if k < |nodes[n].children| {
      var other := nodes[m := nodes[m].(alpha := alpha)];
      assert Linked(nodes, nodes[n]);
      assert other[n].children == nodes[n].children;
      UpdateIgnoresAlpha(nodes, height, nodes[n].children[k], elapsed, m, alpha);
      UpdateChildrenIgnoreAlpha(nodes, height, n, k + 1, elapsed, m, alpha);
    }
  }

  // ---------------------------------------------------------------------------
  // createUI

  /** What `createUI` does to the graphics context, in order. */
  datatype DrawEvent =
    | SaveTx | RestoreTx | SetAlpha(alpha: real) | SetColor(color: int)
    | DrawImage(node: nat, image: int, x: real, y: real)    // `g.draw` at the float position
    | DrawRegion(node: nat, image: int, ix: int, iy: int)   // `g.drawRegion` at the position cast to int

  /** Culled: invisible, or `_alpha < 0.01`. */
  predicate Culled(s: Node): (r: bool)
    ensures !s.visible ==> r
    ensures s.alpha == 0.0 ==> r
    ensures s.visible && s.alpha >= 1.0 ==> !r
  {
    !s.visible || s.alpha < 0.01
  }

  /** The animation shows an image when its current index names a frame. */
  predicate HasImage(s: Node, index: int) {
    0 <= index < |s.frames|
  }

  /** `image` is the image of one of the sprite's frames. */
  predicate FrameImage(s: Node, image: int) {
    exists i :: 0 <= i < |s.frames| && s.frames[i].image == image
  }

  /** `saveTx`/`restoreTx` happen exactly for a rotated or scaled sprite. */
  predicate Transforms(s: Node) {
    s.rotation != 0.0 || !(s.scaleX == 1.0 && s.scaleY == 1.0)
  }

  /** The frame index after `createUI`'s check: reset to 0 once it is past `maxFrame`. */
  function CheckedIndex(s: Node, index: int): (r: int)
    ensures r == index || r == 0
    ensures r <= s.maxFrame || s.maxFrame < 0
    ensures index <= s.maxFrame ==> r == index
  {
    if index > s.maxFrame then 0 else index
  }

  /**
   * The image draw call of a sprite at (nx, ny): none without an image, else
   * the image of the frame `index` names, as a region when transformed.
   */
  function ImageDraw(s: Node, n: nat, index: int, nx: real, ny: real): (r: seq<DrawEvent>)
    ensures r != [] <==> HasImage(s, index)
    ensures r != [] ==> |r| == 1 && if s.transformed then r[0].DrawRegion? else r[0].DrawImage? && r[0].x == nx && r[0].y == ny
    ensures r != [] ==> r[0].node == n && r[0].image == s.frames[index].image
  {
    if !HasImage(s, index) then []
    else if s.transformed then [DrawRegion(n, s.frames[index].image, TruncToZero(nx), TruncToZero(ny))]
    else [DrawImage(n, s.frames[index].image, nx, ny)]
  }

  /**
   * The calls `createUI` makes for a sprite that shows, around the calls
   * `children` its child list makes: `saveTx` when transformed, the alpha,
   * the image at (nx, ny), the children, and in the `finally` block the
   * colour `color` and `restoreTx`.
   */
  function Framing(s: Node, n: nat, index: int, nx: real, ny: real, children: seq<DrawEvent>, color: int)
    : seq<DrawEvent>
  {
    Opening(s) + ImageDraw(s, n, index, nx, ny) + children + Closing(s, color)
  }

  /**
   * A frame adds two calls around the image and the children, four for a
   * rotated or scaled sprite: it opens with `saveTx` (or the alpha) and
   * closes with `restoreTx` (or the colour), and the children's calls sit
   * inside it unchanged.
   */
  lemma FramingShape(s: Node, n: nat, index: int, nx: real, ny: real, children: seq<DrawEvent>, color: int)
    ensures var r := Framing(s, n, index, nx, ny, children, color);
      var m := |Opening(s)| + |ImageDraw(s, n, index, nx, ny)|;
      && |r| == |children| + |ImageDraw(s, n, index, nx, ny)| + (if Transforms(s) then 4 else 2)
      && r[0] == (if Transforms(s) then SaveTx else SetAlpha(s.alpha))
      && r[|r| - 1] == (if Transforms(s) then RestoreTx else SetColor(color))
      && r[m..m + |children|] == children
  {
    var r := Framing(s, n, index, nx, ny, children, color);
    var m := |Opening(s)| + |ImageDraw(s, n, index, nx, ny)|;
    assert r == (Opening(s) + ImageDraw(s, n, index, nx, ny)) + children + Closing(s, color);
    assert r[m..m + |children|] == children;
  }

  function Opening(s: Node): seq<DrawEvent> {
    (if Transforms(s) then [SaveTx] else []) + [SetAlpha(s.alpha)]
  }

  function Closing(s: Node, color: int): seq<DrawEvent> {
    [SetColor(color)] + (if Transforms(s) then [RestoreTx] else [])
  }

  /** The alpha a log leaves the context at: that of its last `setAlpha`, or `a` when it sets none. */
  function AlphaAfter(es: seq<DrawEvent>, a: real): real {
    AlphaWithin(es, |es|, a)
  }

  /** The alpha after the first `k` calls of a log. */
  function AlphaWithin(es: seq<DrawEvent>, k: nat, a: real): real
    requires k <= |es|
  {
    if k == 0 then a
    else if es[k - 1].SetAlpha? then es[k - 1].alpha
    else AlphaWithin(es, k - 1, a)
  }

  /** The first calls of a longer log set the alpha as they do on their own. */
  lemma {:induction false} AlphaWithinPrefix(x: seq<DrawEvent>, y: seq<DrawEvent>, k: nat, a: real)
    requires k <= |x|
    ensures AlphaWithin(x + y, k, a) == AlphaWithin(x, k, a)
  {
    if k > 0 {
      assert (x + y)[k - 1] == x[k - 1];
      AlphaWithinPrefix(x, y, k - 1, a);
    }
  }

  /** Calls past a first log go on from the alpha that log leaves. */
  lemma {:induction false} AlphaWithinSuffix(x: seq<DrawEvent>, y: seq<DrawEvent>, k: nat, a: real)
    requires k <= |y|
    ensures AlphaWithin(x + y, |x| + k, a) == AlphaWithin(y, k, AlphaAfter(x, a))
  {
    if k == 0 {
      AlphaWithinPrefix(x, y, |x|, a);
    } else {
      assert (x + y)[|x| + k - 1] == y[k - 1];
      AlphaWithinSuffix(x, y, k - 1, a);
    }
  }

  /** The alpha after two logs is that of the second, started from the alpha the first leaves. */
  lemma AlphaAfterAppend(x: seq<DrawEvent>, y: seq<DrawEvent>, a: real)
    ensures AlphaAfter(x + y, a) == AlphaAfter(y, AlphaAfter(x, a))
  {
    AlphaWithinSuffix(x, y, |y|, a);
  }

  /**
   * `createUI` sets the sprite's alpha and never restores it: after the
   * frame of a sprite that shows, the context holds the alpha its children's
   * log leaves, starting from the sprite's own.
   */
  lemma FramingAlpha(s: Node, n: nat, index: int, nx: real, ny: real, children: seq<DrawEvent>, color: int, a: real)
    ensures AlphaAfter(Framing(s, n, index, nx, ny, children, color), a) == AlphaAfter(children, s.alpha)
  {
    var open, image, close := Opening(s), ImageDraw(s, n, index, nx, ny), Closing(s, color);
    assert open[|open| - 1] == SetAlpha(s.alpha);
    AlphaAfterAppend(open, image, a);
    if image != [] {
      assert AlphaWithin(image, 1, s.alpha) == AlphaWithin(image, 0, s.alpha);
    }
    AlphaAfterAppend(open + image, children, a);
    AlphaAfterAppend(open + image + children, close, a);
    var b := AlphaAfter(children, s.alpha);
    assert AlphaWithin(close, 1, b) == b;
    if Transforms(s) {
      assert AlphaWithin(close, 2, b) == AlphaWithin(close, 1, b);
    }
  }

  /** Concatenation regrouped. */
  lemma Associate(a: seq<DrawEvent>, b: seq<DrawEvent>, c: seq<DrawEvent>)
    ensures a + b + c == a + (b + c)
  {
  }

  /** Concatenation regrouped. */
  lemma Regroup(e: seq<DrawEvent>, a: seq<DrawEvent>, b: seq<DrawEvent>, c: seq<DrawEvent>, d: seq<DrawEvent>)
    ensures e + a + b + c + d == e + (a + b + c + d)
  {
  }

  /**
   * `createUI(g, ox, oy)` for sprite `n`, with the animations' frame
   * indices `index` and the graphics colour `color` on entry: the new
   * indices and the events. A culled sprite does nothing. Otherwise the
   * frame index is reset once it is past `maxFrame`; a sprite whose
   * animation has frames but no current image stops there. Then come
   * `saveTx` when transformed, the alpha, the image at (x + ox, y + oy),
   * every child in list order, each at the sum of ITS ancestors'
   * coordinates (not at `ox`/`oy`), and in the `finally` block the colour
   * and `restoreTx`.
   */
  function Draw(nodes: seq<Node>, depth: seq<nat>, height: seq<nat>, index: seq<int>, n: nat,
                ox: real, oy: real, color: int): (r: (seq<int>, seq<DrawEvent>))
    requires Ranked(nodes, depth, height) && |index| == |nodes| && n < |nodes|
    ensures |r.0| == |index|
    ensures forall i :: 0 <= i < |index| ==> r.0[i] == index[i] || r.0[i] == 0
    decreases height[n], 1
  {
    var s := nodes[n];
    if Culled(s) then (index, [])
    else
      var index1 := index[n := CheckedIndex(s, index[n])];
      if |s.frames| > 0 && !HasImage(s, index1[n]) then (index1, [])
      else
        var (index2, children) := DrawChildren(nodes, depth, height, index1, n, 0, color);
        (index2, Framing(s, n, index1[n], s.x + ox, s.y + oy, children, color))
  }

  /** The children of `n` from position `k` of its list on, each drawn at its own ancestors' sum. */
  function DrawChildren(nodes: seq<Node>, depth: seq<nat>, height: seq<nat>, index: seq<int>, n: nat, k: nat,
                        color: int): (r: (seq<int>, seq<DrawEvent>))
    requires Ranked(nodes, depth, height) && |index| == |nodes| && n < |nodes| && k <= |nodes[n].children|
    ensures |r.0| == |index|
    ensures forall i :: 0 <= i < |index| ==> r.0[i] == index[i] || r.0[i] == 0
    decreases height[n], 0, |nodes[n].children| - k
  {
    if k == |nodes[n].children| then (index, [])
    else
      assert Linked(nodes, nodes[n]);
      var c := nodes[n].children[k];
      var (index1, first) := Draw(nodes, depth, height, index, c, AncestorSum(nodes, depth, c, Horizontal),
                                  AncestorSum(nodes, depth, c, Vertical), color);
      var (index2, rest) := DrawChildren(nodes, depth, height, index1, n, k + 1, color);
      (index2, first + rest)
  }

  /** The transform depth change of one event. */
  function TxStep(e: DrawEvent): int {
    match e case SaveTx => 1 case RestoreTx => -1 case _ => 0
  }

  /** The transform depth change of a run of events. */
  function TxBalance(es: seq<DrawEvent>): int {
    if es == [] then 0 else TxStep(es[0]) + TxBalance(es[1..])
  }

  /** The lowest transform depth a run of events passes through, relative to where it starts. */
  function TxLow(es: seq<DrawEvent>): (r: int)
    ensures r <= 0
  {
    if es == [] then 0 else Min(0, TxStep(es[0]) + TxLow(es[1..]))
  }

  function Min(a: int, b: int): int {
    if a <= b then a else b
  }

  lemma {:induction false} TxBalanceAppend(a: seq<DrawEvent>, b: seq<DrawEvent>)
    ensures TxBalance(a + b) == TxBalance(a) + TxBalance(b)
  {
    if a == [] {
      assert a + b == b;
    } else {
      assert (a + b)[1..] == a[1..] + b;
      TxBalanceAppend(a[1..], b);
    }
  }

  /** `createUI` leaves the transform depth as it found it: every `saveTx` has its `restoreTx`. */
  lemma {:induction false} DrawBalanced(nodes: seq<Node>, depth: seq<nat>, height: seq<nat>, index: seq<int>, n: nat,
                                        ox: real, oy: real, color: int)
    requires Ranked(nodes, depth, height) && |index| == |nodes| && n < |nodes|
    ensures TxBalance(Draw(nodes, depth, height, index, n, ox, oy, color).1) == 0
    decreases height[n], 1
  {
    var s := nodes[n];
    if !Culled(s) {
      var index1 := index[n := CheckedIndex(s, index[n])];
      if !(|s.frames| > 0 && !HasImage(s, index1[n])) {
        DrawChildrenBalanced(nodes, depth, height, index1, n, 0, color);
        FramedBalance(s, n, index1[n], s.x + ox, s.y + oy, DrawChildren(nodes, depth, height, index1, n, 0, color).1,
                      color);
      }
    }
  }

  /** Draw calls leave the transform depth alone. */
  lemma {:induction false} DrawsBalanced(es: seq<DrawEvent>)
    requires forall k :: 0 <= k < |es| ==> es[k].DrawImage? || es[k].DrawRegion?
    ensures TxBalance(es) == 0
  {
    if es != [] {
      DrawsBalanced(es[1..]);
    }
  }

  /** The events around the children add nothing to the transform depth. */
  lemma FramedBalance(s: Node, n: nat, index: int, nx: real, ny: real, children: seq<DrawEvent>, color: int)
    ensures TxBalance(Framing(s, n, index, nx, ny, children, color)) == TxBalance(children)
  {
    var image := ImageDraw(s, n, index, nx, ny);
    TxBalanceAppend(if Transforms(s) then [SaveTx] else [], [SetAlpha(s.alpha)]);
    TxBalanceAppend([SetColor(color)], if Transforms(s) then [RestoreTx] else []);
    DrawsBalanced(image);
    TxBalanceAppend(Opening(s), image);
    TxBalanceAppend(Opening(s) + image, children);
    TxBalanceAppend(Opening(s) + image + children, Closing(s, color));
  }

  lemma {:induction false} DrawChildrenBalanced(nodes: seq<Node>, depth: seq<nat>, height: seq<nat>, index: seq<int>,
                                                n: nat, k: nat, color: int)
    requires Ranked(nodes, depth, height) && |index| == |nodes| && n < |nodes| && k <= |nodes[n].children|
    ensures TxBalance(DrawChildren(nodes, depth, height, index, n, k, color).1) == 0
    decreases height[n], 0, |nodes[n].children| - k
  {
    if k < |nodes[n].children| {
      assert Linked(nodes, nodes[n]);
      var c := nodes[n].children[k];
      var (index1, first) := Draw(nodes, depth, height, index, c, AncestorSum(nodes, depth, c, Horizontal),
                                  AncestorSum(nodes, depth, c, Vertical), color);
      DrawBalanced(nodes, depth, height, index, c, AncestorSum(nodes, depth, c, Horizontal),
                   AncestorSum(nodes, depth, c, Vertical), color);
      DrawChildrenBalanced(nodes, depth, height, index1, n, k + 1, color);
      TxBalanceAppend(first, DrawChildren(nodes, depth, height, index1, n, k + 1, color).1);
    }
  }

  lemma {:induction false} TxLowAppend(a: seq<DrawEvent>, b: seq<DrawEvent>)
    ensures TxLow(a + b) == Min(TxLow(a), TxBalance(a) + TxLow(b))
  {
    if a == [] {
      assert a + b == b;
    } else {
      assert (a + b)[1..] == a[1..] + b;
      TxLowAppend(a[1..], b);
    }
  }

  /** No prefix of a run goes below its lowest depth. */
  lemma {:induction false} TxLowPrefix(es: seq<DrawEvent>, j: nat)
    requires j <= |es|
    ensures TxBalance(es[..j]) >= TxLow(es)
  {
    if j > 0 {
      assert es[..j][1..] == es[1..][..j - 1];
      TxLowPrefix(es[1..], j - 1);
    }
  }

  /** A frame around children that never go below their start never goes below its own start. */
  lemma FramedNesting(s: Node, n: nat, index: int, nx: real, ny: real, children: seq<DrawEvent>, color: int)
    requires TxBalance(children) == 0 && TxLow(children) == 0
    ensures TxLow(Framing(s, n, index, nx, ny, children, color)) == 0
  {
    var image := ImageDraw(s, n, index, nx, ny);
    TxBalanceAppend(if Transforms(s) then [SaveTx] else [], [SetAlpha(s.alpha)]);
    TxLowAppend(if Transforms(s) then [SaveTx] else [], [SetAlpha(s.alpha)]);
    TxBalanceAppend([SetColor(color)], if Transforms(s) then [RestoreTx] else []);
    TxLowAppend([SetColor(color)], if Transforms(s) then [RestoreTx] else []);
    DrawsBalanced(image);
    TxBalanceAppend(Opening(s), image);
    TxLowAppend(Opening(s), image);
    TxBalanceAppend(Opening(s) + image, children);
    TxLowAppend(Opening(s) + image, children);
    TxLowAppend(Opening(s) + image + children, Closing(s, color));
  }

  /**
   * `createUI` never restores a transform it did not save: no prefix of its
   * calls has more `restoreTx` than `saveTx`.
   */
  lemma {:induction false} DrawNested(nodes: seq<Node>, depth: seq<nat>, height: seq<nat>, index: seq<int>, n: nat,
                                      ox: real, oy: real, color: int)
    requires Ranked(nodes, depth, height) && |index| == |nodes| && n < |nodes|
    ensures TxLow(Draw(nodes, depth, height, index, n, ox, oy, color).1) == 0
    decreases height[n], 1
  {
    var s := nodes[n];
    if !Culled(s) {
      var index1 := index[n := CheckedIndex(s, index[n])];
      if !(|s.frames| > 0 && !HasImage(s, index1[n])) {
        DrawChildrenBalanced(nodes, depth, height, index1, n, 0, color);
        DrawChildrenNested(nodes, depth, height, index1, n, 0, color);
        FramedNesting(s, n, index1[n], s.x + ox, s.y + oy, DrawChildren(nodes, depth, height, index1, n, 0, color).1,
                      color);
      }
    }
  }

  lemma {:induction false} DrawChildrenNested(nodes: seq<Node>, depth: seq<nat>, height: seq<nat>, index: seq<int>,
                                              n: nat, k: nat, color: int)
    requires Ranked(nodes, depth, height) && |index| == |nodes| && n < |nodes| && k <= |nodes[n].children|
    ensures TxLow(DrawChildren(nodes, depth, height, index, n, k, color).1) == 0
    decreases height[n], 0, |nodes[n].children| - k
  {
    if k < |nodes[n].children| {
      assert Linked(nodes, nodes[n]);
      var c := nodes[n].children[k];
      var (index1, first) := Draw(nodes, depth, height, index, c, AncestorSum(nodes, depth, c, Horizontal),
                                  AncestorSum(nodes, depth, c, Vertical), color);
      DrawBalanced(nodes, depth, height, index, c, AncestorSum(nodes, depth, c, Horizontal),
                   AncestorSum(nodes, depth, c, Vertical), color);
      DrawNested(nodes, depth, height, index, c, AncestorSum(nodes, depth, c, Horizontal),
                 AncestorSum(nodes, depth, c, Vertical), color);
      DrawChildrenNested(nodes, depth, height, index1, n, k + 1, color);
      TxLowAppend(first, DrawChildren(nodes, depth, height, index1, n, k + 1, color).1);
    }
  }

  /**
   * Every `saveTx` of `createUI` is matched by a later `restoreTx`: the
   * transform depth never drops below where it started and ends there.
   */
  lemma DrawMatched(nodes: seq<Node>, depth: seq<nat>, height: seq<nat>, index: seq<int>, n: nat,
                    ox: real, oy: real, color: int)
    requires Ranked(nodes, depth, height) && |index| == |nodes| && n < |nodes|
    ensures var es := Draw(nodes, depth, height, index, n, ox, oy, color).1;
      TxBalance(es) == 0 && forall j :: 0 <= j <= |es| ==> TxBalance(es[..j]) >= 0
  {
    var es := Draw(nodes, depth, height, index, n, ox, oy, color).1;
    DrawBalanced(nodes, depth, height, index, n, ox, oy, color);
    DrawNested(nodes, depth, height, index, n, ox, oy, color);
    forall j | 0 <= j <= |es|
      ensures TxBalance(es[..j]) >= 0
    {
      TxLowPrefix(es, j);
    }
  }

  /**
   * Every image `createUI` draws belongs to a sprite that is visible, has
   * alpha of at least 0.01 and has frames, and lies no higher than `n`; the
   * sprite itself is drawn at its coordinates plus the offset it was given,
   * and every other one at its coordinates plus its screen position.
   */
  lemma {:induction false} DrawnSpritesShow(nodes: seq<Node>, depth: seq<nat>, height: seq<nat>, index: seq<int>, n: nat,
                                            ox: real, oy: real, color: int)
    requires Ranked(nodes, depth, height) && |index| == |nodes| && n < |nodes|
    ensures forall e :: e in Draw(nodes, depth, height, index, n, ox, oy, color).1 && (e.DrawImage? || e.DrawRegion?) ==>
      e.node < |nodes| && !Culled(nodes[e.node]) && |nodes[e.node].frames| > 0 && height[e.node] <= height[n]
      && FrameImage(nodes[e.node], e.image)
      && (e.node == n ==> e.image == nodes[n].frames[CheckedIndex(nodes[n], index[n])].image)
    ensures forall e :: e in Draw(nodes, depth, height, index, n, ox, oy, color).1 && e.DrawImage? ==>
      e.x == nodes[e.node].x + (if e.node == n then ox else AncestorSum(nodes, depth, e.node, Horizontal))
      && e.y == nodes[e.node].y + (if e.node == n then oy else AncestorSum(nodes, depth, e.node, Vertical))
    decreases height[n], 1
  {
    var s := nodes[n];
    if !Culled(s) {
      var index1 := index[n := CheckedIndex(s, index[n])];
      if !(|s.frames| > 0 && !HasImage(s, index1[n])) {
        DrawnChildrenShow(nodes, depth, height, index1, n, 0, color);
      }
    }
  }

  lemma {:induction false} DrawnChildrenShow(nodes: seq<Node>, depth: seq<nat>, height: seq<nat>, index: seq<int>,
                                             n: nat, k: nat, color: int)
    requires Ranked(nodes, depth, height) && |index| == |nodes| && n < |nodes| && k <= |nodes[n].children|
    ensures forall e :: e in DrawChildren(nodes, depth, height, index, n, k, color).1 && (e.DrawImage? || e.DrawRegion?) ==>
      e.node < |nodes| && !Culled(nodes[e.node]) && |nodes[e.node].frames| > 0 && height[e.node] < height[n]
      && FrameImage(nodes[e.node], e.image)
    ensures forall e :: e in DrawChildren(nodes, depth, height, index, n, k, color).1 && e.DrawImage? ==>
      e.x == nodes[e.node].x + AncestorSum(nodes, depth, e.node, Horizontal)
      && e.y == nodes[e.node].y + AncestorSum(nodes, depth, e.node, Vertical)
    decreases height[n], 0, |nodes[n].children| - k
  {
    if k < |nodes[n].children| {
      assert Linked(nodes, nodes[n]);
      var c := nodes[n].children[k];
      var ox, oy := AncestorSum(nodes, depth, c, Horizontal), AncestorSum(nodes, depth, c, Vertical);
      var (index1, first) := Draw(nodes, depth, height, index, c, ox, oy, color);
      DrawnSpritesShow(nodes, depth, height, index, c, ox, oy, color);
      DrawnChildrenShow(nodes, depth, height, index1, n, k + 1, color);
    }
  }

  /**
   * After `close` a sprite takes part in no traversal: no update names it
   * and no image of it is drawn, from whichever sprite the traversal starts.
   */
  lemma ClosedSpriteSilent(nodes: seq<Node>, depth: seq<nat>, height: seq<nat>, index: seq<int>, n: nat,
                           ox: real, oy: real, color: int, elapsed: int, m: nat)
    requires Ranked(nodes, depth, height) && |index| == |nodes| && n < |nodes| && m < |nodes|
    ensures Ranked(nodes[m := nodes[m].(visible := false)], depth, height)
    ensures forall e :: e in UpdateTrace(nodes[m := nodes[m].(visible := false)], height, n, elapsed) ==> e.node != m
    ensures forall e :: e in Draw(nodes[m := nodes[m].(visible := false)], depth, height, index, n, ox, oy, color).1 ==>
                        (e.DrawImage? || e.DrawRegion?) ==> e.node != m
  {
    var closed := nodes[m := nodes[m].(visible := false)];
    assert forall i :: 0 <= i < |nodes| ==> closed[i].children == nodes[i].children && closed[i].parent == nodes[i].parent;
    assert WellFormed(closed) by {
      forall i | 0 <= i < |closed| ensures Linked(closed, closed[i]) { assert Linked(nodes, nodes[i]); }
    }
    UpdateOnlyVisible(closed, height, n, elapsed);
    DrawnSpritesShow(closed, depth, height, index, n, ox, oy, color);
  }

  // ---------------------------------------------------------------------------
  // addChild's re-sort

  /** Sorted by the layer of each sprite, lowest first. */
  predicate SortedByLayer(ids: seq<nat>, nodes: seq<Node>)
    requires forall k :: 0 <= k < |ids| ==> ids[k] < |nodes|
  {
    forall i, j :: 0 <= i < j < |ids| ==> nodes[ids[i]].layer <= nodes[ids[j]].layer
  }

  /** `id` inserted after every leading sprite of the same or a lower layer. */
  function InsertByLayer(ids: seq<nat>, id: nat, nodes: seq<Node>): (r: seq<nat>)
    requires id < |nodes| && forall k :: 0 <= k < |ids| ==> ids[k] < |nodes|
    ensures multiset(r) == multiset(ids) + multiset{id} && |r| == |ids| + 1
    ensures forall k :: 0 <= k < |r| ==> r[k] == id || r[k] in ids
    ensures forall k :: 0 <= k < |r| ==> r[k] < |nodes|
  {
    if ids == [] then [id]
    else if nodes[id].layer < nodes[ids[0]].layer then [id] + ids
    else
      assert ids == [ids[0]] + ids[1..];
      [ids[0]] + InsertByLayer(ids[1..], id, nodes)
  }

  /** Inserting into a list sorted by layer keeps it sorted. */
  lemma {:induction false} InsertKeepsSorted(ids: seq<nat>, id: nat, nodes: seq<Node>)
    requires id < |nodes| && forall k :: 0 <= k < |ids| ==> ids[k] < |nodes|
    requires SortedByLayer(ids, nodes)
    ensures SortedByLayer(InsertByLayer(ids, id, nodes), nodes)
  {
    if ids == [] {
    } else if nodes[id].layer < nodes[ids[0]].layer {
      SortedCons(id, ids, nodes);
    } else {
      var rest := InsertByLayer(ids[1..], id, nodes);
      assert SortedByLayer(ids[1..], nodes);
      InsertKeepsSorted(ids[1..], id, nodes);
      forall k | 0 <= k < |rest| ensures nodes[ids[0]].layer <= nodes[rest[k]].layer {
        if rest[k] != id {
          var j :| 0 <= j < |ids[1..]| && ids[1..][j] == rest[k];
          assert ids[j + 1] == rest[k];
        }
      }
      SortedCons(ids[0], rest, nodes);
    }
  }

  /** A sorted list stays sorted with a sprite of a layer no higher than its every element in front. */
  lemma SortedCons(h: nat, rest: seq<nat>, nodes: seq<Node>)
    requires h < |nodes| && forall k :: 0 <= k < |rest| ==> rest[k] < |nodes|
    requires SortedByLayer(rest, nodes)
    requires forall k :: 0 <= k < |rest| ==> nodes[h].layer <= nodes[rest[k]].layer
    ensures SortedByLayer([h] + rest, nodes)
  {
    var r := [h] + rest;
    forall i, j | 0 <= i < j < |r| ensures nodes[r[i]].layer <= nodes[r[j]].layer {
      assert r[j] == rest[j - 1];
      if i > 0 {
        assert r[i] == rest[i - 1];
      }
    }
  }

  /** The layer sort of a child list: a stable insertion sort. */
  function SortByLayer(ids: seq<nat>, nodes: seq<Node>): (r: seq<nat>)
    requires forall k :: 0 <= k < |ids| ==> ids[k] < |nodes|
    ensures multiset(r) == multiset(ids) && |r| == |ids|
    ensures forall k :: 0 <= k < |r| ==> r[k] < |nodes|
    ensures SortedByLayer(r, nodes)
  {
    if ids == [] then []
    else
      assert ids == ids[..|ids| - 1] + [ids[|ids| - 1]];
      var sorted := SortByLayer(ids[..|ids| - 1], nodes);
      InsertKeepsSorted(sorted, ids[|ids| - 1], nodes);
      InsertByLayer(sorted, ids[|ids| - 1], nodes)
  }

  /** `TArray.remove`: the first occurrence of `id` taken out. */
  function RemoveFirst(ids: seq<nat>, id: nat): (r: seq<nat>)
    ensures id in ids ==> |r| == |ids| - 1 && multiset(r) == multiset(ids) - multiset{id}
    ensures id !in ids ==> r == ids
  {
    if ids == [] then []
    else
      assert ids == [ids[0]] + ids[1..];
      if ids[0] == id then ids[1..]
      else [ids[0]] + RemoveFirst(ids[1..], id)
  }

  /** Sortedness by layer depends on the layers alone. */
  lemma SameLayersSorted(ids: seq<nat>, a: seq<Node>, b: seq<Node>)
    requires |a| == |b| && forall i :: 0 <= i < |a| ==> a[i].layer == b[i].layer
    requires forall k :: 0 <= k < |ids| ==> ids[k] < |a|
    requires SortedByLayer(ids, a)
    ensures SortedByLayer(ids, b)
  {
    forall i, j | 0 <= i < j < |ids| ensures b[ids[i]].layer <= b[ids[j]].layer {
      assert a[ids[i]].layer <= a[ids[j]].layer;
    }
  }

  /**
   * `addChild`: `c`'s parent becomes `p`, `c` joins `p`'s list and the list
   * is sorted by layer again; every other sprite is as it was.
   */
  function Adopt(nodes: seq<Node>, p: nat, c: nat): (r: seq<Node>)
    requires WellFormed(nodes) && p < |nodes| && c < |nodes|
    ensures |r| == |nodes| && WellFormed(r)
    ensures r[c].parent == Some(p)
    ensures multiset(r[p].children) == multiset(nodes[p].children) + multiset{c}
    ensures SortedByLayer(r[p].children, r)
    ensures forall i :: 0 <= i < |r| && i != p && i != c ==> r[i] == nodes[i]
    ensures p != c ==> r[c] == nodes[c].(parent := Some(p)) && r[p] == nodes[p].(children := r[p].children)
    ensures p == c ==> r[p] == nodes[p].(parent := Some(p), children := r[p].children)
    ensures forall i :: 0 <= i < |r| ==> r[i].layer == nodes[i].layer
  {
    assert Linked(nodes, nodes[p]);
    var a := nodes[c := nodes[c].(parent := Some(p))];
    var list := a[p].children + [c];
    assert forall k :: 0 <= k < |list| ==> list[k] < |a|;
    var sorted := SortByLayer(list, a);
    var r := a[p := a[p].(children := sorted)];
    assert r[p] == a[p].(children := sorted);
    assert p != c ==> r[c] == a[c] && a[p] == nodes[p];
    SameLayersSorted(sorted, a, r);
    assert WellFormed(r) by {
      forall i | 0 <= i < |r| ensures Linked(r, r[i]) {
        assert Linked(nodes, nodes[i]);
      }
    }
    r
  }

  /**
   * `addChild` does not refuse a sprite as its own child. After that no
   * height witness exists, so `update` and `createUI` cannot be specified
   * for the scene any more: the Java recursion in them never ends.
   */
  lemma SelfAdoptUnranked(nodes: seq<Node>, p: nat, height: seq<nat>)
    requires WellFormed(nodes) && p < |nodes|
    ensures !ChildRanked(Adopt(nodes, p, p), height)
  {
    var r := Adopt(nodes, p, p);
    assert p in multiset(r[p].children);
    var k :| 0 <= k < |r[p].children| && r[p].children[k] == p;
  }

  /** `removeChild`: the first `c` leaves `p`'s list; every other sprite, `c`'s parent link included, is as it was. */
  function Disown(nodes: seq<Node>, p: nat, c: nat): (r: seq<Node>)
    requires WellFormed(nodes) && p < |nodes|
    ensures |r| == |nodes| && WellFormed(r)
    ensures r[p] == nodes[p].(children := RemoveFirst(nodes[p].children, c))
    ensures forall i :: 0 <= i < |r| && i != p ==> r[i] == nodes[i]
  {
    var r := nodes[p := nodes[p].(children := RemoveFirst(nodes[p].children, c))];
    assert WellFormed(r) by {
      forall i | 0 <= i < |r| ensures Linked(r, r[i]) {
        assert Linked(nodes, nodes[i]);
        if i == p {
          forall k | 0 <= k < |r[p].children| ensures r[p].children[k] < |r| {
            assert r[p].children[k] in multiset(r[p].children);
            var j :| 0 <= j < |nodes[p].children| && nodes[p].children[j] == r[p].children[k];
          }
        }
      }
    }
    r
  }

  // ---------------------------------------------------------------------------
  // centerX / centerY and the frames of setAnimation

  /** `getWidth`/`getHeight`: -1 without an image, else the image size times the scale cast to int. */
  function ScaledSize(imageSize: Option<int>, scale: real): (r: real)
    ensures imageSize.None? ==> r == -1.0
    ensures imageSize.Some? && imageSize.value >= 0 && scale >= 0.0 ==>
      r == r.Floor as real && r <= imageSize.value as real * scale < r + 1.0
  {
    match imageSize
    case None => -1.0
    case Some(w) => TruncToZero(w as real * scale) as real
  }

  /**
   * `centerX`/`centerY` of a sprite of size `w` at `x` in a view of size
   * `view`: `x - w/2` cast to int, pushed back to `view - w - 1` when it
   * would reach the far edge, and `x` itself when it would be negative.
   */
  function Center(x: int, w: real, view: real): (r: int)
    ensures r == x || r == TruncToZero(view - w - 1.0) || (0 <= r && r as real + w < view)
  {
    var moved := TruncToZero(x as real - w / 2.0);
    if moved as real + w >= view then TruncToZero(view - w - 1.0)
    else if moved < 0 then x
    else moved
  }

  /**
   * When the far edge is reached the sprite ends one pixel inside the view
   * (for a sprite that fits); otherwise it is either left at `x` or placed
   * with its middle less than one pixel from `x`, inside the view.
   */
  lemma CenterPlacement(x: int, w: real, view: real)
    ensures var moved := TruncToZero(x as real - w / 2.0);
      && (moved as real + w >= view && view - w - 1.0 >= 0.0 ==> Center(x, w, view) as real + w <= view - 1.0)
      && (moved as real + w < view && moved < 0 ==> Center(x, w, view) == x)
      && (moved as real + w < view && moved >= 0 ==>
            && 0 <= Center(x, w, view) && Center(x, w, view) as real + w < view
            && x as real - 1.0 < Center(x, w, view) as real + w / 2.0 < x as real + 1.0)
  {
  }

  /**
   * The frames the private `setAnimation` adds: the first `max` images when
   * `max != -1` (none for a negative `max`), all of them for -1; an index
   * past the end of `images` is the out-of-range error.
   */
  function FramesFor(images: seq<int>, max: int, timer: int): (r: Option<seq<Frame>>)
    ensures r.Some? <==> max <= |images|
    ensures r.Some? ==> |r.value| == (if max == -1 then |images| else if max < 0 then 0 else max)
    ensures r.Some? ==> forall i :: 0 <= i < |r.value| ==> r.value[i] == Frame(images[i], timer)
  {
    var count := if max == -1 then |images| else if max < 0 then 0 else max;
    if count <= |images| then Some(seq(count, i requires 0 <= i < count => Frame(images[i], timer)))
    else None
  }
}
