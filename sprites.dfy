/**
 * The sprite operations that change state: the scene arena as an object
 * whose methods add, remove, close and animate sprites, and the two
 * traversals as recursive methods with loops, each proved against the
 * event log `SpriteTree` specifies.
 */
module Sprites {
  import opened Wrappers
  import opened JavaNumeric
  import opened SpriteTree

  /**
   * The graphics context `createUI` draws into: the colour, the alpha, the
   * depth of the saved-transform stack and the calls made so far.
   */
  class Graphics {
    var color: int
    var alpha: real
    var txDepth: int
    var events: seq<DrawEvent>

    constructor (color: int)
      ensures this.color == color && alpha == 1.0 && txDepth == 0 && events == []
    {
      this.color, alpha, txDepth, events := color, 1.0, 0, [];
    }

    method SaveTx()
      modifies this`txDepth, this`events
      ensures txDepth == old(txDepth) + 1 && events == old(events) + [DrawEvent.SaveTx]
    {
      txDepth, events := txDepth + 1, events + [DrawEvent.SaveTx];
    }

    method RestoreTx()
      modifies this`txDepth, this`events
      ensures txDepth == old(txDepth) - 1 && events == old(events) + [DrawEvent.RestoreTx]
    {
      txDepth, events := txDepth - 1, events + [DrawEvent.RestoreTx];
    }

    method SetAlpha(a: real)
      modifies this`alpha, this`events
      ensures alpha == a && events == old(events) + [DrawEvent.SetAlpha(a)]
    {
      alpha, events := a, events + [DrawEvent.SetAlpha(a)];
    }

    method SetColor(c: int)
      modifies this`color, this`events
      ensures color == c && events == old(events) + [DrawEvent.SetColor(c)]
    {
      color, events := c, events + [DrawEvent.SetColor(c)];
    }

    method Draw(e: DrawEvent)
      requires e.DrawImage? || e.DrawRegion?
      modifies this`events
      ensures events == old(events) + [e]
    {
      events := events + [e];
    }
  }

  /**
   * The frames the private `setAnimation` adds, one image at a time: the
   * first `max` images when `max != -1`, else all of them; an index past the
   * end of `images` throws, which is `None` here.
   */
  method AddFrames(images: seq<int>, max: int, timer: int) returns (r: Option<seq<Frame>>)
    ensures r == FramesFor(images, max, timer)
  {
    var count := if max != -1 then max else |images|;
    var frames: seq<Frame> := [];
    var i := 0;
    while i < count
      invariant 0 <= i && (count >= 0 ==> i <= count) && (count < 0 ==> i == 0) && i <= |images|
      invariant |frames| == i && forall j :: 0 <= j < i ==> frames[j] == Frame(images[j], timer)
      decreases count - i
    {
      if i >= |images| {
        return None;
      }
      frames := frames + [Frame(images[i], timer)];
      i := i + 1;
    }
    ghost var n := if max == -1 then |images| else if max < 0 then 0 else max;
    assert |frames| == n;
    assert frames == seq(n, j requires 0 <= j < n => Frame(images[j], timer));
    return Some(frames);
  }

  /** One step of `DrawChildren`: the child at `k`, then the rest of the list. */
  lemma ChildStep(nodes: seq<Node>, depth: seq<nat>, height: seq<nat>, index: seq<int>, n: nat, k: nat, color: int)
    requires Ranked(nodes, depth, height) && |index| == |nodes| && n < |nodes| && k < |nodes[n].children|
    ensures Linked(nodes, nodes[n]) && nodes[n].children[k] < |nodes|
    ensures var c := nodes[n].children[k];
      var first := Draw(nodes, depth, height, index, c, AncestorSum(nodes, depth, c, Horizontal),
                        AncestorSum(nodes, depth, c, Vertical), color);
      var rest := DrawChildren(nodes, depth, height, first.0, n, k + 1, color);
      DrawChildren(nodes, depth, height, index, n, k, color) == (rest.0, first.1 + rest.1)
  {
    assert Linked(nodes, nodes[n]);
  }

  lemma DrawCulled(nodes: seq<Node>, depth: seq<nat>, height: seq<nat>, index: seq<int>, n: nat,
                   ox: real, oy: real, color: int)
    requires Ranked(nodes, depth, height) && |index| == |nodes| && n < |nodes| && Culled(nodes[n])
    ensures Draw(nodes, depth, height, index, n, ox, oy, color) == (index, [])
  {
  }

  lemma DrawNoImage(nodes: seq<Node>, depth: seq<nat>, height: seq<nat>, index: seq<int>, n: nat,
                    ox: real, oy: real, color: int)
    requires Ranked(nodes, depth, height) && |index| == |nodes| && n < |nodes| && !Culled(nodes[n])
    requires |nodes[n].frames| > 0 && !HasImage(nodes[n], CheckedIndex(nodes[n], index[n]))
    ensures Draw(nodes, depth, height, index, n, ox, oy, color) == (index[n := CheckedIndex(nodes[n], index[n])], [])
  {
  }

  /** `Draw` for a sprite that shows, in terms of the index after the check. */
  lemma DrawUnfolds(nodes: seq<Node>, depth: seq<nat>, height: seq<nat>, index: seq<int>, n: nat,
                    ox: real, oy: real, color: int)
    requires Ranked(nodes, depth, height) && |index| == |nodes| && n < |nodes| && !Culled(nodes[n])
    requires !(|nodes[n].frames| > 0 && !HasImage(nodes[n], CheckedIndex(nodes[n], index[n])))
    ensures var s := nodes[n];
      var index1 := index[n := CheckedIndex(s, index[n])];
      var r := DrawChildren(nodes, depth, height, index1, n, 0, color);
      && CheckedIndex(s, index1[n]) == index1[n]
      && Draw(nodes, depth, height, index, n, ox, oy, color)
         == (r.0, Framing(s, n, index1[n], s.x + ox, s.y + oy, r.1, color))
  {
  }

  /** The sprites of a scene, the index of each animation's current frame, and the update calls made so far. */
  class Scene {
    var nodes: seq<Node>
    var frameIndex: seq<int>
    var updates: seq<UpdateEvent>

    ghost predicate Valid()
      reads this`nodes, this`frameIndex
    {
      WellFormed(nodes) && |frameIndex| == |nodes|
    }

    constructor Empty()
      ensures Valid() && nodes == [] && frameIndex == [] && updates == []
    {
      nodes, frameIndex, updates := [], [], [];
    }

    /**
     * The image-array constructor: a visible, untransformed sprite at
     * (x, y) with the frames `setAnimation` gives its own animation, and
     * `maxFrame == max`; no sprite when `setAnimation` throws.
     */
    method AddSprite(x: real, y: real, images: seq<int>, max: int, timer: int) returns (r: Option<nat>)
      requires Valid()
      modifies this`nodes, this`frameIndex
      ensures Valid()
      ensures r.Some? <==> FramesFor(images, max, timer).Some?
      ensures r.None? ==> nodes == old(nodes) && frameIndex == old(frameIndex)
      ensures r.Some? ==>
        && r.value == |old(nodes)|
        && nodes == old(nodes) + [Node(x, y, true, 1.0, 0.0, 1.0, 1.0, 0, false, None, [],
                                       FramesFor(images, max, timer).value, max)]
        && frameIndex == old(frameIndex) + [0]
    {
      var frames := AddFrames(images, max, timer);
      if frames.None? {
        return None;
      }
      r := Some(|nodes|);
      nodes := nodes + [Node(x, y, true, 1.0, 0.0, 1.0, 1.0, 0, false, None, [], frames.value, max)];
      frameIndex := frameIndex + [0];
      assert forall i :: 0 <= i < |old(nodes)| ==> Linked(old(nodes), old(nodes)[i]) ==> Linked(nodes, nodes[i]);
    }

    /**
     * The public `setAnimation(images, maxFrame, timer)`: `maxFrame` is
     * recorded, the frames go into a fresh animation that is never stored,
     * and the call throws (`ok` false) when `max` runs past `images`.
     */
    method SetAnimation(n: nat, images: seq<int>, max: int, timer: int) returns (ok: bool)
      requires Valid() && n < |nodes|
      modifies this`nodes
      ensures Valid()
      ensures nodes == old(nodes)[n := old(nodes)[n].(maxFrame := max)]
      ensures ok <==> max <= |images|
    {
      nodes := nodes[n := nodes[n].(maxFrame := max)];
      assert forall i :: 0 <= i < |nodes| ==> nodes[i].parent == old(nodes)[i].parent && nodes[i].children == old(nodes)[i].children;
      assert WellFormed(nodes) by {
        forall i | 0 <= i < |nodes| ensures Linked(nodes, nodes[i]) { assert Linked(old(nodes), old(nodes)[i]); }
      }
      var discarded := AddFrames(images, max, timer);
      ok := discarded.Some?;
    }

    /** `addChild`: as `Adopt` describes. */
    method AddChild(p: nat, c: nat)
      requires Valid() && p < |nodes| && c < |nodes|
      modifies this`nodes
      ensures Valid() && nodes == Adopt(old(nodes), p, c)
    {
      nodes := Adopt(nodes, p, c);
    }

    /** `removeChild`: as `Disown` describes. */
    method RemoveChild(p: nat, c: nat)
      requires Valid() && p < |nodes|
      modifies this`nodes
      ensures Valid() && nodes == Disown(old(nodes), p, c)
    {
      nodes := Disown(nodes, p, c);
    }

    /** `close`: the sprite becomes invisible (the textures it releases are not modelled). */
    method Close(n: nat)
      requires Valid() && n < |nodes|
      modifies this`nodes
      ensures Valid()
      ensures nodes == old(nodes)[n := old(nodes)[n].(visible := false)]
    {
      nodes := nodes[n := nodes[n].(visible := false)];
      assert WellFormed(nodes) by {
        forall i | 0 <= i < |nodes| ensures Linked(nodes, nodes[i]) { assert Linked(old(nodes), old(nodes)[i]); }
      }
    }

    /** `getScreenX` (`Horizontal`) and `getScreenY` (`Vertical`): walks the parent links, adding up coordinates. */
    method ScreenCoord(n: nat, a: Axis, ghost depth: seq<nat>) returns (v: real)
      requires Valid() && ParentRanked(nodes, depth) && n < |nodes|
      ensures v == AncestorSum(nodes, depth, n, a)
    {
      v := 0.0;
      assert Linked(nodes, nodes[n]);
      var current: Option<nat> := nodes[n].parent;
      while current.Some?
        invariant current.Some? ==> current.value < |nodes|
        invariant v + (if current.Some? then Coord(nodes[current.value], a) + AncestorSum(nodes, depth, current.value, a)
                       else 0.0) == AncestorSum(nodes, depth, n, a)
        decreases if current.Some? then depth[current.value] + 1 else 0
      {
        var s := nodes[current.value];
        assert Linked(nodes, s);
        v := v + Coord(s, a);
        current := s.parent;
      }
    }

    /** `update`: the calls are logged as `UpdateTrace` describes them. */
    method Update(n: nat, elapsed: int, ghost height: seq<nat>)
      requires Valid() && ChildRanked(nodes, height) && n < |nodes|
      modifies this`updates
      ensures updates == old(updates) + UpdateTrace(nodes, height, n, elapsed)
      decreases height[n]
    {
      if nodes[n].visible {
        updates := updates + [AnimationUpdate(n, elapsed), OnUpdate(n, elapsed)];
        var children := nodes[n].children;
        assert Linked(nodes, nodes[n]);
        for k := 0 to |children|
          invariant updates + UpdateChildren(nodes, height, n, k, elapsed) == old(updates) + UpdateTrace(nodes, height, n, elapsed)
        {
          ghost var before := updates;
          Update(children[k], elapsed, height);
          assert updates + UpdateChildren(nodes, height, n, k + 1, elapsed)
              == before + UpdateChildren(nodes, height, n, k, elapsed);
        }
      }
    }

    /**
     * `createUI(g, ox, oy)`: the frame indices and the calls on `g` are as
     * `Draw` describes; the transform depth and the colour are as before,
     * and the alpha is not restored: it is the last one the calls set.
     */
    method CreateUI(g: Graphics, n: nat, ox: real, oy: real, ghost depth: seq<nat>, ghost height: seq<nat>)
      requires Valid() && Ranked(nodes, depth, height) && n < |nodes|
      modifies this`frameIndex, g`color, g`alpha, g`txDepth, g`events
      ensures Valid()
      ensures var r := Draw(nodes, depth, height, old(frameIndex), n, ox, oy, old(g.color));
        frameIndex == r.0 && g.events == old(g.events) + r.1 && g.alpha == AlphaAfter(r.1, old(g.alpha))
      ensures g.txDepth == old(g.txDepth) && g.color == old(g.color)
      decreases height[n], 5
    {
      if Culled(nodes[n]) {
        DrawCulled(nodes, depth, height, frameIndex, n, ox, oy, g.color);
        return;
      }
      ghost var index := frameIndex;
      ResetFrame(n);
      DrawChecked(g, n, ox, oy, index, depth, height);
    }

    /** A frame index past `maxFrame` goes back to 0. */
    method ResetFrame(n: nat)
      requires Valid() && n < |nodes|
      modifies this`frameIndex
      ensures Valid() && frameIndex == old(frameIndex)[n := CheckedIndex(nodes[n], old(frameIndex)[n])]
    {
      if frameIndex[n] > nodes[n].maxFrame {
        frameIndex := frameIndex[n := 0];
      }
    }

    /** `createUI` once the frame index is checked: nothing more when the animation has frames but no image. */
    method DrawChecked(g: Graphics, n: nat, ox: real, oy: real, ghost index: seq<int>, ghost depth: seq<nat>,
                       ghost height: seq<nat>)
      requires Valid() && Ranked(nodes, depth, height) && n < |nodes| && |index| == |nodes| && !Culled(nodes[n])
      requires frameIndex == index[n := CheckedIndex(nodes[n], index[n])]
      modifies this`frameIndex, g`color, g`alpha, g`txDepth, g`events
      ensures Valid()
      ensures var r := Draw(nodes, depth, height, index, n, ox, oy, old(g.color));
        frameIndex == r.0 && g.events == old(g.events) + r.1 && g.alpha == AlphaAfter(r.1, old(g.alpha))
      ensures g.txDepth == old(g.txDepth) && g.color == old(g.color)
      decreases height[n], 4
    {
      if |nodes[n].frames| > 0 && !HasImage(nodes[n], frameIndex[n]) {
        DrawNoImage(nodes, depth, height, index, n, ox, oy, g.color);
        return;
      }
      DrawFramed(g, n, ox, oy, index, depth, height);
    }

    /** `createUI` for a sprite past the image check: `Draw` unfolded into its frame around the children. */
    method DrawFramed(g: Graphics, n: nat, ox: real, oy: real, ghost index: seq<int>, ghost depth: seq<nat>,
                      ghost height: seq<nat>)
      requires Valid() && Ranked(nodes, depth, height) && n < |nodes| && |index| == |nodes| && !Culled(nodes[n])
      requires frameIndex == index[n := CheckedIndex(nodes[n], index[n])]
      requires !(|nodes[n].frames| > 0 && !HasImage(nodes[n], frameIndex[n]))
      modifies this`frameIndex, g`color, g`alpha, g`txDepth, g`events
      ensures Valid()
      ensures var r := Draw(nodes, depth, height, index, n, ox, oy, old(g.color));
        frameIndex == r.0 && g.events == old(g.events) + r.1 && g.alpha == AlphaAfter(r.1, old(g.alpha))
      ensures g.txDepth == old(g.txDepth) && g.color == old(g.color)
      decreases height[n], 3
    {
      DrawUnfolds(nodes, depth, height, index, n, ox, oy, g.color);
      DrawShown(g, n, ox, oy, depth, height);
    }

    /** The rest of `createUI` for a sprite that shows: the frame, the image, the children and the `finally` block. */
    method DrawShown(g: Graphics, n: nat, ox: real, oy: real, ghost depth: seq<nat>, ghost height: seq<nat>)
      requires Valid() && Ranked(nodes, depth, height) && n < |nodes|
      requires !Culled(nodes[n]) && CheckedIndex(nodes[n], frameIndex[n]) == frameIndex[n]
      requires !(|nodes[n].frames| > 0 && !HasImage(nodes[n], frameIndex[n]))
      modifies this`frameIndex, g`color, g`alpha, g`txDepth, g`events
      ensures Valid()
      ensures var r := DrawChildren(nodes, depth, height, old(frameIndex), n, 0, old(g.color));
        frameIndex == r.0
        && g.events == old(g.events)
           + Framing(nodes[n], n, old(frameIndex)[n], nodes[n].x + ox, nodes[n].y + oy, r.1, old(g.color))
        && g.alpha
           == AlphaAfter(Framing(nodes[n], n, old(frameIndex)[n], nodes[n].x + ox, nodes[n].y + oy, r.1, old(g.color)),
                         old(g.alpha))
      ensures g.txDepth == old(g.txDepth) && g.color == old(g.color)
      decreases height[n], 2
    {
      var s := nodes[n];
      var tmp := g.color;
      ghost var e0, a0, index := g.events, g.alpha, frameIndex;
      ghost var image := ImageDraw(s, n, frameIndex[n], s.x + ox, s.y + oy);
      ghost var children := DrawChildren(nodes, depth, height, frameIndex, n, 0, tmp).1;
      OpenFrame(g, n);
      ghost var e1 := g.events;
      DrawImageOf(g, n, s.x + ox, s.y + oy);
      ghost var e2 := g.events;
      assert e2 == e1 + image;
      DrawChildList(g, n, depth, height);
      ghost var e3 := g.events;
      assert e3 == e2 + children;
      CloseFrame(g, n, tmp);
      assert g.events == e3 + Closing(s, tmp);
      Regroup(e0, Opening(s), image, children, Closing(s, tmp));
      FramingAlpha(s, n, index[n], s.x + ox, s.y + oy, children, tmp, a0);
    }

    /** `saveTx` for a rotated or scaled sprite, then the sprite's alpha. */
    method OpenFrame(g: Graphics, n: nat)
      requires Valid() && n < |nodes|
      modifies g`alpha, g`txDepth, g`events
      ensures g.events == old(g.events) + Opening(nodes[n]) && g.alpha == nodes[n].alpha
      ensures g.txDepth == old(g.txDepth) + (if Transforms(nodes[n]) then 1 else 0)
    {
      if Transforms(nodes[n]) {
        g.SaveTx();
      }
      g.SetAlpha(nodes[n].alpha);
    }

    /** The `finally` block: the colour saved on entry, then `restoreTx` for a rotated or scaled sprite. */
    method CloseFrame(g: Graphics, n: nat, color: int)
      requires Valid() && n < |nodes|
      modifies g`color, g`txDepth, g`events
      ensures g.events == old(g.events) + Closing(nodes[n], color)
      ensures g.txDepth == old(g.txDepth) - (if Transforms(nodes[n]) then 1 else 0) && g.color == color
    {
      g.SetColor(color);
      if Transforms(nodes[n]) {
        g.RestoreTx();
      }
    }

    /** The image draw of `createUI`: a region at truncated coordinates when transformed, else the image. */
    method DrawImageOf(g: Graphics, n: nat, nx: real, ny: real)
      requires Valid() && n < |nodes|
      modifies g`events
      ensures g.events == old(g.events) + ImageDraw(nodes[n], n, frameIndex[n], nx, ny)
    {
      var s := nodes[n];
      if HasImage(s, frameIndex[n]) {
        if s.transformed {
          g.Draw(DrawRegion(n, s.frames[frameIndex[n]].image, TruncToZero(nx), TruncToZero(ny)));
        } else {
          g.Draw(DrawImage(n, s.frames[frameIndex[n]].image, nx, ny));
        }
      }
    }

    /** The loop of `createUI` over the child list: each child at the sum of its ancestors' coordinates. */
    method DrawChildList(g: Graphics, n: nat, ghost depth: seq<nat>, ghost height: seq<nat>)
      requires Valid() && Ranked(nodes, depth, height) && n < |nodes|
      modifies this`frameIndex, g`color, g`alpha, g`txDepth, g`events
      ensures Valid()
      ensures var r := DrawChildren(nodes, depth, height, old(frameIndex), n, 0, old(g.color));
        frameIndex == r.0 && g.events == old(g.events) + r.1 && g.alpha == AlphaAfter(r.1, old(g.alpha))
      ensures g.txDepth == old(g.txDepth) && g.color == old(g.color)
      decreases height[n], 1
    {
      var children := nodes[n].children;
      ghost var color := g.color;
      ghost var target := DrawChildren(nodes, depth, height, frameIndex, n, 0, color);
      for k := 0 to |children|
        invariant |frameIndex| == |nodes| && g.txDepth == old(g.txDepth) && g.color == color
        invariant var rest := DrawChildren(nodes, depth, height, frameIndex, n, k, color);
          rest.0 == target.0 && g.events + rest.1 == old(g.events) + target.1
          && AlphaAfter(rest.1, g.alpha) == AlphaAfter(target.1, old(g.alpha))
      {
        DrawChild(g, n, k, depth, height);
      }
      ghost var rest := DrawChildren(nodes, depth, height, frameIndex, n, |children|, color);
      assert rest == (frameIndex, []);
      assert g.events + rest.1 == g.events;
    }

    /**
     * One pass of that loop: the child at `k` drawn at the sum of its
     * ancestors' coordinates, which takes the walk through `DrawChildren`
     * one step further.
     */
    method DrawChild(g: Graphics, n: nat, k: nat, ghost depth: seq<nat>, ghost height: seq<nat>)
      requires Valid() && Ranked(nodes, depth, height) && n < |nodes| && k < |nodes[n].children|
      modifies this`frameIndex, g`color, g`alpha, g`txDepth, g`events
      ensures Valid()
      ensures var rest := DrawChildren(nodes, depth, height, frameIndex, n, k + 1, old(g.color));
        var all := DrawChildren(nodes, depth, height, old(frameIndex), n, k, old(g.color));
        rest.0 == all.0 && g.events + rest.1 == old(g.events) + all.1
        && AlphaAfter(rest.1, g.alpha) == AlphaAfter(all.1, old(g.alpha))
      ensures g.txDepth == old(g.txDepth) && g.color == old(g.color)
      decreases height[n], 0
    {
      ChildStep(nodes, depth, height, frameIndex, n, k, g.color);
      var c := nodes[n].children[k];
      ghost var before, color, alpha := g.events, g.color, g.alpha;
      ghost var first := Draw(nodes, depth, height, frameIndex, c, AncestorSum(nodes, depth, c, Horizontal),
                              AncestorSum(nodes, depth, c, Vertical), color);
      var px := ScreenCoord(c, Horizontal, depth);
      var py := ScreenCoord(c, Vertical, depth);
      CreateUI(g, c, px, py, depth, height);
      Associate(before, first.1, DrawChildren(nodes, depth, height, frameIndex, n, k + 1, color).1);
      AlphaAfterAppend(first.1, DrawChildren(nodes, depth, height, frameIndex, n, k + 1, color).1, alpha);
    }
  }
}
