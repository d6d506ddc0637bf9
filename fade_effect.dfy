/**
 * `FadeEffect`: a full-screen fade driven by a frame counter. A fade-in
 * counts `currentFrame` down from `time` to 0, a fade-out counts it up from 0
 * to `time`; reaching the end sets the alpha to 0 and latches `finished`.
 * The counter is a float in the engine; it only ever moves by whole steps
 * from an int delay, so it is an `int` here.
 */
module Fade {
  import opened Wrappers

  /** `type == TYPE_FADE_IN` or any other type code (which fades out). */
  datatype FadeType = FadeIn | FadeOut

  /** The fields `onUpdate` and `setDelay` read and write. */
  datatype FadeState = FadeState(time: int, currentFrame: int, fadeType: FadeType, finished: bool, alpha: real)

  /** The rectangle `repaint` fills. */
  datatype FillRect = FillRect(x: real, y: real, width: real, height: real)

  /** `setDelay(delay)`: the counter restarts at the end the fade counts from. */
  function SetDelayState(s: FadeState, delay: int): (t: FadeState)
    ensures t.time == delay
    ensures t.currentFrame == (if s.fadeType == FadeIn then delay else 0)
    ensures t.fadeType == s.fadeType && t.finished == s.finished && t.alpha == s.alpha
  {
    s.(time := delay, currentFrame := if s.fadeType == FadeIn then delay else 0)
  }

  /** One `onUpdate` call. */
  function Step(s: FadeState): (r: FadeState)
    ensures r.time == s.time && r.fadeType == s.fadeType
    ensures s.finished ==> r.finished
    ensures r.finished && !s.finished ==> r.alpha == 0.0
  {
    if s.fadeType == FadeIn then
      var c := s.currentFrame - 1;
      if c == 0 then s.(currentFrame := c, alpha := 0.0, finished := true) else s.(currentFrame := c)
    else
      var c := s.currentFrame + 1;
      if c == s.time then s.(currentFrame := c, alpha := 0.0, finished := true) else s.(currentFrame := c)
  }

  /** `k` consecutive `onUpdate` calls. */
  function Steps(s: FadeState, k: nat): (r: FadeState)
    ensures r.time == s.time && r.fadeType == s.fadeType
  {
    if k == 0 then s else Step(Steps(s, k - 1))
  }

  /** An update moves the counter by exactly one toward the end of the fade. */
  lemma StepMovesCounter(s: FadeState)
    ensures Step(s).currentFrame == s.currentFrame + (if s.fadeType == FadeIn then -1 else 1)
    ensures Step(s).time == s.time && Step(s).fadeType == s.fadeType
  {
  }

  /** An update never clears `finished`; only `setStop` can. */
  lemma {:induction false} StepKeepsFinished(s: FadeState, k: nat)
    requires s.finished
    ensures Steps(s, k).finished
  {
    if k > 0 {
      StepKeepsFinished(s, k - 1);
    }
  }

  /** After `k` updates the counter has moved by `k` and nothing else but finished and alpha changed. */
  lemma {:induction false} StepsCounter(s: FadeState, k: nat)
    ensures Steps(s, k).currentFrame == s.currentFrame + (if s.fadeType == FadeIn then -(k as int) else k as int)
    ensures Steps(s, k).time == s.time && Steps(s, k).fadeType == s.fadeType
  {
    if k > 0 {
      StepsCounter(s, k - 1);
    }
  }

  /**
   * `finished` is latched at update `k` exactly when it was already set or
   * the counter passed the end of the fade at one of the first `k` updates.
   */
  lemma {:induction false} StepsFinished(s: FadeState, k: nat)
    ensures Steps(s, k).finished <==>
      s.finished || exists j :: 1 <= j <= k && EndReachedAt(s, j)
  {
    if k > 0 {
      StepsFinished(s, k - 1);
      StepsCounter(s, k - 1);
      if EndReachedAt(s, k) {
      } else {
        assert forall j :: 1 <= j <= k && EndReachedAt(s, j) ==> j < k;
      }
    }
  }

  /** The counter value after `j` updates is the end value of the fade. */
  ghost predicate EndReachedAt(s: FadeState, j: int)
  {
    if s.fadeType == FadeIn then s.currentFrame - j == 0 else s.currentFrame + j == s.time
  }

  /**
   * After `setDelay(n)` with `n > 0` on an unfinished effect, `finished`
   * becomes true after exactly `n` updates and not before, for either type.
   */
  lemma FinishesAfterExactlyDelay(s: FadeState, n: int, k: nat)
    requires n > 0 && !s.finished
    ensures Steps(SetDelayState(s, n), k).finished <==> k >= n
  {
    var t := SetDelayState(s, n);
    StepsFinished(t, k);
    if k >= n {
      assert EndReachedAt(t, n);
    }
  }

  /** With a delay of 0 a fade-in runs past 0 and never finishes. */
  lemma ZeroDelayFadeInNeverFinishes(s: FadeState, k: nat)
    requires s.fadeType == FadeIn && !s.finished
    ensures !Steps(SetDelayState(s, 0), k).finished
  {
    var t := SetDelayState(s, 0);
    StepsFinished(t, k);
  }

  class FadeEffect {
    var time: int
    var currentFrame: int
    var fadeType: FadeType
    var finished: bool
    var alpha: real
    var x: real
    var y: real
    var width: real
    var height: real
    var offsetX: int
    var offsetY: int

    /** The fields the counter logic works on, as one value. */
    function State(): FadeState
      reads this
    {
      FadeState(time, currentFrame, fadeType, finished, alpha)
    }

    /**
     * `FadeEffect(c, delay, type, w, h)`: sets the type, then the delay, then the
     * size. The colour is not modelled; the entity's initial alpha, which the
     * entity base class sets, is taken as `initialAlpha`.
     */
    constructor (delay: int, fadeType: FadeType, w: real, h: real, initialAlpha: real)
      ensures State() == SetDelayState(FadeState(0, 0, fadeType, false, initialAlpha), delay)
      ensures width == w && height == h && x == 0.0 && y == 0.0 && offsetX == 0 && offsetY == 0
    {
      this.fadeType := fadeType;
      this.finished := false;
      this.alpha := initialAlpha;
      this.x, this.y, this.offsetX, this.offsetY := 0.0, 0.0, 0, 0;
      this.time, this.currentFrame := 0, 0;
      this.width, this.height := w, h;
      new;
      SetDelay(delay);
    }

    method SetDelay(delay: int)
      modifies this
      ensures State() == SetDelayState(old(State()), delay)
      ensures x == old(x) && y == old(y) && width == old(width) && height == old(height)
      ensures offsetX == old(offsetX) && offsetY == old(offsetY)
    {
      time := delay;
      if fadeType == FadeIn {
        currentFrame := time;
      } else {
        currentFrame := 0;
      }
    }

    method OnUpdate()
      modifies this
      ensures State() == Step(old(State()))
      ensures x == old(x) && y == old(y) && width == old(width) && height == old(height)
      ensures offsetX == old(offsetX) && offsetY == old(offsetY)
    {
      if fadeType == FadeIn {
        currentFrame := currentFrame - 1;
        if currentFrame == 0 {
          alpha := 0.0;
          finished := true;
        }
      } else {
        currentFrame := currentFrame + 1;
        if currentFrame == time {
          alpha := 0.0;
          finished := true;
        }
      }
    }

    method SetStop(stop: bool)
      modifies this`finished
      ensures finished == stop
    {
      finished := stop;
    }

    /** `setType` changes the type and leaves the counter where it was. */
    method SetType(t: FadeType)
      modifies this`fadeType
      ensures fadeType == t
    {
      fadeType := t;
    }

    /** `close`: the entity's own release is not modelled; the effect is finished. */
    method Close()
      modifies this`finished
      ensures finished
    {
      finished := true;
    }

    /**
     * `repaint(g, sx, sy)`: nothing once finished, otherwise one filled
     * rectangle at the offset position. The tint (opacity `currentFrame/time`)
     * is set and restored around it and is not modelled.
     */
    method Repaint(sx: real, sy: real) returns (drawn: Option<FillRect>)
      ensures finished <==> drawn.None?
      ensures drawn.Some? ==> drawn.value == FillRect(offsetX as real + x + sx, offsetY as real + y + sy, width, height)
    {
      if finished {
        return None;
      }
      drawn := Some(FillRect(offsetX as real + x + sx, offsetY as real + y + sy, width, height));
    }
  }
}
