/** The 360-degree product viewer (`Product360Viewer`): the frame index that
    the auto-rotation interval, mouse drags, the thumbnails and the reset
    button move over `n` images. JavaScript's `%` truncates toward zero,
    unlike Dafny's, so it is written out as `JsRem`. */
module Viewer360 {

  // ---------------------------------------------------------------------
  // Remainders

  lemma {:induction false} MulAtLeast(x: int, n: int)
    requires x >= 1 && n > 0
    ensures x * n >= n
  {
    if x > 1 {
      MulAtLeast(x - 1, n);
      assert x * n == (x - 1) * n + n;
    }
  }

  /** Division by a positive `n` has one remainder in 0..n. */
  lemma ModUnique(a: int, n: int, q: int, r: int)
    requires 0 < n && 0 <= r < n && a == q * n + r
    ensures a % n == r
  {
    var q0, r0 := a / n, a % n;
    assert a == q0 * n + r0;
    var k := q - q0;
    assert k * n == q * n - q0 * n;
    assert k * n == r0 - r;
    if k >= 1 {
      MulAtLeast(k, n);
      assert false;
    } else if k <= -1 {
      MulAtLeast(-k, n);
      assert false;
    }
  }

  lemma ModShift(x: int, k: int, n: int)
    requires 0 < n
    ensures (x + k * n) % n == x % n
  {
    ModUnique(x + k * n, n, x / n + k, x % n);
  }

  lemma ModSucc(x: int, n: int)
    requires 0 < n
    ensures (x + 1) % n == if x % n == n - 1 then 0 else x % n + 1
  {
    if x % n == n - 1 {
      ModUnique(x + 1, n, x / n + 1, 0);
    } else {
      ModUnique(x + 1, n, x / n, x % n + 1);
    }
  }

  lemma ModPred(x: int, n: int)
    requires 0 < n
    ensures (x - 1) % n == if x % n == 0 then n - 1 else x % n - 1
  {
    if x % n == 0 {
      ModUnique(x - 1, n, x / n - 1, n - 1);
    } else {
      ModUnique(x - 1, n, x / n, x % n - 1);
    }
  }

  lemma ModNegZero(x: int, n: int)
    requires 0 < n && x % n == 0
    ensures (-x) % n == 0
  {
    ModUnique(-x, n, -(x / n), 0);
  }

  /** JavaScript's `a % n` for a positive `n`: the remainder takes the sign
      of `a`. */
  function JsRem(a: int, n: int): (r: int)
    requires n > 0
    ensures a >= 0 ==> 0 <= r < n
    ensures a < 0 ==> -n < r <= 0
  {
    if a >= 0 then a % n else -((-a) % n)
  }

  // ---------------------------------------------------------------------
  // Frame arithmetic

  /** The drag distance in whole steps: `Math.floor(Math.abs(deltaX) / 3)`. */
  const SENSITIVITY: int := 3

  function Steps(deltaX: int): (steps: nat)
    ensures steps * SENSITIVITY <= (if deltaX < 0 then -deltaX else deltaX) < (steps + 1) * SENSITIVITY
  {
    (if deltaX < 0 then -deltaX else deltaX) / SENSITIVITY
  }

  /** One auto-rotation tick: `(prev + 1) % images.length`. */
  function NextIndex(prev: int, n: int): (r: int)
    requires n > 0 && 0 <= prev < n
    ensures r == if prev == n - 1 then 0 else prev + 1
  {
    JsRem(prev + 1, n)
  }

  /** The frame before `prev`, wrapping from the first to the last. */
  function PreviousIndex(prev: int, n: int): (r: int)
    requires n > 0 && 0 <= prev < n
    ensures 0 <= r < n
  {
    if prev == 0 then n - 1 else prev - 1
  }

  /** `k` frames forward, one at a time. */
  function Ticks(prev: int, k: nat, n: int): (r: int)
    requires n > 0 && 0 <= prev < n
    ensures 0 <= r < n
  {
    if k == 0 then prev else NextIndex(Ticks(prev, k - 1, n), n)
  }

  /** `k` frames back, one at a time. */
  function TicksBack(prev: int, k: nat, n: int): (r: int)
    requires n > 0 && 0 <= prev < n
    ensures 0 <= r < n
  {
    if k == 0 then prev else PreviousIndex(TicksBack(prev, k - 1, n), n)
  }

  lemma {:induction false} TicksAdvance(prev: int, k: nat, n: int)
    requires n > 0 && 0 <= prev < n
    ensures Ticks(prev, k, n) == (prev + k) % n
  {
    if k > 0 {
      TicksAdvance(prev, k - 1, n);
      ModSucc(prev + k - 1, n);
    }
  }

  lemma {:induction false} TicksBackRetreat(prev: int, k: nat, n: int)
    requires n > 0 && 0 <= prev < n
    ensures TicksBack(prev, k, n) == (prev - k) % n
  {
    if k > 0 {
      TicksBackRetreat(prev, k - 1, n);
      ModPred(prev - k + 1, n);
    }
  }

  /** `n` ticks either way make a full turn. */
  lemma FullTurn(prev: int, n: int)
    requires n > 0 && 0 <= prev < n
    ensures Ticks(prev, n, n) == prev
    ensures TicksBack(prev, n, n) == prev
  {
    TicksAdvance(prev, n, n);
    ModUnique(prev + n, n, 1, prev);
    TicksBackRetreat(prev, n, n);
    ModUnique(prev - n, n, -1, prev);
  }

  /** A drag to the right: `(prev + steps) % images.length` turns `steps`
      frames forward. */
  function ForwardIndex(prev: int, steps: nat, n: int): (r: int)
    requires n > 0 && 0 <= prev < n
    ensures r == Ticks(prev, steps, n)
  {
    TicksAdvance(prev, steps, n);
    JsRem(prev + steps, n)
  }

  /** A drag to the left as the component writes it:
      `(prev - steps + images.length) % images.length`, with JavaScript's
      remainder. */
  function BackwardIndexAsWritten(prev: int, steps: nat, n: int): (r: int)
    requires n > 0 && 0 <= prev < n
    ensures r > -n
  {
    JsRem(prev - steps + n, n)
  }

  /** A drag to the left as intended: `steps` frames back, wrapping
      around. */
  function BackwardIndex(prev: int, steps: nat, n: int): (r: int)
    requires n > 0 && 0 <= prev < n
    ensures r == TicksBack(prev, steps, n)
  {
    TicksBackRetreat(prev, steps, n);
    (prev - steps) % n
  }

  /** The written backward step lands on a frame exactly when the drag is
      at most `prev + n` steps long or ends on a multiple of `n` (where
      JavaScript gives -0); then it is the intended frame. Any other drag
      gives a negative index. */
  lemma BackwardAsWrittenInRange(prev: int, steps: nat, n: int)
    requires n > 0 && 0 <= prev < n
    ensures var r := BackwardIndexAsWritten(prev, steps, n);
      0 <= r < n <==> steps <= prev + n || (steps - prev) % n == 0
    ensures var r := BackwardIndexAsWritten(prev, steps, n);
      0 <= r < n ==> r == BackwardIndex(prev, steps, n)
  {
    var a := prev - steps + n;
    if a >= 0 {
      ModShift(prev - steps, 1, n);
    } else {
      ModShift(steps - prev, -1, n);
      if (steps - prev) % n == 0 {
        ModNegZero(steps - prev, n);
      }
    }
  }

  /** A long drag to the left from the first of four frames: five steps
      back give the index -1, which names no image. */
  lemma BackwardAsWrittenGoesNegative()
    ensures BackwardIndexAsWritten(0, 5, 4) == -1
    ensures BackwardIndex(0, 5, 4) == 3
  {
  }

  /** A drag right and back by the same number of steps returns to the
      frame it started from. */
  lemma ForwardThenBackward(prev: int, steps: nat, n: int)
    requires n > 0 && 0 <= prev < n
    ensures BackwardIndex(ForwardIndex(prev, steps, n), steps, n) == prev
  {
    var f := ForwardIndex(prev, steps, n);
    assert f == (prev + steps) % n;
    var k := (prev + steps) / n;
    assert prev + steps == k * n + f;
    ModUnique(f - steps, n, -k, prev);
    assert BackwardIndex(f, steps, n) == (f - steps) % n;
  }

  /** The viewer's state over its `imageCount` images. */
  class Viewer {
    const imageCount: nat
    var currentIndex: int
    var isAutoRotating: bool
    var isFullscreen: bool
    var isDragging: bool
    var startX: int

    /** The index always names an image; with no images it stays 0. */
    ghost predicate Valid()
      reads this
    {
      0 <= currentIndex && (currentIndex < imageCount || (imageCount == 0 && currentIndex == 0))
    }

    /** With no images the viewer shows a placeholder and none of its
        controls. */
    predicate ShowsPlaceholder()
      reads this
    {
      imageCount == 0
    }

    constructor (imageCount: nat)
      ensures Valid()
      ensures this.imageCount == imageCount
      ensures currentIndex == 0 && !isAutoRotating && !isFullscreen && !isDragging && startX == 0
    {
      this.imageCount := imageCount;
      currentIndex := 0;
      isAutoRotating, isFullscreen, isDragging := false, false, false;
      startX := 0;
    }

    /** One run of the auto-rotation interval, which only runs while
        auto-rotation is on. */
    method Tick()
      requires Valid() && !ShowsPlaceholder() && isAutoRotating
      modifies this
      ensures Valid()
      ensures currentIndex == if old(currentIndex) == imageCount - 1 then 0 else old(currentIndex) + 1
      ensures isAutoRotating == old(isAutoRotating) && isFullscreen == old(isFullscreen)
      ensures isDragging == old(isDragging) && startX == old(startX)
    {
      currentIndex := NextIndex(currentIndex, imageCount);
    }

    /** `handleMouseDown`: the drag starts and auto-rotation stops. */
    method MouseDown(clientX: int)
      requires Valid() && !ShowsPlaceholder()
      modifies this
      ensures Valid()
      ensures isDragging && startX == clientX && !isAutoRotating
      ensures currentIndex == old(currentIndex) && isFullscreen == old(isFullscreen)
    {
      isDragging := true;
      startX := clientX;
      isAutoRotating := false;
    }

    /** `handleMouseMove`: while dragging, every three pixels since the last
        recorded position turn the view one frame, right for forward and
        left for backward; the position is recorded again only when the view
        turned. */
    method MouseMove(clientX: int)
      requires Valid() && !ShowsPlaceholder()
      modifies this
      ensures Valid()
      ensures !old(isDragging) || Steps(clientX - old(startX)) == 0 ==>
        currentIndex == old(currentIndex) && startX == old(startX)
      ensures old(isDragging) && Steps(clientX - old(startX)) > 0 ==>
        && startX == clientX
        && currentIndex == if clientX > old(startX)
                           then Ticks(old(currentIndex), Steps(clientX - old(startX)), imageCount)
                           else TicksBack(old(currentIndex), Steps(clientX - old(startX)), imageCount)
      ensures isDragging == old(isDragging) && isAutoRotating == old(isAutoRotating)
      ensures isFullscreen == old(isFullscreen)
    {
      if !isDragging {
        return;
      }
      var deltaX := clientX - startX;
      var steps := Steps(deltaX);
      if steps > 0 {
        if deltaX > 0 {
          currentIndex := ForwardIndex(currentIndex, steps, imageCount);
        } else {
          currentIndex := BackwardIndex(currentIndex, steps, imageCount);
        }
        startX := clientX;
      }
    }

    /** `handleMouseUp`, also run when the pointer leaves the viewer. */
    method MouseUp()
      requires Valid()
      modifies this
      ensures Valid()
      ensures !isDragging
      ensures currentIndex == old(currentIndex) && startX == old(startX)
      ensures isAutoRotating == old(isAutoRotating) && isFullscreen == old(isFullscreen)
    {
      isDragging := false;
    }

    method ToggleAutoRotate()
      requires Valid()
      modifies this
      ensures Valid()
      ensures isAutoRotating == !old(isAutoRotating)
      ensures currentIndex == old(currentIndex) && isDragging == old(isDragging) && startX == old(startX)
      ensures isFullscreen == old(isFullscreen)
    {
      isAutoRotating := !isAutoRotating;
    }

    method ToggleFullscreen()
      requires Valid()
      modifies this
      ensures Valid()
      ensures isFullscreen == !old(isFullscreen)
      ensures currentIndex == old(currentIndex) && isDragging == old(isDragging) && startX == old(startX)
      ensures isAutoRotating == old(isAutoRotating)
    {
      isFullscreen := !isFullscreen;
    }

    /** `resetRotation`: back to the first frame, auto-rotation off. */
    method ResetRotation()
      requires Valid()
      modifies this
      ensures Valid()
      ensures currentIndex == 0 && !isAutoRotating
      ensures isDragging == old(isDragging) && startX == old(startX) && isFullscreen == old(isFullscreen)
    {
      currentIndex := 0;
      isAutoRotating := false;
    }

    /** A click on the thumbnail of frame `index`. */
    method SelectFrame(index: int)
      requires Valid() && 0 <= index < imageCount
      modifies this
      ensures Valid()
      ensures currentIndex == index
      ensures isAutoRotating == old(isAutoRotating) && isDragging == old(isDragging) && startX == old(startX)
      ensures isFullscreen == old(isFullscreen)
    {
      currentIndex := index;
    }
  }
}
