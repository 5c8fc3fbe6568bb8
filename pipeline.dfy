/** The per-frame loops `process_images` and `process_video` of
    helper/utils.py. The window system, the keyboard, the video decoder and
    the background-subtraction algorithm are abstract objects; every call
    they receive is added to one ghost trace, so the order of the calls is
    part of what the loops are proved to do. */
module Pipeline {

  /** An image as the loops see it: a picture read from a path, a frame of a
      video, the outputs of the algorithm once it has been given `step`
      frames, or the empty frame a failed read returns. */
  datatype Image =
    | Picture(path: string)
    | VideoFrame(index: nat)
    | ForegroundMask(step: nat)
    | BackgroundModel(step: nat)
    | NoFrame

  /** The windows the loops draw in. */
  datatype Window = OriginalImage | OriginalVideo | ForegroundMaskWindow | BackgroundModelWindow

  /** The title each window is opened with. The four titles differ, so a
      title names one window and `Shown(w, ...)` records the title shown. */
  function Title(w: Window): string
  {
    match w
    case OriginalImage => "Original Image"
    case OriginalVideo => "Original Video"
    case ForegroundMaskWindow => "Foreground Mask"
    case BackgroundModelWindow => "Background Model"
  }

  /** One call made by a loop. */
  datatype Event =
    | ImageRead(path: string)
    | FrameGrab(success: bool)
    | Applied(input: Image)
    | ModelFetched
    | Shown(window: Window, image: Image)
    | KeyWaited(delay: int, key: int)
    | FramesLeft(count: int)

  /** The calls made so far, the latest outermost. */
  datatype Log = Start | Then(earlier: Log, last: Event)

  /** The ghost record of every call. */
  class Trace {
    ghost var log: Log

    constructor()
      ensures log == Start
    {
      log := Start;
    }
  }

  /** The background-subtraction algorithm. Its state is summed up by how
      many frames it has been given; which frames they were is in the trace. */
  class Algorithm {
    var step: nat

    constructor()
      ensures step == 0
    {
      step := 0;
    }

    /** `algorithm.apply(img)`: feeds one frame and returns the foreground mask. */
    method Apply(img: Image, trace: Trace) returns (mask: Image)
      modifies this, trace
      ensures step == old(step) + 1
      ensures mask == ForegroundMask(step)
      ensures trace.log == Then(old(trace.log), Applied(img))
    {
      step := step + 1;
      mask := ForegroundMask(step);
      trace.log := Then(trace.log, Applied(img));
    }

    /** `algorithm.getBackgroundModel()`: the model after the frames seen so far. */
    method GetBackgroundModel(trace: Trace) returns (model: Image)
      modifies trace
      ensures model == BackgroundModel(step)
      ensures trace.log == Then(old(trace.log), ModelFetched)
    {
      model := BackgroundModel(step);
      trace.log := Then(trace.log, ModelFetched);
    }
  }

  /** The key that the `i`-th call of `waitKey` returns: the `i`-th key the
      user pressed, and -1 (no key within the delay) once there are none. */
  function KeyAt(keys: seq<int>, i: nat): int
  {
    if i < |keys| then keys[i] else -1
  }

  /** `2^n`. */
  function Pow2(n: nat): (p: nat)
    ensures p >= 1
  {
    if n == 0 then 1 else 2 * Pow2(n - 1)
  }

  /** `k & (2^n - 1)` as Python computes it on an int of either sign, one
      bit at a time: the lowest bit is `k & 1` and the rest is `k >> 1`.
      On a positive divisor Dafny's `%` and `/` round down, as Python's
      `&` and `>>` do on a negative int. */
  function LowBits(k: int, n: nat): nat
    decreases n
  {
    if n == 0 then 0 else k % 2 + 2 * LowBits(k / 2, n - 1)
  }

  /** The `n` low bits are the remainder by `2^n`. */
  lemma {:induction false} LowBitsMod(k: int, n: nat)
    ensures LowBits(k, n) == k % Pow2(n)
    decreases n
  {
    if n > 0 {
      LowBitsMod(k / 2, n - 1);
      ModDouble(k, Pow2(n - 1));
    }
  }

  /** The remainder by `2 * p` is the low bit, then the remainder of the
      rest by `p`. */
  lemma ModDouble(k: int, p: int)
    requires p >= 1
    ensures k % (2 * p) == k % 2 + 2 * ((k / 2) % p)
  {
    var q, b := (k / 2) / p, (k / 2) % p;
    assert k / 2 == p * q + b;
    assert k == 2 * (k / 2) + k % 2;
    assert 2 * (p * q) == (2 * p) * q;
    ModUnique(k, 2 * p, q, 2 * b + k % 2);
  }

  /** The remainder by `m` is the only `r` in `[0, m)` with `k == m * q + r`. */
  lemma ModUnique(k: int, m: int, q: int, r: int)
    requires m > 0 && 0 <= r < m && k == m * q + r
    ensures k % m == r
  {
    var q', r' := k / m, k % m;
    if q' < q {
      assert m * (q - q') == m * q - m * q';
      MulAtLeast(m, q - q');
      assert false;
    } else if q' > q {
      assert m * (q' - q) == m * q' - m * q;
      MulAtLeast(m, q' - q);
      assert false;
    }
  }

  lemma {:induction false} MulAtLeast(m: int, d: int)
    requires m > 0 && d >= 1
    ensures m * d >= m
    decreases d
  {
    if d > 1 {
      MulAtLeast(m, d - 1);
      assert m * d == m * (d - 1) + m;
    }
  }

  /** `waitKey(...) & 0xFF == 27`, with the mask written as a remainder. */
  predicate IsEsc(key: int)
  {
    key % 256 == 27
  }

  /** The remainder form of `IsEsc` is the bitwise test: the low byte of the
      key code is ESC. */
  lemma EscLowByte(key: int)
    ensures IsEsc(key) <==> LowBits(key, 8) == 27
  {
    LowBitsMod(key, 8);
  }

  /** ESC itself and ESC with bits above the low byte set stop the loops;
      the -1 of a wait with no key does not, its low byte being 255. */
  lemma EscExamples()
    ensures IsEsc(27) && IsEsc(0x1_001B) && !IsEsc(-1)
  {
  }

  /** The window system and the console. */
  class Display {
    /** The keys the user presses, one per call of `waitKey`. */
    const keys: seq<int>
    /** How many times `waitKey` has been called. */
    var pressed: nat

    constructor(keys: seq<int>)
      ensures this.keys == keys && pressed == 0
    {
      this.keys := keys;
      pressed := 0;
    }

    /** `cv2.imread(path)`. */
    method ImRead(path: string, trace: Trace) returns (img: Image)
      modifies trace
      ensures img == Picture(path)
      ensures trace.log == Then(old(trace.log), ImageRead(path))
    {
      img := Picture(path);
      trace.log := Then(trace.log, ImageRead(path));
    }

    /** `cv2.imshow(Title(window), img)`. */
    method ImShow(window: Window, img: Image, trace: Trace)
      modifies trace
      ensures trace.log == Then(old(trace.log), Shown(window, img))
    {
      trace.log := Then(trace.log, Shown(window, img));
    }

    /** `cv2.waitKey(delay)`: the next key, or -1. */
    method WaitKey(delay: int, trace: Trace) returns (key: int)
      modifies this, trace
      ensures key == KeyAt(keys, old(pressed))
      ensures pressed == old(pressed) + 1
      ensures trace.log == Then(old(trace.log), KeyWaited(delay, key))
    {
      key := KeyAt(keys, pressed);
      pressed := pressed + 1;
      trace.log := Then(trace.log, KeyWaited(delay, key));
    }

    /** `print("Frames left: " + str(count))`. */
    method PrintFramesLeft(count: int, trace: Trace)
      modifies trace
      ensures trace.log == Then(old(trace.log), FramesLeft(count))
    {
      trace.log := Then(trace.log, FramesLeft(count));
    }
  }

  /** An opened `cv2.VideoCapture`: the frames of the file and the position
      of the next one. */
  class Capture {
    const frames: seq<Image>
    var next: nat

    ghost predicate Valid()
      reads this
    {
      next <= |frames|
    }

    constructor(frames: seq<Image>)
      ensures this.frames == frames && next == 0 && Valid()
    {
      this.frames := frames;
      next := 0;
    }

    /** `capture.read()`: the next frame and `True`, or `False` past the end. */
    method Read(trace: Trace) returns (flag: bool, frame: Image)
      requires Valid()
      modifies this, trace
      ensures Valid()
      ensures flag <==> old(next) < |frames|
      ensures frame == if flag then frames[old(next)] else NoFrame
      ensures next == if flag then old(next) + 1 else old(next)
      ensures trace.log == Then(old(trace.log), FrameGrab(flag))
    {
      flag := next < |frames|;
      if flag {
        frame := frames[next];
        next := next + 1;
      } else {
        frame := NoFrame;
      }
      trace.log := Then(trace.log, FrameGrab(flag));
    }
  }

  // ---------------------------------------------------------------------------
  // When the loops stop
  // ---------------------------------------------------------------------------

  /** How many of the next `n` calls of `waitKey`, starting with call `at`,
      return a key that is not ESC before the first ESC. */
  function Quiet(keys: seq<int>, at: nat, n: nat): (r: nat)
    ensures r <= n
    ensures r < n ==> IsEsc(KeyAt(keys, at + r))
    decreases n
  {
    if n == 0 then 0
    else if IsEsc(KeyAt(keys, at)) then 0
    else 1 + Quiet(keys, at + 1, n - 1)
  }

  /** None of the keys before the first ESC is ESC. */
  lemma {:induction false} QuietKeys(keys: seq<int>, at: nat, n: nat)
    ensures forall j :: at <= j < at + Quiet(keys, at, n) ==> !IsEsc(KeyAt(keys, j))
    decreases n
  {
    if n > 0 && !IsEsc(KeyAt(keys, at)) {
      QuietKeys(keys, at + 1, n - 1);
    }
  }

  /** The facts that `QuietKeys` and the contract of `Quiet` state
      determine `Quiet`. */
  lemma {:induction false} QuietUnique(keys: seq<int>, at: nat, n: nat, r: nat)
    requires r <= n
    requires forall j :: at <= j < at + r ==> !IsEsc(KeyAt(keys, j))
    requires r < n ==> IsEsc(KeyAt(keys, at + r))
    ensures r == Quiet(keys, at, n)
    decreases n
  {
    if n > 0 && r > 0 {
      assert !IsEsc(KeyAt(keys, at));
      QuietUnique(keys, at + 1, n - 1, r - 1);
    }
  }

  /** One more key that is not ESC. */
  lemma QuietExtend(keys: seq<int>, at: nat, i: nat)
    requires Quiet(keys, at, i) == i && !IsEsc(KeyAt(keys, at + i))
    ensures Quiet(keys, at, i + 1) == i + 1
  {
    QuietKeys(keys, at, i);
    QuietUnique(keys, at, i + 1, i + 1);
  }

  /** ESC on the key after `i` that were not: the loop over `n` stops there. */
  lemma QuietStop(keys: seq<int>, at: nat, n: nat, i: nat)
    requires Quiet(keys, at, i) == i && i < n && IsEsc(KeyAt(keys, at + i))
    ensures Quiet(keys, at, n) == i
  {
    QuietKeys(keys, at, i);
    QuietUnique(keys, at, n, i);
  }

  /** How many frames a loop over `n` frames processes: all of them, or
      those up to and including the one on which ESC was pressed. */
  function Processed(keys: seq<int>, at: nat, n: nat): nat
  {
    var q := Quiet(keys, at, n);
    if q < n then q + 1 else n
  }

  // ---------------------------------------------------------------------------
  // process_images
  // ---------------------------------------------------------------------------

  /** The index of the first occurrence of `x`, as `list.index` returns it. */
  function IndexOf(s: seq<string>, x: string): (r: nat)
    requires x in s
    ensures r < |s|
  {
    if s[0] == x then 0 else 1 + IndexOf(s[1..], x)
  }

  /** `IndexOf` finds `x`, and no earlier entry is `x`. */
  lemma {:induction false} IndexOfFirst(s: seq<string>, x: string)
    requires x in s
    ensures s[IndexOf(s, x)] == x
    ensures forall k :: 0 <= k < IndexOf(s, x) ==> s[k] != x
  {
    if s[0] != x {
      IndexOfFirst(s[1..], x);
    }
  }

  predicate Distinct(s: seq<string>)
  {
    forall i, k :: 0 <= i < k < |s| ==> s[i] != s[k]
  }

  /** For paths without repeats, the first occurrence of a path is its own
      position. */
  lemma IndexOfDistinct(s: seq<string>, i: nat)
    requires Distinct(s) && i < |s|
    ensures IndexOf(s, s[i]) == i
  {
    IndexOfFirst(s, s[i]);
  }

  /** `log` followed by the calls `process_images` makes for one path, up to
      the key wait: read, apply, get the model, show the three windows, wait
      10 ms. `step` counts the frames the algorithm has had, this one
      included. */
  function AfterImage(log: Log, path: string, step: nat, key: int): Log
  {
    var read := Then(log, ImageRead(path));
    var applied := Then(Then(read, Applied(Picture(path))), ModelFetched);
    var shown := Then(Then(Then(applied, Shown(OriginalImage, Picture(path))),
                           Shown(ForegroundMaskWindow, ForegroundMask(step))),
                      Shown(BackgroundModelWindow, BackgroundModel(step)));
    Then(shown, KeyWaited(10, key))
  }

  /** `log` followed by the calls for the first `i` paths when none of them
      saw ESC: each path's calls, then "Frames left: " with the count of
      paths from the first occurrence of that path on. The algorithm had
      `seen` frames before and the first `waitKey` is call `at`. */
  function ImagesRun(log: Log, paths: seq<string>, keys: seq<int>, at: nat, seen: nat,
                     i: nat): Log
    requires i <= |paths|
  {
    if i == 0 then log
    else
      var path := paths[i - 1];
      Then(AfterImage(ImagesRun(log, paths, keys, at, seen, i - 1), path, seen + i,
                      KeyAt(keys, at + i - 1)),
           FramesLeft(|paths| - IndexOf(paths, path)))
  }

  /** `log` followed by every call of `process_images(paths, algorithm)`:
      the paths before the first ESC, then, if ESC came, the calls for the
      path on which it came and nothing more. */
  function ImagesLog(log: Log, paths: seq<string>, keys: seq<int>, at: nat, seen: nat): Log
  {
    var q := Quiet(keys, at, |paths|);
    var done := ImagesRun(log, paths, keys, at, seen, q);
    if q < |paths| then AfterImage(done, paths[q], seen + q + 1, KeyAt(keys, at + q))
    else done
  }

  /** The body of the loop of `process_images` up to the ESC test. */
  method ShowImage(path: string, algorithm: Algorithm, display: Display, trace: Trace)
    returns (key: int)
    modifies algorithm, display, trace
    ensures key == KeyAt(display.keys, old(display.pressed))
    ensures display.pressed == old(display.pressed) + 1
    ensures algorithm.step == old(algorithm.step) + 1
    ensures trace.log == AfterImage(old(trace.log), path, algorithm.step, key)
  {
    var img := display.ImRead(path, trace);
    var output := algorithm.Apply(img, trace);
    var model := algorithm.GetBackgroundModel(trace);
    display.ImShow(OriginalImage, img, trace);
    display.ImShow(ForegroundMaskWindow, output, trace);
    display.ImShow(BackgroundModelWindow, model, trace);
    key := display.WaitKey(10, trace);
  }

  /** `process_images(img_array, algorithm)`. */
  method ProcessImages(paths: seq<string>, algorithm: Algorithm, display: Display,
                       trace: Trace)
    modifies algorithm, display, trace
    ensures trace.log ==
      ImagesLog(old(trace.log), paths, display.keys, old(display.pressed), old(algorithm.step))
    ensures display.pressed ==
      old(display.pressed) + Processed(display.keys, old(display.pressed), |paths|)
    ensures algorithm.step ==
      old(algorithm.step) + Processed(display.keys, old(display.pressed), |paths|)
  {
    ghost var keys := display.keys;
    ghost var l0, p0, s0 := trace.log, display.pressed, algorithm.step;
    var i := 0;
    while i < |paths|
      invariant 0 <= i <= |paths|
      invariant display.pressed == p0 + i && algorithm.step == s0 + i
      invariant Quiet(keys, p0, i) == i
      invariant trace.log == ImagesRun(l0, paths, keys, p0, s0, i)
    {
      var path := paths[i];
      var key := ShowImage(path, algorithm, display, trace);
      if IsEsc(key) {
        QuietStop(keys, p0, |paths|, i);
        break;
      }
      display.PrintFramesLeft(|paths| - IndexOf(paths, path), trace);
      QuietExtend(keys, p0, i);
      i := i + 1;
    }
  }

  // ---------------------------------------------------------------------------
  // process_video
  // ---------------------------------------------------------------------------

  /** `log` followed by the calls `process_video` makes for a frame once it
      was grabbed: show it, apply, get the model, show the other two
      windows, wait 10 ms. */
  function FrameCalls(log: Log, frame: Image, step: nat, key: int): Log
  {
    var shown := Then(log, Shown(OriginalVideo, frame));
    var applied := Then(Then(shown, Applied(frame)), ModelFetched);
    var outputs := Then(Then(applied, Shown(ForegroundMaskWindow, ForegroundMask(step))),
                        Shown(BackgroundModelWindow, BackgroundModel(step)));
    Then(outputs, KeyWaited(10, key))
  }

  /** `log` followed by the calls for the first `i` frames from `next` when
      none of them saw ESC. */
  function VideoRun(log: Log, frames: seq<Image>, next: nat, keys: seq<int>, at: nat,
                    seen: nat, i: nat): Log
    requires next + i <= |frames|
  {
    if i == 0 then log
    else FrameCalls(Then(VideoRun(log, frames, next, keys, at, seen, i - 1), FrameGrab(true)),
                    frames[next + i - 1], seen + i, KeyAt(keys, at + i - 1))
  }

  /** `log` followed by every call of the frame loop of `process_video`
      from frame `next` on: the frames before the first ESC, then either the
      frame on which ESC came, or the read that found no frame. */
  function VideoLog(log: Log, frames: seq<Image>, next: nat, keys: seq<int>, at: nat,
                    seen: nat): Log
    requires next <= |frames|
  {
    var n := |frames| - next;
    var q := Quiet(keys, at, n);
    var done := VideoRun(log, frames, next, keys, at, seen, q);
    if q < n then
      FrameCalls(Then(done, FrameGrab(true)), frames[next + q], seen + q + 1, KeyAt(keys, at + q))
    else Then(done, FrameGrab(false))
  }

  /** The body of the frame loop of `process_video` once a frame was
      grabbed, up to the ESC test. */
  method ShowFrame(frame: Image, algorithm: Algorithm, display: Display, trace: Trace)
    returns (key: int)
    modifies algorithm, display, trace
    ensures key == KeyAt(display.keys, old(display.pressed))
    ensures display.pressed == old(display.pressed) + 1
    ensures algorithm.step == old(algorithm.step) + 1
    ensures trace.log == FrameCalls(old(trace.log), frame, algorithm.step, key)
  {
    display.ImShow(OriginalVideo, frame, trace);
    var output := algorithm.Apply(frame, trace);
    var model := algorithm.GetBackgroundModel(trace);
    display.ImShow(ForegroundMaskWindow, output, trace);
    display.ImShow(BackgroundModelWindow, model, trace);
    key := display.WaitKey(10, trace);
  }

  /** The frame loop of `process_video(video_file, algorithm)`, on a capture
      that is already open. */
  method ProcessVideo(capture: Capture, algorithm: Algorithm, display: Display,
                      trace: Trace)
    requires capture.Valid()
    modifies capture, algorithm, display, trace
    ensures trace.log == VideoLog(old(trace.log), capture.frames, old(capture.next),
                                  display.keys, old(display.pressed), old(algorithm.step))
    ensures var n := Processed(display.keys, old(display.pressed),
                               |capture.frames| - old(capture.next));
      && capture.next == old(capture.next) + n
      && display.pressed == old(display.pressed) + n
      && algorithm.step == old(algorithm.step) + n
  {
    ghost var frames, keys := capture.frames, display.keys;
    ghost var l0, n0, p0, s0 := trace.log, capture.next, display.pressed, algorithm.step;
    ghost var i := 0;
    while true
      invariant capture.Valid() && capture.next == n0 + i
      invariant display.pressed == p0 + i && algorithm.step == s0 + i
      invariant Quiet(keys, p0, i) == i
      invariant trace.log == VideoRun(l0, frames, n0, keys, p0, s0, i)
      decreases |frames| - capture.next
    {
      var flag, frame := capture.Read(trace);
      if !flag {
        break;
      }
      var key := ShowFrame(frame, algorithm, display, trace);
      if IsEsc(key) {
        QuietStop(keys, p0, |frames| - n0, i);
        break;
      }
      QuietExtend(keys, p0, i);
      i := i + 1;
    }
  }
}
