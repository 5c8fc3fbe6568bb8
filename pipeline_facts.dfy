/** What the traces of `process_images` and `process_video` say, read off
    through projections: which images the algorithm is given, what is
    printed, which keys are waited for, how many calls there are, and that
    the mask and model on screen are always the ones after the latest
    frame. */
module PipelineFacts {
  import opened Pipeline

  // ---------------------------------------------------------------------------
  // Projections of a trace
  // ---------------------------------------------------------------------------

  /** The images handed to `apply`, in order. */
  function Inputs(log: Log): seq<Image>
  {
    match log
    case Start => []
    case Then(earlier, e) => if e.Applied? then Inputs(earlier) + [e.input] else Inputs(earlier)
  }

  /** The counts printed as "Frames left", in order. */
  function Printed(log: Log): seq<int>
  {
    match log
    case Start => []
    case Then(earlier, e) => if e.FramesLeft? then Printed(earlier) + [e.count] else Printed(earlier)
  }

  /** The keys `waitKey` returned, in order. */
  function Keys(log: Log): seq<int>
  {
    match log
    case Start => []
    case Then(earlier, e) => if e.KeyWaited? then Keys(earlier) + [e.key] else Keys(earlier)
  }

  /** The number of calls. */
  function Length(log: Log): nat
  {
    match log
    case Start => 0
    case Then(earlier, _) => Length(earlier) + 1
  }

  /** Every foreground mask and background model shown is the one the
      algorithm has after all the frames applied before it, `base` frames
      having been applied before the trace began. */
  predicate ShowsLatest(log: Log, base: nat)
  {
    match log
    case Start => true
    case Then(earlier, e) =>
      && ShowsLatest(earlier, base)
      && (e.Shown? && e.window == ForegroundMaskWindow ==>
            e.image == ForegroundMask(base + |Inputs(earlier)|))
      && (e.Shown? && e.window == BackgroundModelWindow ==>
            e.image == BackgroundModel(base + |Inputs(earlier)|))
  }

  /** The pictures read from `paths`. */
  function Pictures(paths: seq<string>): seq<Image>
  {
    seq(|paths|, k requires 0 <= k < |paths| => Picture(paths[k]))
  }

  /** The counts `process_images` prints after the first `i` paths. */
  function Countdown(paths: seq<string>, i: nat): seq<int>
    requires i <= |paths|
  {
    if i == 0 then [] else Countdown(paths, i - 1) + [|paths| - IndexOf(paths, paths[i - 1])]
  }

  /** After path `k` the count of the paths from its first occurrence on
      is printed. */
  lemma {:induction false} CountdownAt(paths: seq<string>, i: nat, k: nat)
    requires k < i <= |paths|
    ensures |Countdown(paths, i)| == i
    ensures Countdown(paths, i)[k] == |paths| - IndexOf(paths, paths[k])
  {
    if k < i - 1 {
      CountdownAt(paths, i - 1, k);
    } else {
      CountdownLength(paths, i - 1);
    }
  }

  lemma {:induction false} CountdownLength(paths: seq<string>, i: nat)
    requires i <= |paths|
    ensures |Countdown(paths, i)| == i
  {
    if i > 0 {
      CountdownLength(paths, i - 1);
    }
  }

  /** The keys of `n` calls of `waitKey` from call `at` on. */
  function KeysFrom(keys: seq<int>, at: nat, n: nat): seq<int>
  {
    seq(n, j requires 0 <= j < n => KeyAt(keys, at + j))
  }

  // ---------------------------------------------------------------------------
  // One image, one frame
  // ---------------------------------------------------------------------------

  /** How one call changes the projections. */
  lemma ThenProjections(log: Log, e: Event)
    ensures Inputs(Then(log, e)) == Inputs(log) + (if e.Applied? then [e.input] else [])
    ensures Printed(Then(log, e)) == Printed(log) + (if e.FramesLeft? then [e.count] else [])
    ensures Keys(Then(log, e)) == Keys(log) + (if e.KeyWaited? then [e.key] else [])
    ensures Length(Then(log, e)) == Length(log) + 1
  {
    assert Inputs(log) + [] == Inputs(log);
    assert Printed(log) + [] == Printed(log);
    assert Keys(log) + [] == Keys(log);
  }

  lemma AfterImageCalls(log: Log, path: string, step: nat, key: int)
    ensures Inputs(AfterImage(log, path, step, key)) == Inputs(log) + [Picture(path)]
    ensures Printed(AfterImage(log, path, step, key)) == Printed(log)
    ensures Keys(AfterImage(log, path, step, key)) == Keys(log) + [key]
    ensures Length(AfterImage(log, path, step, key)) == Length(log) + 7
  {
    var read := Then(log, ImageRead(path));
    var applied := Then(read, Applied(Picture(path)));
    var fetched := Then(applied, ModelFetched);
    var s1 := Then(fetched, Shown(OriginalImage, Picture(path)));
    var s2 := Then(s1, Shown(ForegroundMaskWindow, ForegroundMask(step)));
    var s3 := Then(s2, Shown(BackgroundModelWindow, BackgroundModel(step)));
    ThenProjections(log, ImageRead(path));
    ThenProjections(read, Applied(Picture(path)));
    ThenProjections(applied, ModelFetched);
    ThenProjections(fetched, Shown(OriginalImage, Picture(path)));
    ThenProjections(s1, Shown(ForegroundMaskWindow, ForegroundMask(step)));
    ThenProjections(s2, Shown(BackgroundModelWindow, BackgroundModel(step)));
    ThenProjections(s3, KeyWaited(10, key));
  }

  lemma AfterImageLatest(log: Log, path: string, step: nat, key: int, base: nat)
    requires ShowsLatest(log, base) && step == base + |Inputs(log)| + 1
    ensures ShowsLatest(AfterImage(log, path, step, key), base)
  {
    var read := Then(log, ImageRead(path));
    var applied := Then(read, Applied(Picture(path)));
    var fetched := Then(applied, ModelFetched);
    var s1 := Then(fetched, Shown(OriginalImage, Picture(path)));
    var s2 := Then(s1, Shown(ForegroundMaskWindow, ForegroundMask(step)));
    ThenProjections(log, ImageRead(path));
    ThenProjections(read, Applied(Picture(path)));
    ThenProjections(applied, ModelFetched);
    ThenProjections(fetched, Shown(OriginalImage, Picture(path)));
    ThenProjections(s1, Shown(ForegroundMaskWindow, ForegroundMask(step)));
    assert ShowsLatest(applied, base);
    assert ShowsLatest(s1, base);
    assert ShowsLatest(s2, base);
  }

  lemma FrameCallsCalls(log: Log, frame: Image, step: nat, key: int)
    ensures Inputs(FrameCalls(log, frame, step, key)) == Inputs(log) + [frame]
    ensures Printed(FrameCalls(log, frame, step, key)) == Printed(log)
    ensures Keys(FrameCalls(log, frame, step, key)) == Keys(log) + [key]
    ensures Length(FrameCalls(log, frame, step, key)) == Length(log) + 6
  {
    var shown := Then(log, Shown(OriginalVideo, frame));
    var applied := Then(shown, Applied(frame));
    var fetched := Then(applied, ModelFetched);
    var s2 := Then(fetched, Shown(ForegroundMaskWindow, ForegroundMask(step)));
    var s3 := Then(s2, Shown(BackgroundModelWindow, BackgroundModel(step)));
    ThenProjections(log, Shown(OriginalVideo, frame));
    ThenProjections(shown, Applied(frame));
    ThenProjections(applied, ModelFetched);
    ThenProjections(fetched, Shown(ForegroundMaskWindow, ForegroundMask(step)));
    ThenProjections(s2, Shown(BackgroundModelWindow, BackgroundModel(step)));
    ThenProjections(s3, KeyWaited(10, key));
  }

  lemma FrameCallsLatest(log: Log, frame: Image, step: nat, key: int, base: nat)
    requires ShowsLatest(log, base) && step == base + |Inputs(log)| + 1
    ensures ShowsLatest(FrameCalls(log, frame, step, key), base)
  {
    var shown := Then(log, Shown(OriginalVideo, frame));
    var applied := Then(shown, Applied(frame));
    var fetched := Then(applied, ModelFetched);
    var s2 := Then(fetched, Shown(ForegroundMaskWindow, ForegroundMask(step)));
    ThenProjections(log, Shown(OriginalVideo, frame));
    ThenProjections(shown, Applied(frame));
    ThenProjections(applied, ModelFetched);
    ThenProjections(fetched, Shown(ForegroundMaskWindow, ForegroundMask(step)));
    assert ShowsLatest(shown, base);
    assert ShowsLatest(applied, base);
    assert ShowsLatest(fetched, base);
    assert ShowsLatest(s2, base);
  }

  lemma PicturesSnoc(paths: seq<string>, i: nat)
    requires i < |paths|
    ensures Pictures(paths[..i + 1]) == Pictures(paths[..i]) + [Picture(paths[i])]
  {
    assert Pictures(paths[..i + 1])[i] == Picture(paths[i]);
  }

  lemma KeysFromSnoc(keys: seq<int>, at: nat, n: nat)
    ensures KeysFrom(keys, at, n + 1) == KeysFrom(keys, at, n) + [KeyAt(keys, at + n)]
  {
  }

  lemma FramesSnoc(frames: seq<Image>, next: nat, i: nat)
    requires next + i < |frames|
    ensures frames[next..next + i + 1] == frames[next..next + i] + [frames[next + i]]
  {
  }

  // ---------------------------------------------------------------------------
  // Runs of frames that saw no ESC
  // ---------------------------------------------------------------------------

  lemma {:induction false} ImagesRunCalls(paths: seq<string>, keys: seq<int>, at: nat,
                                          seen: nat, i: nat)
    requires i <= |paths|
    ensures Inputs(ImagesRun(Start, paths, keys, at, seen, i)) == Pictures(paths[..i])
    ensures Printed(ImagesRun(Start, paths, keys, at, seen, i)) == Countdown(paths, i)
    ensures Keys(ImagesRun(Start, paths, keys, at, seen, i)) == KeysFrom(keys, at, i)
    ensures Length(ImagesRun(Start, paths, keys, at, seen, i)) == 8 * i
  {
    if i == 0 {
      assert Pictures(paths[..0]) == [];
    } else {
      var prev := ImagesRun(Start, paths, keys, at, seen, i - 1);
      ImagesRunCalls(paths, keys, at, seen, i - 1);
      AfterImageCalls(prev, paths[i - 1], seen + i, KeyAt(keys, at + i - 1));
      PicturesSnoc(paths, i - 1);
      KeysFromSnoc(keys, at, i - 1);
    }
  }

  lemma {:induction false} ImagesRunLatest(paths: seq<string>, keys: seq<int>, at: nat,
                                           seen: nat, i: nat)
    requires i <= |paths|
    ensures ShowsLatest(ImagesRun(Start, paths, keys, at, seen, i), seen)
    ensures |Inputs(ImagesRun(Start, paths, keys, at, seen, i))| == i
  {
    if i > 0 {
      var prev := ImagesRun(Start, paths, keys, at, seen, i - 1);
      ImagesRunLatest(paths, keys, at, seen, i - 1);
      AfterImageCalls(prev, paths[i - 1], seen + i, KeyAt(keys, at + i - 1));
      AfterImageLatest(prev, paths[i - 1], seen + i, KeyAt(keys, at + i - 1), seen);
    }
  }

  lemma {:induction false} VideoRunCalls(frames: seq<Image>, next: nat, keys: seq<int>,
                                         at: nat, seen: nat, i: nat)
    requires next + i <= |frames|
    ensures Inputs(VideoRun(Start, frames, next, keys, at, seen, i)) == frames[next..next + i]
    ensures Printed(VideoRun(Start, frames, next, keys, at, seen, i)) == []
    ensures Keys(VideoRun(Start, frames, next, keys, at, seen, i)) == KeysFrom(keys, at, i)
    ensures Length(VideoRun(Start, frames, next, keys, at, seen, i)) == 7 * i
  {
    if i == 0 {
      assert frames[next..next] == [];
    } else {
      var prev := VideoRun(Start, frames, next, keys, at, seen, i - 1);
      VideoRunCalls(frames, next, keys, at, seen, i - 1);
      var grabbed := Then(prev, FrameGrab(true));
      ThenProjections(prev, FrameGrab(true));
      FrameCallsCalls(grabbed, frames[next + i - 1], seen + i, KeyAt(keys, at + i - 1));
      FramesSnoc(frames, next, i - 1);
      KeysFromSnoc(keys, at, i - 1);
    }
  }

  lemma {:induction false} VideoRunLatest(frames: seq<Image>, next: nat, keys: seq<int>,
                                          at: nat, seen: nat, i: nat)
    requires next + i <= |frames|
    ensures ShowsLatest(VideoRun(Start, frames, next, keys, at, seen, i), seen)
    ensures |Inputs(VideoRun(Start, frames, next, keys, at, seen, i))| == i
  {
    if i > 0 {
      var prev := VideoRun(Start, frames, next, keys, at, seen, i - 1);
      VideoRunLatest(frames, next, keys, at, seen, i - 1);
      var grabbed := Then(prev, FrameGrab(true));
      ThenProjections(prev, FrameGrab(true));
      FrameCallsCalls(grabbed, frames[next + i - 1], seen + i, KeyAt(keys, at + i - 1));
      FrameCallsLatest(grabbed, frames[next + i - 1], seen + i, KeyAt(keys, at + i - 1), seen);
    }
  }

  // ---------------------------------------------------------------------------
  // process_images
  // ---------------------------------------------------------------------------

  /** The algorithm is given the pictures at the processed paths, in order:
      all of them, or those up to the one on which ESC was pressed. */
  lemma ImagesInputs(paths: seq<string>, keys: seq<int>, at: nat, seen: nat)
    ensures Inputs(ImagesLog(Start, paths, keys, at, seen)) ==
      Pictures(paths[..Processed(keys, at, |paths|)])
  {
    var q := Quiet(keys, at, |paths|);
    ImagesRunCalls(paths, keys, at, seen, q);
    if q < |paths| {
      AfterImageCalls(ImagesRun(Start, paths, keys, at, seen, q), paths[q], seen + q + 1,
                      KeyAt(keys, at + q));
      PicturesSnoc(paths, q);
    }
  }

  /** "Frames left" is printed after each path that did not see ESC, and
      not after the one that did; the count is taken from the first
      occurrence of the path in the list. */
  lemma ImagesPrinted(paths: seq<string>, keys: seq<int>, at: nat, seen: nat)
    ensures Printed(ImagesLog(Start, paths, keys, at, seen)) ==
      Countdown(paths, Quiet(keys, at, |paths|))
  {
    var q := Quiet(keys, at, |paths|);
    ImagesRunCalls(paths, keys, at, seen, q);
    if q < |paths| {
      AfterImageCalls(ImagesRun(Start, paths, keys, at, seen, q), paths[q], seen + q + 1,
                      KeyAt(keys, at + q));
    }
  }

  /** Without repeated paths the printed counts go down by one from the
      number of paths. */
  lemma ImagesCountdownDistinct(paths: seq<string>, keys: seq<int>, at: nat, seen: nat)
    requires Distinct(paths)
    ensures var printed := Printed(ImagesLog(Start, paths, keys, at, seen));
      && |printed| == Quiet(keys, at, |paths|)
      && forall k :: 0 <= k < |printed| ==> printed[k] == |paths| - k
  {
    ImagesPrinted(paths, keys, at, seen);
    var q := Quiet(keys, at, |paths|);
    CountdownLength(paths, q);
    forall k | 0 <= k < q
      ensures Countdown(paths, q)[k] == |paths| - k
    {
      CountdownAt(paths, q, k);
      IndexOfDistinct(paths, k);
    }
  }

  /** A repeated path prints the count of its first occurrence again. */
  lemma ImagesRepeatedPath(keys: seq<int>, at: nat, seen: nat)
    requires forall j :: at <= j < at + 3 ==> !IsEsc(KeyAt(keys, j))
    ensures Printed(ImagesLog(Start, ["a", "b", "a"], keys, at, seen)) == [3, 2, 3]
  {
    var paths: seq<string> := ["a", "b", "a"];
    QuietUnique(keys, at, 3, 3);
    ImagesPrinted(paths, keys, at, seen);
    assert IndexOf(paths, "a") == 0;
    assert IndexOf(paths, "b") == 1;
    assert Countdown(paths, 3) == [3, 2, 3];
  }

  /** `waitKey` is called once per processed path, and the last key it
      returned is ESC exactly when the loop stopped before the end. */
  lemma ImagesKeys(paths: seq<string>, keys: seq<int>, at: nat, seen: nat)
    ensures var waited := Keys(ImagesLog(Start, paths, keys, at, seen));
      && waited == KeysFrom(keys, at, Processed(keys, at, |paths|))
      && (Quiet(keys, at, |paths|) < |paths| <==> |waited| > 0 && IsEsc(waited[|waited| - 1]))
  {
    var q := Quiet(keys, at, |paths|);
    ImagesRunCalls(paths, keys, at, seen, q);
    if q < |paths| {
      AfterImageCalls(ImagesRun(Start, paths, keys, at, seen, q), paths[q], seen + q + 1,
                      KeyAt(keys, at + q));
      KeysFromSnoc(keys, at, q);
    } else if q > 0 {
      QuietKeys(keys, at, |paths|);
      assert KeysFrom(keys, at, q)[q - 1] == KeyAt(keys, at + q - 1);
    }
  }

  /** Seven calls for every path, and one more, the print, for each path
      that did not see ESC. */
  lemma ImagesLength(paths: seq<string>, keys: seq<int>, at: nat, seen: nat)
    ensures var q := Quiet(keys, at, |paths|);
      Length(ImagesLog(Start, paths, keys, at, seen)) == 8 * q + (if q < |paths| then 7 else 0)
  {
    var q := Quiet(keys, at, |paths|);
    ImagesRunCalls(paths, keys, at, seen, q);
    if q < |paths| {
      AfterImageCalls(ImagesRun(Start, paths, keys, at, seen, q), paths[q], seen + q + 1,
                      KeyAt(keys, at + q));
    }
  }

  /** The mask and model shown for each path are the algorithm's after that
      path. */
  lemma ImagesShowsLatest(paths: seq<string>, keys: seq<int>, at: nat, seen: nat)
    ensures ShowsLatest(ImagesLog(Start, paths, keys, at, seen), seen)
  {
    var q := Quiet(keys, at, |paths|);
    ImagesRunLatest(paths, keys, at, seen, q);
    if q < |paths| {
      AfterImageLatest(ImagesRun(Start, paths, keys, at, seen, q), paths[q], seen + q + 1,
                       KeyAt(keys, at + q), seen);
    }
  }

  // ---------------------------------------------------------------------------
  // process_video
  // ---------------------------------------------------------------------------

  /** The algorithm is given the frames from the capture's position on, in
      order: all of them, or those up to the one on which ESC was pressed. */
  lemma VideoInputs(frames: seq<Image>, next: nat, keys: seq<int>, at: nat, seen: nat)
    requires next <= |frames|
    ensures Inputs(VideoLog(Start, frames, next, keys, at, seen)) ==
      frames[next..next + Processed(keys, at, |frames| - next)]
  {
    var q := Quiet(keys, at, |frames| - next);
    VideoRunCalls(frames, next, keys, at, seen, q);
    if q < |frames| - next {
      var grabbed := Then(VideoRun(Start, frames, next, keys, at, seen, q), FrameGrab(true));
      FrameCallsCalls(grabbed, frames[next + q], seen + q + 1, KeyAt(keys, at + q));
      FramesSnoc(frames, next, q);
    }
  }

  /** The frame loop prints nothing. */
  lemma VideoSilent(frames: seq<Image>, next: nat, keys: seq<int>, at: nat, seen: nat)
    requires next <= |frames|
    ensures Printed(VideoLog(Start, frames, next, keys, at, seen)) == []
  {
    var q := Quiet(keys, at, |frames| - next);
    VideoRunCalls(frames, next, keys, at, seen, q);
    if q < |frames| - next {
      var grabbed := Then(VideoRun(Start, frames, next, keys, at, seen, q), FrameGrab(true));
      FrameCallsCalls(grabbed, frames[next + q], seen + q + 1, KeyAt(keys, at + q));
    }
  }

  /** `waitKey` is called once per processed frame, and the last key it
      returned is ESC exactly when the loop stopped before the end. */
  lemma VideoKeys(frames: seq<Image>, next: nat, keys: seq<int>, at: nat, seen: nat)
    requires next <= |frames|
    ensures var waited := Keys(VideoLog(Start, frames, next, keys, at, seen));
      && waited == KeysFrom(keys, at, Processed(keys, at, |frames| - next))
      && (Quiet(keys, at, |frames| - next) < |frames| - next <==>
            |waited| > 0 && IsEsc(waited[|waited| - 1]))
  {
    var n := |frames| - next;
    var q := Quiet(keys, at, n);
    VideoRunCalls(frames, next, keys, at, seen, q);
    if q < n {
      var grabbed := Then(VideoRun(Start, frames, next, keys, at, seen, q), FrameGrab(true));
      FrameCallsCalls(grabbed, frames[next + q], seen + q + 1, KeyAt(keys, at + q));
      KeysFromSnoc(keys, at, q);
    } else if q > 0 {
      QuietKeys(keys, at, n);
      assert KeysFrom(keys, at, q)[q - 1] == KeyAt(keys, at + q - 1);
    }
  }

  /** Seven calls for every processed frame, and the failed read when the
      frames ran out. */
  lemma VideoLength(frames: seq<Image>, next: nat, keys: seq<int>, at: nat, seen: nat)
    requires next <= |frames|
    ensures var n := |frames| - next;
      Length(VideoLog(Start, frames, next, keys, at, seen)) ==
        7 * Processed(keys, at, n) + (if Quiet(keys, at, n) == n then 1 else 0)
  {
    var q := Quiet(keys, at, |frames| - next);
    VideoRunCalls(frames, next, keys, at, seen, q);
    if q < |frames| - next {
      var grabbed := Then(VideoRun(Start, frames, next, keys, at, seen, q), FrameGrab(true));
      FrameCallsCalls(grabbed, frames[next + q], seen + q + 1, KeyAt(keys, at + q));
    }
  }

  /** The mask and model shown for each frame are the algorithm's after that
      frame. */
  lemma VideoShowsLatest(frames: seq<Image>, next: nat, keys: seq<int>, at: nat, seen: nat)
    requires next <= |frames|
    ensures ShowsLatest(VideoLog(Start, frames, next, keys, at, seen), seen)
  {
    var q := Quiet(keys, at, |frames| - next);
    VideoRunLatest(frames, next, keys, at, seen, q);
    if q < |frames| - next {
      var grabbed := Then(VideoRun(Start, frames, next, keys, at, seen, q), FrameGrab(true));
      FrameCallsCalls(Then(VideoRun(Start, frames, next, keys, at, seen, q), FrameGrab(true)),
                      frames[next + q], seen + q + 1, KeyAt(keys, at + q));
      FrameCallsLatest(grabbed, frames[next + q], seen + q + 1, KeyAt(keys, at + q), seen);
    }
  }
}
