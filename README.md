# bgslibrary examples: the version-gated algorithm registry and the frame loops

This project models `helper/utils.py` of the bgslibrary Python examples in
Dafny and proves properties about it. That file does three things:

- It tests the OpenCV version string. `is_cv2`, `is_cv3` and `is_cv4` are
  prefix tests. `is_lower_or_equals_cv347` splits the string on dots,
  unpacks exactly three parts and compares them as integers.
- It builds the list of pybgs background-subtraction algorithms that this
  version supports. `initialize_algorithms` starts from 25 base entries and
  then appends blocks, each under an `if` on the version tests.
- It feeds frames to one algorithm and shows the input, the foreground mask
  and the background model. `process_images` reads a list of paths, and
  `process_video` reads an open capture, until the frames run out or ESC
  is pressed.

The modules follow those three parts:

- `OpenCvVersion` (version.dfy) holds the version tests. It also models
  `str.split('.')`, a decimal `int()` on digit strings, and the
  `ValueError` those tests can raise, as a `Result`.
- `Registry` (registry.dfy) holds each constructor as a value of `AlgoId`.
  `InitializeAlgorithms` builds the list step by step, as the source does.
  It is proved equal to `AvailableAlgorithms`, a reference definition made
  of a table of (guard, block) rules applied in order. The closed form
  `Layout` gives the list in terms of the three guard values.
- `Pipeline` (pipeline.dfy) holds the algorithm, the display and the
  capture as classes whose methods add each call to a ghost trace of type
  `Log`. `ProcessImages` and `ProcessVideo` are the loops, with early
  `break`. Each is proved to produce exactly the trace that a function of
  its inputs describes (`ImagesLog`, `VideoLog`) and to advance the
  counters by `Processed`.
- `PipelineFacts` (pipeline_facts.dfy) proves what those traces mean,
  through projections of the trace:
  - which images the algorithm is given;
  - what is printed;
  - which keys are waited for;
  - how many calls there are;
  - that the mask and model on screen are the ones after the latest frame.

The version string is a parameter rather than the global `cv2.__version__`.
The keys the user presses are a sequence given to the display; once it is
used up, `waitKey` returns -1. The frames of a video are a sequence given
to the capture.

Four behaviours of the code are worth noting:

- A version string that does not split into three integers does not always
  fail. A "2." version never reaches the split, because of the
  short-circuit `or` on line 72, so "2.4" gets the full 42-entry list.
- `int(major) == 3 and ...` stops at the first false operand. So "4.5." and
  "3.5." give `False` rather than an error: their empty revision is never
  parsed.
- The "Frames left" count uses `img_array.index(img_path)`, the first
  occurrence of the path, rather than the position of the frame just
  processed. A repeated path repeats the count of its first occurrence
  (`ImagesRepeatedPath`).
- `is_lower_or_equals_cv347` does not compare versions in order. It asks
  for major 3, minor at most 4 and revision at most 7, one part at a time.
  So "3.3.9", an earlier release than 3.4.7, gives `False` and gets 39
  entries rather than 41 (`Cv347Examples`, `Cv3TierExamples`).

## Model

| member | source | states |
|---|---|---|
| OpenCvVersion.CheckOpencvVersion | helper/utils.py:39-40 | true exactly when the version string begins with the given prefix |
| OpenCvVersion.IsCv2 | helper/utils.py:26-27 | true exactly when the first two characters are "2." |
| OpenCvVersion.IsCv3 | helper/utils.py:29-30 | true exactly when the first two characters are "3." |
| OpenCvVersion.IsCv4 | helper/utils.py:36-37 | true exactly when the first two characters are "4." |
| OpenCvVersion.MajorPrefixesExclusive | helper/utils.py:26-40 | no string passes two of the three prefix tests |
| OpenCvVersion.Split | helper/utils.py:33 | `split('.')` gives one more part than there are dots, and no part holds a dot |
| OpenCvVersion.JoinSplit | helper/utils.py:33 | joining the parts with dots gives back the string |
| OpenCvVersion.SplitJoin | helper/utils.py:33 | splitting dot-free parts joined by dots gives back the parts, empty ones included |
| OpenCvVersion.ParseDecimal | helper/utils.py:34 | `int(part)` has a value exactly when the part is a non-empty string of ASCII digits (no digit-count limit; see below) |
| OpenCvVersion.ParseDecimalString | helper/utils.py:34 | parsing the decimal rendering of n gives n |
| OpenCvVersion.LeadingZero | helper/utils.py:34 | a leading zero does not change the value ("07" is 7) |
| OpenCvVersion.IsLowerOrEqualsCv347 | helper/utils.py:32-34 | `Ok(true)` exactly on three-part numeric versions with major 3, minor <= 4 and revision <= 7; a wrong part count raises with that count; a major that does not parse raises; a major other than 3 gives false whatever follows |
| OpenCvVersion.Cv347Raises | helper/utils.py:33-34 | the test raises exactly when the unpacking fails or a part that the short-circuit `and` reaches is not an integer |
| OpenCvVersion.ThreeNumbers | helper/utils.py:32-34 | a version built from three numbers is well formed, gives back those numbers, and passes exactly when 3, <= 4 and <= 7 hold |
| OpenCvVersion.Cv347Examples | helper/utils.py:34 | 3.4.7 and 3.1.0 pass; 3.4.8 and 3.3.9 fail |
| OpenCvVersion.Cv347NotLexicographic | helper/utils.py:34 | 3.10.0 fails although it sorts before 3.4.7 as a string; 4.5.1 fails |
| OpenCvVersion.Cv347PartCount | helper/utils.py:33 | "3.4" and "3.4.7.1" raise with part counts 2 and 4 |
| OpenCvVersion.Cv347EmptyRevision | helper/utils.py:34 | "3.4." raises on its empty revision; "3.5." gives false without parsing it |
| Registry.Holds | helper/utils.py:58-72 | only the last guard can raise, and never for a "2." version |
| Registry.ApplyRules | helper/utils.py:58-73 | applying the rules raises exactly when some guard raises, with that guard's error; otherwise earlier entries are kept and the blocks whose guards hold follow, in order |
| Registry.InitializeAlgorithms | helper/utils.py:43-75 | the list built step by step equals the rule-table definition, and always begins with the base |
| Registry.SelectedRules | helper/utils.py:58-73 | the blocks selected are the pair or KNN, then the 13-entry block for "2." and "3.", then the final pair when the final `or` holds |
| Registry.TierShape | helper/utils.py:43-75 | the result fails exactly when a non-"2." version makes the 3.4.7 test raise; otherwise it is the closed form of its three guard values |
| Registry.Shape | helper/utils.py:43-75 | a result that does not fail is the closed form of its tier |
| Registry.LayoutLength | helper/utils.py:47-73 | the length of each closed form, block by block |
| Registry.LayoutPrefix | helper/utils.py:47-56 | every closed form begins with the 25 base entries |
| Registry.LayoutPair | helper/utils.py:58-62 | position 25 holds the "2." pair, or KNN for any other version |
| Registry.LayoutBlock | helper/utils.py:64-70 | the 13-entry block starts at 27 for "2." and at 26 for "3.", from DPAdaptiveMedian to MultiCue |
| Registry.LayoutFinal | helper/utils.py:72-73 | when the final guard holds, LBP_MRF and MultiLayer are the last two entries |
| Registry.LayoutTags | helper/utils.py:47-73 | every entry of a closed form comes from a block whose guard holds |
| Registry.LayoutAbsent | helper/utils.py:47-73 | an algorithm from a block whose guard fails is not in the closed form |
| Registry.Entries | helper/utils.py:47-75 | every entry of a result comes from a block whose guard holds for the version |
| Registry.BasePrefix | helper/utils.py:47-56 | every result begins with the 25 base entries in their listed order |
| Registry.Cv2Pair | helper/utils.py:58-62 | a "2." version never fails and gets MixtureOfGaussianV1 then GMG right after the base, and no KNN |
| Registry.KnnInstead | helper/utils.py:58-62 | any other version gets KNN right after the base, and neither entry of the pair |
| Registry.UpToCv3Place | helper/utils.py:64-70 | for "2." and "3." the 13-entry block follows the pair or KNN |
| Registry.UpToCv3Members | helper/utils.py:64-70 | DPAdaptiveMedian and MultiCue are present exactly for "2." and "3." versions |
| Registry.FinalPair | helper/utils.py:72-73 | LBP_MRF then MultiLayer close the list, and are present, exactly when the version is "2." or passes the 3.4.7 test |
| Registry.Failure | helper/utils.py:72-73 | the list fails exactly when the version is not "2." and the 3.4.7 test raises, with that test's error; "2." never fails |
| Registry.Lengths | helper/utils.py:47-75 | the list per tier: 42 entries for "2.", 41 for "3.x.y" with x <= 4 and y <= 7 as integers (so "3.3.9" is not among them), 39 for other "3.", 26 for other versions on which the 3.4.7 test returns false without raising |
| Registry.WellFormedTiers | helper/utils.py:43-75 | a well-formed version never fails; its length is fixed by its tier, and "03.4.7" gets 28 entries |
| Registry.Cv3TierExamples | helper/utils.py:43-75 | the lists for "3.4.7" and "3.3.9" |
| Registry.Cv4TierExample | helper/utils.py:43-75 | the list for "4.5.1" is the base and KNN |
| Registry.ShortCv2Version | helper/utils.py:72 | "2.4" gets the full list although it has only two parts |
| Registry.ShortCv4Version | helper/utils.py:72-73 | "4.5" fails with a part count of 2 |
| Pipeline.Algorithm.Apply | helper/utils.py:84 | one more frame is given to the algorithm; the mask returned is the one after it; the call is added to the trace |
| Pipeline.Algorithm.GetBackgroundModel | helper/utils.py:85 | the model after the frames given so far; the call is added to the trace |
| Pipeline.Display.ImRead | helper/utils.py:83 | the picture at the path; the call is added to the trace |
| Pipeline.Display.ImShow | helper/utils.py:87-89 | the image shown in the window is added to the trace |
| Pipeline.Display.WaitKey | helper/utils.py:91 | the next key pressed, or -1 once there are none; the call is added to the trace |
| Pipeline.Display.PrintFramesLeft | helper/utils.py:94 | the count printed is added to the trace |
| Pipeline.Capture.Read | helper/utils.py:108 | the next frame and true, or no frame and false once the frames have run out |
| Pipeline.LowBitsMod | helper/utils.py:91 | Python's `k & 0xFF`, computed bit by bit on an int of either sign, is the remainder of k by 256 |
| Pipeline.EscLowByte | helper/utils.py:91 | `IsEsc`, the test `waitKey(10) & 0xFF == 27`, holds exactly when the low byte of the key code, taken bit by bit, is 27; the same test closes the video loop at line 120 |
| Pipeline.EscExamples | helper/utils.py:91 | 27 and 0x1001B are ESC; the -1 of a wait with no key is not |
| Pipeline.Quiet | helper/utils.py:91-92 | the number of key waits before the first ESC, at most the number of frames; the key after them is ESC |
| Pipeline.QuietKeys | helper/utils.py:91-92 | none of the keys before the first ESC is ESC |
| Pipeline.QuietUnique | helper/utils.py:91-92 | those facts determine where the loop stops |
| Pipeline.QuietExtend | helper/utils.py:91-92 | a key that is not ESC lets the loop go on to the next frame |
| Pipeline.QuietStop | helper/utils.py:91-92 | an ESC after keys that were not ESC stops the loop there |
| Pipeline.IndexOf | helper/utils.py:94 | `list.index` gives a position within the list |
| Pipeline.IndexOfFirst | helper/utils.py:94 | that position holds the path, and no earlier one does |
| Pipeline.IndexOfDistinct | helper/utils.py:94 | without repeated paths, the index of a path is its own position |
| Pipeline.ShowImage | helper/utils.py:83-91 | the calls for one path in the order of the source: read, apply, get the model, show three windows, wait for a key |
| Pipeline.ProcessImages | helper/utils.py:82-94 | the whole trace of `process_images` is `ImagesLog` of its inputs, and the algorithm and the key waits advance by the number of paths processed |
| Pipeline.ShowFrame | helper/utils.py:113-120 | the calls for one grabbed frame in the order of the source: show it, apply, get the model, show two windows, wait for a key |
| Pipeline.ProcessVideo | helper/utils.py:107-121 | the whole trace of the frame loop is `VideoLog` of its inputs, and the capture, the algorithm and the key waits advance by the number of frames processed |
| PipelineFacts.AfterImageCalls | helper/utils.py:83-91 | one path gives one algorithm input (its picture), no print, one key wait and seven calls |
| PipelineFacts.AfterImageLatest | helper/utils.py:84-89 | the mask and model shown for a path are the algorithm's after that path |
| PipelineFacts.FrameCallsCalls | helper/utils.py:113-120 | one grabbed frame gives one algorithm input (that frame), no print, one key wait and six more calls |
| PipelineFacts.FrameCallsLatest | helper/utils.py:113-118 | the mask and model shown for a frame are the algorithm's after that frame |
| PipelineFacts.CountdownAt | helper/utils.py:94 | the k-th count printed is the number of paths from the first occurrence of path k on |
| PipelineFacts.ImagesRunCalls | helper/utils.py:82-94 | i paths without ESC give their i pictures in order, i counts, i key waits and 8i calls |
| PipelineFacts.ImagesRunLatest | helper/utils.py:82-94 | along such a run every mask and model shown is the latest one |
| PipelineFacts.VideoRunCalls | helper/utils.py:107-121 | i frames without ESC give those frames in order, no print, i key waits and 7i calls |
| PipelineFacts.VideoRunLatest | helper/utils.py:107-121 | along such a run every mask and model shown is the latest one |
| PipelineFacts.ImagesInputs | helper/utils.py:82-92 | the algorithm is given the pictures of the paths processed, in order: all of them, or those up to and including the one on which ESC came |
| PipelineFacts.ImagesPrinted | helper/utils.py:91-94 | "Frames left" is printed after every path before the first ESC and not after the one that saw ESC; the counts are from first occurrences |
| PipelineFacts.ImagesCountdownDistinct | helper/utils.py:94 | without repeated paths the printed counts go N, N-1, ... |
| PipelineFacts.ImagesRepeatedPath | helper/utils.py:94 | the paths "a", "b", "a" with no ESC print 3, 2, 3 |
| PipelineFacts.ImagesKeys | helper/utils.py:91-92 | one key wait per path processed, and the last key is ESC exactly when the loop stopped early |
| PipelineFacts.ImagesLength | helper/utils.py:82-94 | eight calls per path before the first ESC, and seven for the path that saw it |
| PipelineFacts.ImagesShowsLatest | helper/utils.py:84-89 | every mask and model `process_images` shows is the algorithm's after the latest frame |
| PipelineFacts.VideoInputs | helper/utils.py:107-121 | the algorithm is given the frames from the capture's position on, in order: all of them, or those up to and including the one on which ESC came |
| PipelineFacts.VideoSilent | helper/utils.py:107-121 | the frame loop prints nothing |
| PipelineFacts.VideoKeys | helper/utils.py:120-121 | one key wait per frame processed, and the last key is ESC exactly when the loop stopped before the frames ran out |
| PipelineFacts.VideoLength | helper/utils.py:107-121 | seven calls per frame processed, and one failed read when the frames ran out |
| PipelineFacts.VideoShowsLatest | helper/utils.py:113-118 | every mask and model the frame loop shows is the algorithm's after the latest frame |

## Left out

- The OpenCV and pybgs calls are abstract. `imread`, `imshow`, `waitKey`,
  `VideoCapture.read` and the algorithms' `apply` and `getBackgroundModel`
  are methods that record their call. Images are identifiers, and the
  foreground mask and background model are known only by how many frames
  the algorithm has had. The algorithms themselves are outside the model.
- `imread` returning `None` for a missing file, and any error raised inside
  OpenCV or pybgs, are not modelled: every read succeeds.
- Opening the capture and the wait-and-retry loop of `process_video`
  (lines 101-105) are left out. They depend on the file system and on the
  clock. `ProcessVideo` starts from a capture that is already open.
- `destroyAllWindows` and the demo scripts are not part of this model.
  `demo_multi_bgs.py` and `demo_list_algs.py` are argument handling,
  directory listing and printing around the functions modelled here.
  `demo_framediff_video.py` calls none of them: it repeats the busy-wait
  (lines 19-22) and the frame loop (lines 25-51) of `process_video`
  inline for `FrameDifference`, with its own `waitKey(1000)` and message
  when the frames run out and a message before the ESC break.
- `int()` is modelled on ASCII digit strings only. Python also accepts
  surrounding whitespace, a sign, underscores and non-ASCII digits; such
  parts give `NotAnInteger` here.
- ParseDecimal: does not model the limit of 4300 digits that Python 3.11
  and later put on `int()` of a string (`sys.int_max_str_digits`); a
  longer digit string raises `ValueError` there but has a value here, because
  version strings that long do not occur and the limit is configurable.
- Printed text other than the "Frames left" count is not modelled; the
  trace records the count only.
- Window titles are a `Window` value, and `Title` gives the string each one
  is opened with.
- The timing of `waitKey(10)` is not modelled; the trace records only the
  delay passed and the key returned.
