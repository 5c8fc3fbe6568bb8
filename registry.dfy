/** The version-gated algorithm list of `initialize_algorithms` in
    helper/utils.py. Each pybgs constructor is an opaque identifier. */
module Registry {
  import opened OpenCvVersion

  /** One constructor of the background-subtraction library. */
  datatype AlgoId =
    | FrameDifference | StaticFrameDifference | WeightedMovingMean
    | WeightedMovingVariance | AdaptiveBackgroundLearning
    | AdaptiveSelectiveBackgroundLearning | MixtureOfGaussianV2
    | PixelBasedAdaptiveSegmenter | SigmaDelta | SuBSENSE | LOBSTER
    | PAWCS | TwoPoints | ViBe | CodeBook
    | FuzzySugenoIntegral | FuzzyChoquetIntegral | LBSimpleGaussian
    | LBFuzzyGaussian | LBMixtureOfGaussians | LBAdaptiveSOM
    | LBFuzzyAdaptiveSOM | VuMeter | KDE | IndependentMultimodal
    | MixtureOfGaussianV1 | GMG
    | KNN
    | DPAdaptiveMedian | DPGrimsonGMM | DPZivkovicAGMM
    | DPMean | DPWrenGA | DPPratiMediod | DPEigenbackground
    | DPTexture | T2FGMM_UM | T2FGMM_UV | T2FMRF_UM
    | T2FMRF_UV | MultiCue
    | LBP_MRF | MultiLayer

  /** The list every version starts from. */
  const Base: seq<AlgoId> := [
    FrameDifference, StaticFrameDifference, WeightedMovingMean,
    WeightedMovingVariance, AdaptiveBackgroundLearning,
    AdaptiveSelectiveBackgroundLearning, MixtureOfGaussianV2,
    PixelBasedAdaptiveSegmenter, SigmaDelta, SuBSENSE, LOBSTER,
    PAWCS, TwoPoints, ViBe, CodeBook,
    FuzzySugenoIntegral, FuzzyChoquetIntegral, LBSimpleGaussian,
    LBFuzzyGaussian, LBMixtureOfGaussians, LBAdaptiveSOM,
    LBFuzzyAdaptiveSOM, VuMeter, KDE, IndependentMultimodal
  ]

  /** Only with OpenCV 2.x. */
  const Cv2Only: seq<AlgoId> := [MixtureOfGaussianV1, GMG]

  /** Only after OpenCV 2.x. */
  const AfterCv2: seq<AlgoId> := [KNN]

  /** With OpenCV 2.x and 3.x. */
  const UpToCv3: seq<AlgoId> := [
    DPAdaptiveMedian, DPGrimsonGMM, DPZivkovicAGMM,
    DPMean, DPWrenGA, DPPratiMediod, DPEigenbackground,
    DPTexture, T2FGMM_UM, T2FGMM_UV, T2FMRF_UM,
    T2FMRF_UV, MultiCue
  ]

  /** When `is_cv2()` holds or the component-wise 3.4.7 test returns true. */
  const UpToCv347: seq<AlgoId> := [LBP_MRF, MultiLayer]

  // ---------------------------------------------------------------------------
  // The reference definition: a table of (guard, block) rules applied in order
  // ---------------------------------------------------------------------------

  /** The guard of one `if` of initialize_algorithms. */
  datatype Gate = WhenCv2 | WhenNotCv2 | WhenCv2OrCv3 | WhenCv2OrUpTo347

  /** Evaluating a guard; only the last one can raise, and only when the
      `or` reaches `is_lower_or_equals_cv347`. */
  function Holds(gate: Gate, version: string): (r: Result<bool>)
    ensures gate != WhenCv2OrUpTo347 ==> r.Ok?
    ensures r.Err? ==> !IsCv2(version)
  {
    match gate
    case WhenCv2 => Ok(IsCv2(version))
    case WhenNotCv2 => Ok(!IsCv2(version))
    case WhenCv2OrCv3 => Ok(IsCv2(version) || IsCv3(version))
    case WhenCv2OrUpTo347 => if IsCv2(version) then Ok(true) else IsLowerOrEqualsCv347(version)
  }

  datatype Rule = Rule(gate: Gate, block: seq<AlgoId>)

  const Rules: seq<Rule> := [
    Rule(WhenCv2, Cv2Only),
    Rule(WhenNotCv2, AfterCv2),
    Rule(WhenCv2OrCv3, UpToCv3),
    Rule(WhenCv2OrUpTo347, UpToCv347)
  ]

  /** The blocks of the rules whose guards hold, in rule order. */
  function Selected(rules: seq<Rule>, version: string): seq<AlgoId>
  {
    if rules == [] then []
    else
      var rest := Selected(rules[1..], version);
      if Holds(rules[0].gate, version) == Ok(true) then rules[0].block + rest else rest
  }

  /** Applying the rules in order to `acc`, stopping at the first guard that
      raises. */
  function ApplyRules(rules: seq<Rule>, version: string, acc: seq<AlgoId>): (r: Result<seq<AlgoId>>)
    // it raises exactly when some guard raises, with that guard's error
    ensures r.Err? <==> exists i :: 0 <= i < |rules| && Holds(rules[i].gate, version).Err?
    ensures r.Err? ==> exists i :: 0 <= i < |rules| && Holds(rules[i].gate, version) == Err(r.error)
    // otherwise earlier entries stay as they were and the selected blocks follow
    ensures r.Ok? ==> r.value == acc + Selected(rules, version)
  {
    if rules == [] then Ok(acc)
    else match Holds(rules[0].gate, version)
      case Err(e) => Err(e)
      case Ok(b) =>
        var r := ApplyRules(rules[1..], version, if b then acc + rules[0].block else acc);
        assert forall i :: 1 <= i < |rules| ==> rules[i] == rules[1..][i - 1];
        assert r.Ok? && b ==> acc + rules[0].block + Selected(rules[1..], version)
                              == acc + (rules[0].block + Selected(rules[1..], version));
        r
  }

  /** The algorithm list `initialize_algorithms` returns for this version. */
  function AvailableAlgorithms(version: string): Result<seq<AlgoId>>
  {
    ApplyRules(Rules, version, Base)
  }

  // ---------------------------------------------------------------------------
  // initialize_algorithms
  // ---------------------------------------------------------------------------

  /** Builds the list by extending it in place, one `if` at a time. */
  method InitializeAlgorithms(version: string) returns (r: Result<seq<AlgoId>>)
    ensures r == AvailableAlgorithms(version)
    ensures r.Ok? ==> Base <= r.value
  {
    var algos := Base;
    if IsCv2(version) {
      algos := algos + Cv2Only;
    }
    if !IsCv2(version) {
      algos := algos + AfterCv2;
    }
    if IsCv2(version) || IsCv3(version) {
      algos := algos + UpToCv3;
    }
    var last: bool;
    if IsCv2(version) {
      last := true;
    } else {
      var upTo347 := IsLowerOrEqualsCv347(version);
      if upTo347.Err? {
        TierShape(version);
        return Err(upTo347.error);
      }
      last := upTo347.value;
    }
    assert last == LastGate(version);
    if last {
      algos := algos + UpToCv347;
    }
    TierShape(version);
    assert algos == Layout(IsCv2(version), IsCv3(version), LastGate(version));
    return Ok(algos);
  }

  // ---------------------------------------------------------------------------
  // Properties of the list
  // ---------------------------------------------------------------------------

  /** The list in closed form, given the three guard values: "2.", "3." and
      the value of the final `or`. */
  function Layout(cv2: bool, cv3: bool, last: bool): seq<AlgoId>
  {
    Base + (if cv2 then Cv2Only else AfterCv2)
         + (if cv2 || cv3 then UpToCv3 else [])
         + (if last then UpToCv347 else [])
  }

  /** The value of the final guard `is_cv2() or is_lower_or_equals_cv347()`
      when it does not raise. */
  predicate LastGate(version: string)
  {
    IsCv2(version) || IsLowerOrEqualsCv347(version) == Ok(true)
  }

  lemma SelectedRules(version: string)
    ensures Selected(Rules, version) ==
      (if IsCv2(version) then Cv2Only else AfterCv2)
      + (if IsCv2(version) || IsCv3(version) then UpToCv3 else [])
      + (if LastGate(version) then UpToCv347 else [])
  {
    var v := version;
    var r1, r2, r3 := Rules[1..], Rules[2..], Rules[3..];
    assert r1[1..] == r2 && r2[1..] == r3 && r3[1..] == [];
    assert r3 == [Rule(WhenCv2OrUpTo347, UpToCv347)];
    assert Selected(r3[1..], v) == [];
    var s3 := Selected(r3, v);
    assert s3 == if LastGate(v) then UpToCv347 else [];
    var s2 := Selected(r2, v);
    assert s2 == (if IsCv2(v) || IsCv3(v) then UpToCv3 else []) + s3;
    var s1 := Selected(r1, v);
    assert s1 == (if !IsCv2(v) then AfterCv2 else []) + s2;
    assert Selected(Rules, v) == (if IsCv2(v) then Cv2Only else []) + s1;
  }

  /** The list for each tier: it fails only when the final guard raises, and
      is otherwise the base followed by the blocks whose guards hold. */
  lemma TierShape(version: string)
    ensures AvailableAlgorithms(version) ==
      if !IsCv2(version) && IsLowerOrEqualsCv347(version).Err?
      then Err(IsLowerOrEqualsCv347(version).error)
      else Ok(Layout(IsCv2(version), IsCv3(version), LastGate(version)))
  {
    var v := version;
    var r := AvailableAlgorithms(v);
    if !IsCv2(v) && IsLowerOrEqualsCv347(v).Err? {
      assert Holds(Rules[3].gate, v).Err?;
      assert r.Err?;
      var i :| 0 <= i < |Rules| && Holds(Rules[i].gate, v) == Err(r.error);
      assert i == 3;
    } else {
      forall i | 0 <= i < |Rules| ensures Holds(Rules[i].gate, v).Ok? {
        assert i == 0 || i == 1 || i == 2 || i == 3;
      }
      SelectedRules(v);
      var c2, c3, last := IsCv2(v), IsCv3(v), LastGate(v);
      var a := if c2 then Cv2Only else AfterCv2;
      var b := if c2 || c3 then UpToCv3 else [];
      var c := if last then UpToCv347 else [];
      assert Base + (a + b + c) == Base + a + b + c;
    }
  }

  /** A list that does not fail is the closed form of its tier. */
  lemma Shape(version: string)
    requires AvailableAlgorithms(version).Ok?
    ensures AvailableAlgorithms(version).value ==
      Layout(IsCv2(version), IsCv3(version), LastGate(version))
  {
    TierShape(version);
  }

  /** The length of each closed form. */
  lemma LayoutLength(cv2: bool, cv3: bool, last: bool)
    ensures |Layout(cv2, cv3, last)| ==
      25 + (if cv2 then 2 else 1) + (if cv2 || cv3 then 13 else 0) + (if last then 2 else 0)
  {
  }

  lemma LayoutPrefix(cv2: bool, cv3: bool, last: bool)
    ensures |Layout(cv2, cv3, last)| >= 25 && Layout(cv2, cv3, last)[..25] == Base
  {
    var a := if cv2 then Cv2Only else AfterCv2;
    var b := if cv2 || cv3 then UpToCv3 else [];
    var c := if last then UpToCv347 else [];
    assert Layout(cv2, cv3, last) == Base + (a + b + c);
  }

  lemma LayoutPair(cv2: bool, cv3: bool, last: bool)
    ensures var algos := Layout(cv2, cv3, last);
      && |algos| >= 26
      && (cv2 ==> |algos| >= 27 && algos[25..27] == Cv2Only)
      && (!cv2 ==> algos[25] == KNN)
  {
    var a := if cv2 then Cv2Only else AfterCv2;
    var b := if cv2 || cv3 then UpToCv3 else [];
    var c := if last then UpToCv347 else [];
    var algos := Layout(cv2, cv3, last);
    assert algos == Base + a + (b + c);
    assert algos[25..25 + |a|] == a;
  }

  lemma LayoutBlock(cv2: bool, cv3: bool, last: bool)
    requires cv2 || cv3
    ensures var algos := Layout(cv2, cv3, last);
      var at := if cv2 then 27 else 26;
      && at + 13 <= |algos|
      && algos[at..at + 13] == UpToCv3
      && algos[at] == DPAdaptiveMedian && algos[at + 12] == MultiCue
  {
    var a := if cv2 then Cv2Only else AfterCv2;
    var c := if last then UpToCv347 else [];
    var algos := Layout(cv2, cv3, last);
    var at := 25 + |a|;
    assert algos == (Base + a) + UpToCv3 + c;
    assert algos[at..at + 13] == UpToCv3;
    assert algos[at] == UpToCv3[0] && algos[at + 12] == UpToCv3[12];
  }

  lemma LayoutFinal(cv2: bool, cv3: bool, last: bool)
    requires last
    ensures var algos := Layout(cv2, cv3, last);
      && |algos| >= 2
      && algos[|algos| - 2..] == UpToCv347
      && algos[|algos| - 2] == LBP_MRF && algos[|algos| - 1] == MultiLayer
  {
    var a := if cv2 then Cv2Only else AfterCv2;
    var b := if cv2 || cv3 then UpToCv3 else [];
    var algos := Layout(cv2, cv3, last);
    assert algos == (Base + a + b) + UpToCv347;
    assert algos[|algos| - 2..] == UpToCv347;
  }

  /** The block an algorithm belongs to: 0 the base, 1 the OpenCV 2 pair,
      2 KNN, 3 the 13-entry block, 4 the final pair. */
  function BlockOf(x: AlgoId): nat
  {
    match x
    case MixtureOfGaussianV1 | GMG => 1
    case KNN => 2
    case DPAdaptiveMedian | DPGrimsonGMM | DPZivkovicAGMM | DPMean | DPWrenGA
       | DPPratiMediod | DPEigenbackground | DPTexture | T2FGMM_UM | T2FGMM_UV
       | T2FMRF_UM | T2FMRF_UV | MultiCue => 3
    case LBP_MRF | MultiLayer => 4
    case _ => 0
  }

  /** Every entry of a block is tagged with that block. */
  lemma BlocksTagged()
    ensures forall i :: 0 <= i < |Base| ==> BlockOf(Base[i]) == 0
    ensures forall i :: 0 <= i < |Cv2Only| ==> BlockOf(Cv2Only[i]) == 1
    ensures forall i :: 0 <= i < |AfterCv2| ==> BlockOf(AfterCv2[i]) == 2
    ensures forall i :: 0 <= i < |UpToCv3| ==> BlockOf(UpToCv3[i]) == 3
    ensures forall i :: 0 <= i < |UpToCv347| ==> BlockOf(UpToCv347[i]) == 4
  {
  }

  /** Whether the guard of block `tag` holds, given the three guard values. */
  predicate Listed(tag: nat, cv2: bool, cv3: bool, last: bool)
  {
    || tag == 0
    || (tag == 1 && cv2)
    || (tag == 2 && !cv2)
    || (tag == 3 && (cv2 || cv3))
    || (tag == 4 && last)
  }

  /** Every entry of a closed form comes from a block whose guard holds. */
  lemma LayoutTags(cv2: bool, cv3: bool, last: bool)
    ensures var algos := Layout(cv2, cv3, last);
      forall i :: 0 <= i < |algos| ==> Listed(BlockOf(algos[i]), cv2, cv3, last)
  {
    BlocksTagged();
    var a := if cv2 then Cv2Only else AfterCv2;
    var b := if cv2 || cv3 then UpToCv3 else [];
    var c := if last then UpToCv347 else [];
    var algos := Layout(cv2, cv3, last);
    assert algos == Base + a + b + c;
    forall i | 0 <= i < |algos| ensures Listed(BlockOf(algos[i]), cv2, cv3, last) {
      if i < 25 {
        assert algos[i] == Base[i];
      } else if i < 25 + |a| {
        assert algos[i] == a[i - 25];
      } else if i < 25 + |a| + |b| {
        assert algos[i] == b[i - 25 - |a|];
      } else {
        assert algos[i] == c[i - 25 - |a| - |b|];
      }
    }
  }

  /** An algorithm from a block whose guard fails is not in the closed form. */
  lemma LayoutAbsent(cv2: bool, cv3: bool, last: bool, x: AlgoId)
    requires !Listed(BlockOf(x), cv2, cv3, last)
    ensures x !in Layout(cv2, cv3, last)
  {
    LayoutTags(cv2, cv3, last);
  }

  /** Every entry of a list comes from a block whose guard holds for the
      version: the base, the pair for "2.", KNN for any other version, the
      13-entry block for "2." and "3.", the final pair when the final `or`
      holds. */
  lemma Entries(version: string)
    ensures AvailableAlgorithms(version).Ok? ==>
      var algos := AvailableAlgorithms(version).value;
      forall i :: 0 <= i < |algos| ==>
        Listed(BlockOf(algos[i]), IsCv2(version), IsCv3(version), LastGate(version))
  {
    if AvailableAlgorithms(version).Ok? {
      Shape(version);
      LayoutTags(IsCv2(version), IsCv3(version), LastGate(version));
    }
  }

  /** Every result starts with the 25 base entries in their listed order. */
  lemma BasePrefix(version: string)
    ensures AvailableAlgorithms(version).Ok? ==>
      var algos := AvailableAlgorithms(version).value;
      |algos| >= 25 && algos[..25] == Base
  {
    if AvailableAlgorithms(version).Ok? {
      Shape(version);
      LayoutPrefix(IsCv2(version), IsCv3(version), LastGate(version));
    }
  }

  /** A "2." version gets MixtureOfGaussianV1 then GMG right after the base,
      and never KNN. */
  lemma Cv2Pair(version: string)
    requires IsCv2(version)
    ensures AvailableAlgorithms(version).Ok?
    ensures var algos := AvailableAlgorithms(version).value;
      |algos| >= 27 && algos[25..27] == Cv2Only && KNN !in algos
  {
    TierShape(version);
    LayoutPair(true, IsCv3(version), true);
    LayoutAbsent(true, IsCv3(version), true, KNN);
  }

  /** Any other version that does not fail gets KNN right after the base
      instead, and neither entry of the pair. */
  lemma KnnInstead(version: string)
    requires !IsCv2(version)
    ensures AvailableAlgorithms(version).Ok? ==>
      var algos := AvailableAlgorithms(version).value;
      |algos| >= 26 && algos[25] == KNN && MixtureOfGaussianV1 !in algos && GMG !in algos
  {
    if AvailableAlgorithms(version).Ok? {
      Shape(version);
      var c3, last := IsCv3(version), LastGate(version);
      LayoutPair(false, c3, last);
      LayoutAbsent(false, c3, last, MixtureOfGaussianV1);
      LayoutAbsent(false, c3, last, GMG);
    }
  }

  /** For "2." and "3." versions the 13-entry block follows the pair or KNN. */
  lemma UpToCv3Place(version: string)
    requires IsCv2(version) || IsCv3(version)
    ensures AvailableAlgorithms(version).Ok? ==>
      var algos := AvailableAlgorithms(version).value;
      var at := if IsCv2(version) then 27 else 26;
      at + 13 <= |algos| && algos[at..at + 13] == UpToCv3
  {
    if AvailableAlgorithms(version).Ok? {
      Shape(version);
      LayoutBlock(IsCv2(version), IsCv3(version), LastGate(version));
    }
  }

  /** The 13-entry block is present exactly for "2." and "3." versions. */
  lemma UpToCv3Members(version: string)
    ensures AvailableAlgorithms(version).Ok? ==>
      var algos := AvailableAlgorithms(version).value;
      && (DPAdaptiveMedian in algos <==> IsCv2(version) || IsCv3(version))
      && (MultiCue in algos <==> IsCv2(version) || IsCv3(version))
  {
    if AvailableAlgorithms(version).Ok? {
      Shape(version);
      var c2, c3, last := IsCv2(version), IsCv3(version), LastGate(version);
      if c2 || c3 {
        LayoutBlock(c2, c3, last);
      } else {
        LayoutAbsent(c2, c3, last, DPAdaptiveMedian);
        LayoutAbsent(c2, c3, last, MultiCue);
      }
    }
  }

  /** LBP_MRF then MultiLayer close the list exactly when the version is "2."
      or passes the 3.4.7 test. */
  lemma FinalPair(version: string)
    ensures AvailableAlgorithms(version).Ok? ==>
      var algos := AvailableAlgorithms(version).value;
      var last := IsCv2(version) || IsLowerOrEqualsCv347(version) == Ok(true);
      && (last ==> |algos| >= 2 && algos[|algos| - 2..] == UpToCv347)
      && (LBP_MRF in algos <==> last)
      && (MultiLayer in algos <==> last)
  {
    if AvailableAlgorithms(version).Ok? {
      Shape(version);
      var c2, c3, last := IsCv2(version), IsCv3(version), LastGate(version);
      if last {
        LayoutFinal(c2, c3, last);
      } else {
        LayoutAbsent(c2, c3, last, LBP_MRF);
        LayoutAbsent(c2, c3, last, MultiLayer);
      }
    }
  }

  /** The list fails exactly when the version is not "2." and the 3.4.7 test
      raises, with that test's error; a "2." version of any shape never
      raises. */
  lemma Failure(version: string)
    ensures AvailableAlgorithms(version).Err? <==>
      !IsCv2(version) && IsLowerOrEqualsCv347(version).Err?
    ensures AvailableAlgorithms(version).Err? ==>
      AvailableAlgorithms(version).error == IsLowerOrEqualsCv347(version).error
    ensures IsCv2(version) ==> AvailableAlgorithms(version).Ok?
  {
    TierShape(version);
  }

  /** The lengths per tier. */
  lemma Lengths(version: string)
    ensures IsCv2(version) ==>
      AvailableAlgorithms(version) == Ok(Base + Cv2Only + UpToCv3 + UpToCv347)
      && |AvailableAlgorithms(version).value| == 42
    ensures IsCv3(version) && IsLowerOrEqualsCv347(version) == Ok(true) ==>
      AvailableAlgorithms(version) == Ok(Base + AfterCv2 + UpToCv3 + UpToCv347)
      && |AvailableAlgorithms(version).value| == 41
    ensures IsCv3(version) && IsLowerOrEqualsCv347(version) == Ok(false) ==>
      AvailableAlgorithms(version) == Ok(Base + AfterCv2 + UpToCv3)
      && |AvailableAlgorithms(version).value| == 39
    ensures !IsCv2(version) && !IsCv3(version) && IsLowerOrEqualsCv347(version) == Ok(false) ==>
      AvailableAlgorithms(version) == Ok(Base + AfterCv2)
      && |AvailableAlgorithms(version).value| == 26
  {
    TierShape(version);
    MajorPrefixesExclusive(version);
    var c2, c3, last := IsCv2(version), IsCv3(version), LastGate(version);
    assert Layout(c2, c3, last) ==
      Base + (if c2 then Cv2Only else AfterCv2) + (if c2 || c3 then UpToCv3 else [])
        + (if last then UpToCv347 else []);
    assert Base + AfterCv2 + UpToCv3 + [] == Base + AfterCv2 + UpToCv3;
    assert Base + AfterCv2 + [] + [] == Base + AfterCv2;
  }

  /** A "3." version has "3" as its first part. */
  lemma {:induction false} Cv3FirstPart(version: string)
    requires IsCv3(version)
    ensures Split(version)[0] == "3"
  {
    assert version == "3" + "." + version[2..];
    SplitCons("3", version[2..]);
  }

  /** On well-formed versions the list never fails, and its length depends
      on the tier alone: 42 for "2.", 41 for 3.x.y with x <= 4 and y <= 7,
      39 for any other "3.", 26 for any other major number. A major part
      written with a leading zero, as in "03.4.7", is not a "3." prefix but
      parses as 3, and so gets the final pair without the 13-entry block. */
  lemma WellFormedTiers(version: string)
    requires WellFormed(version)
    ensures AvailableAlgorithms(version).Ok?
    ensures var n := |AvailableAlgorithms(version).value|;
      if IsCv2(version) then n == 42
      else if IsCv3(version) then
        (if Minor(version) <= 4 && Revision(version) <= 7 then n == 41 else n == 39)
      else if Major(version) != 3 then n == 26
      else (if Minor(version) <= 4 && Revision(version) <= 7 then n == 28 else n == 26)
  {
    Failure(version);
    Shape(version);
    LayoutLength(IsCv2(version), IsCv3(version), LastGate(version));
    if IsCv3(version) {
      Cv3FirstPart(version);
      assert ParseDecimal("3") == Some(3);
    }
  }

  /** Concrete versions of the "3." tiers. */
  lemma Cv3TierExamples()
    ensures AvailableAlgorithms("3.4.7") == Ok(Base + AfterCv2 + UpToCv3 + UpToCv347)
    ensures AvailableAlgorithms("3.3.9") == Ok(Base + AfterCv2 + UpToCv3)
  {
    Cv347Examples();
    Lengths("3.4.7");
    Lengths("3.3.9");
  }

  /** A concrete version of the OpenCV 4 tier. */
  lemma Cv4TierExample()
    ensures AvailableAlgorithms("4.5.1") == Ok(Base + AfterCv2)
  {
    Cv347NotLexicographic();
    Lengths("4.5.1");
  }

  /** "2.4" lacks a revision but is never split. */
  lemma ShortCv2Version()
    ensures AvailableAlgorithms("2.4") == Ok(Base + Cv2Only + UpToCv3 + UpToCv347)
  {
    Lengths("2.4");
  }

  /** "4.5" is split, and the unpacking fails. */
  lemma ShortCv4Version()
    ensures AvailableAlgorithms("4.5") == Err(WrongPartCount(2))
  {
    Failure("4.5");
    SplitJoin(["4", "5"]);
    assert Join(["4", "5"]) == "4.5";
  }
}
