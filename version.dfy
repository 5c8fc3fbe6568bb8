/** The OpenCV version checks of helper/utils.py. The version string, which the
    scripts read from the global `cv2.__version__`, is a parameter here. */
module OpenCvVersion {

  datatype Option<T> = None | Some(value: T)

  /** Why a version check raised `ValueError`. */
  datatype VersionError =
    | WrongPartCount(parts: nat)   // `[major, minor, revision] = ...` got this many parts, not three
    | NotAnInteger(part: string)   // `int(part)` rejected this part

  datatype Result<T> = Ok(value: T) | Err(error: VersionError)

  // ---------------------------------------------------------------------------
  // Prefix tests: check_opencv_version, is_cv2, is_cv3, is_cv4
  // ---------------------------------------------------------------------------

  /** `version.startswith(major)`, compared one character at a time. */
  function CheckOpencvVersion(version: string, major: string): (r: bool)
    ensures r <==> |major| <= |version| && version[..|major|] == major
  {
    if major == [] then true
    else if version == [] then false
    else version[0] == major[0] && CheckOpencvVersion(version[1..], major[1..])
  }

  function IsCv2(version: string): (r: bool)
    ensures r <==> 2 <= |version| && version[0] == '2' && version[1] == '.'
  {
    CheckOpencvVersion(version, "2.")
  }

  function IsCv3(version: string): (r: bool)
    ensures r <==> 2 <= |version| && version[0] == '3' && version[1] == '.'
  {
    CheckOpencvVersion(version, "3.")
  }

  function IsCv4(version: string): (r: bool)
    ensures r <==> 2 <= |version| && version[0] == '4' && version[1] == '.'
  {
    CheckOpencvVersion(version, "4.")
  }

  /** At most one of the three major-version prefixes matches any string. */
  lemma MajorPrefixesExclusive(version: string)
    ensures !(IsCv2(version) && IsCv3(version))
    ensures !(IsCv2(version) && IsCv4(version))
    ensures !(IsCv3(version) && IsCv4(version))
  {
  }

  // ---------------------------------------------------------------------------
  // str.split('.') and its inverse '.'.join(...)
  // ---------------------------------------------------------------------------

  /** The number of '.' characters in `s`. */
  function Dots(s: string): nat
  {
    if s == [] then 0 else (if s[0] == '.' then 1 else 0) + Dots(s[1..])
  }

  /** `s.split('.')`: the pieces between the dots, empty pieces included;
      there is always at least one piece. */
  function Split(s: string): (parts: seq<string>)
    ensures |parts| == Dots(s) + 1
    ensures forall i :: 0 <= i < |parts| ==> '.' !in parts[i]
  {
    if s == [] then [[]]
    else
      var rest := Split(s[1..]);
      if s[0] == '.' then [[]] + rest
      else [[s[0]] + rest[0]] + rest[1..]
  }

  /** `'.'.join(parts)`. */
  function Join(parts: seq<string>): string
    requires |parts| >= 1
  {
    if |parts| == 1 then parts[0] else parts[0] + "." + Join(parts[1..])
  }

  /** Splitting and re-joining gives back the string. */
  lemma {:induction false} JoinSplit(s: string)
    ensures Join(Split(s)) == s
  {
    if s != [] {
      JoinSplit(s[1..]);
      var rest := Split(s[1..]);
      if s[0] != '.' {
        var parts := Split(s);
        assert parts[1..] == rest[1..];
        if |rest| == 1 {
          assert Join(parts) == [s[0]] + rest[0];
        } else {
          assert Join(parts) == [s[0]] + rest[0] + "." + Join(rest[1..]);
          assert Join(rest) == rest[0] + "." + Join(rest[1..]);
        }
      } else {
        assert Split(s)[1..] == rest;
      }
    }
  }

  /** A dot-free piece followed by a dot splits off as the first part. */
  lemma {:induction false} SplitCons(p: string, rest: string)
    requires '.' !in p
    ensures Split(p + "." + rest) == [p] + Split(rest)
  {
    if p != [] {
      assert (p + "." + rest)[1..] == p[1..] + "." + rest;
      assert p == [p[0]] + p[1..];
      SplitCons(p[1..], rest);
    } else {
      assert p + "." + rest == "." + rest;
      assert ("." + rest)[1..] == rest;
    }
  }

  /** A dot-free string is a single part. */
  lemma {:induction false} SplitNoDot(p: string)
    requires '.' !in p
    ensures Split(p) == [p]
  {
    if p != [] {
      assert p == [p[0]] + p[1..];
      SplitNoDot(p[1..]);
    }
  }

  /** Joining dot-free parts and splitting again gives back the parts. */
  lemma {:induction false} SplitJoin(parts: seq<string>)
    requires |parts| >= 1
    requires forall i :: 0 <= i < |parts| ==> '.' !in parts[i]
    ensures Split(Join(parts)) == parts
  {
    if |parts| == 1 {
      SplitNoDot(parts[0]);
    } else {
      SplitJoin(parts[1..]);
      SplitCons(parts[0], Join(parts[1..]));
      assert parts == [parts[0]] + parts[1..];
    }
  }

  // ---------------------------------------------------------------------------
  // int(part) on strings of decimal digits
  // ---------------------------------------------------------------------------

  predicate IsDigit(c: char)
  {
    '0' <= c <= '9'
  }

  predicate AllDigits(s: string)
  {
    forall i :: 0 <= i < |s| ==> IsDigit(s[i])
  }

  function DigitValue(c: char): (d: nat)
    requires IsDigit(c)
    ensures d < 10
  {
    (c as int) - ('0' as int)
  }

  function DigitChar(d: nat): (c: char)
    requires d < 10
    ensures IsDigit(c) && DigitValue(c) == d
  {
    (('0' as int) + d) as char
  }

  /** The value of a non-empty string, read as decimal digits from the right;
      None at the first character that is not a digit. */
  function ParseDigits(s: string): Option<nat>
    requires s != []
  {
    var last := s[|s| - 1];
    if !IsDigit(last) then None
    else if |s| == 1 then Some(DigitValue(last))
    else match ParseDigits(s[..|s| - 1])
      case None => None
      case Some(v) => Some(10 * v + DigitValue(last))
  }

  /** `int(part)` for the part of a version string: a value exactly when the
      part is a non-empty string of decimal digits; leading zeros are allowed. */
  function ParseDecimal(part: string): (r: Option<nat>)
    ensures r.Some? <==> part != [] && AllDigits(part)
  {
    if part == [] then None else ParseDigitsDefined(part); ParseDigits(part)
  }

  lemma {:induction false} ParseDigitsDefined(s: string)
    requires s != []
    ensures ParseDigits(s).Some? <==> AllDigits(s)
  {
    if |s| > 1 {
      var init := s[..|s| - 1];
      ParseDigitsDefined(init);
      assert forall i :: 0 <= i < |init| ==> init[i] == s[i];
    }
  }

  /** `str(n)`: the canonical decimal rendering, without leading zeros. */
  function DecimalString(n: nat): (s: string)
    ensures s != [] && AllDigits(s)
    ensures |s| > 1 ==> s[0] != '0'
  {
    if n < 10 then [DigitChar(n)] else DecimalString(n / 10) + [DigitChar(n % 10)]
  }

  /** `int(str(n)) == n`. */
  lemma {:induction false} ParseDecimalString(n: nat)
    ensures ParseDecimal(DecimalString(n)) == Some(n)
  {
    var s := DecimalString(n);
    if n >= 10 {
      ParseDecimalString(n / 10);
      assert s[..|s| - 1] == DecimalString(n / 10);
    }
  }

  /** A leading zero does not change the value: `int("07") == int("7")`. */
  lemma {:induction false} LeadingZero(s: string)
    requires s != []
    ensures ParseDecimal("0" + s) == ParseDecimal(s)
  {
    var z := "0" + s;
    assert z[|z| - 1] == s[|s| - 1];
    if |s| == 1 {
      assert z[..|z| - 1] == "0";
      assert ParseDigits("0") == Some(0);
    } else {
      assert z[..|z| - 1] == "0" + s[..|s| - 1];
      LeadingZero(s[..|s| - 1]);
      ParseDigitsDefined(z[..|z| - 1]);
      ParseDigitsDefined(s[..|s| - 1]);
    }
  }

  // ---------------------------------------------------------------------------
  // is_lower_or_equals_cv347
  // ---------------------------------------------------------------------------

  /** The version has exactly three parts and each is a decimal integer. */
  predicate WellFormed(version: string)
  {
    var parts := Split(version);
    |parts| == 3
      && ParseDecimal(parts[0]).Some?
      && ParseDecimal(parts[1]).Some?
      && ParseDecimal(parts[2]).Some?
  }

  function Major(version: string): nat
    requires WellFormed(version)
  {
    ParseDecimal(Split(version)[0]).value
  }

  function Minor(version: string): nat
    requires WellFormed(version)
  {
    ParseDecimal(Split(version)[1]).value
  }

  function Revision(version: string): nat
    requires WellFormed(version)
  {
    ParseDecimal(Split(version)[2]).value
  }

  /** `is_lower_or_equals_cv347`: unpack the split into exactly three parts,
      then `int(major) == 3 and int(minor) <= 4 and int(revision) <= 7`,
      where `and` stops at the first false operand, so a part after it is
      never parsed. */
  function IsLowerOrEqualsCv347(version: string): (r: Result<bool>)
    // true exactly on well-formed versions 3.x.y with x <= 4 and y <= 7,
    // compared as numbers, component by component
    ensures r == Ok(true) <==>
      WellFormed(version) && Major(version) == 3 && Minor(version) <= 4 && Revision(version) <= 7
    // a well-formed version never raises
    ensures WellFormed(version) ==> r.Ok?
    // the unpacking raises unless there are exactly three parts
    ensures |Split(version)| != 3 ==> r == Err(WrongPartCount(|Split(version)|))
    // the major part is always parsed
    ensures |Split(version)| == 3 && ParseDecimal(Split(version)[0]).None? ==>
      r == Err(NotAnInteger(Split(version)[0]))
    // a major part other than 3 gives false whatever follows it
    ensures (&& |Split(version)| == 3
             && ParseDecimal(Split(version)[0]).Some?
             && ParseDecimal(Split(version)[0]).value != 3) ==> r == Ok(false)
  {
    var parts := Split(version);
    if |parts| != 3 then Err(WrongPartCount(|parts|))
    else match ParseDecimal(parts[0])
      case None => Err(NotAnInteger(parts[0]))
      case Some(major) =>
        if major != 3 then Ok(false)
        else match ParseDecimal(parts[1])
          case None => Err(NotAnInteger(parts[1]))
          case Some(minor) =>
            if minor > 4 then Ok(false)
            else match ParseDecimal(parts[2])
              case None => Err(NotAnInteger(parts[2]))
              case Some(revision) => Ok(revision <= 7)
  }

  /** The test raises exactly when the unpacking fails or when a part that
      the short-circuit `and` reaches is not an integer. */
  lemma Cv347Raises(version: string)
    ensures IsLowerOrEqualsCv347(version).Err? <==>
      (var parts := Split(version);
       || |parts| != 3
       || ParseDecimal(parts[0]).None?
       || (ParseDecimal(parts[0]) == Some(3) && ParseDecimal(parts[1]).None?)
       || (&& ParseDecimal(parts[0]) == Some(3)
           && ParseDecimal(parts[1]).Some?
           && ParseDecimal(parts[1]).value <= 4
           && ParseDecimal(parts[2]).None?))
  {
  }

  /** Versions built from three numbers are well formed and give back those
      numbers. */
  lemma {:induction false} ThreeNumbers(major: nat, minor: nat, revision: nat)
    ensures var v := DecimalString(major) + "." + DecimalString(minor) + "." + DecimalString(revision);
      WellFormed(v) && Major(v) == major && Minor(v) == minor && Revision(v) == revision
      && (IsLowerOrEqualsCv347(v) == Ok(major == 3 && minor <= 4 && revision <= 7))
  {
    var a, b, c := DecimalString(major), DecimalString(minor), DecimalString(revision);
    NoDotInDigits(a);
    NoDotInDigits(b);
    NoDotInDigits(c);
    var parts := [a, b, c];
    assert parts[1..] == [b, c] && [b, c][1..] == [c];
    assert Join([c]) == c;
    assert Join([b, c]) == b + "." + c;
    assert Join(parts) == a + "." + (b + "." + c);
    assert a + "." + (b + "." + c) == a + "." + b + "." + c;
    SplitJoin(parts);
    ParseDecimalString(major);
    ParseDecimalString(minor);
    ParseDecimalString(revision);
  }

  lemma NoDotInDigits(s: string)
    requires AllDigits(s)
    ensures '.' !in s
  {
  }

  /** The test is component-wise on numbers, not a string comparison:
      3.4.7 and 3.1.0 pass it, 3.4.8 and 3.3.9 fail it on the revision. */
  lemma Cv347Examples()
    ensures IsLowerOrEqualsCv347("3.4.7") == Ok(true)
    ensures IsLowerOrEqualsCv347("3.1.0") == Ok(true)
    ensures IsLowerOrEqualsCv347("3.4.8") == Ok(false)
    ensures IsLowerOrEqualsCv347("3.3.9") == Ok(false)
  {
    ThreeNumbers(3, 4, 7);
    assert DecimalString(3) + "." + DecimalString(4) + "." + DecimalString(7) == "3.4.7";
    ThreeNumbers(3, 1, 0);
    assert DecimalString(3) + "." + DecimalString(1) + "." + DecimalString(0) == "3.1.0";
    ThreeNumbers(3, 4, 8);
    assert DecimalString(3) + "." + DecimalString(4) + "." + DecimalString(8) == "3.4.8";
    ThreeNumbers(3, 3, 9);
    assert DecimalString(3) + "." + DecimalString(3) + "." + DecimalString(9) == "3.3.9";
  }

  /** "3.10.0" fails on its minor part although it sorts before "3.4.7" as
      a string; "4.5.1" fails on its major part. */
  lemma Cv347NotLexicographic()
    ensures IsLowerOrEqualsCv347("3.10.0") == Ok(false)
    ensures IsLowerOrEqualsCv347("4.5.1") == Ok(false)
  {
    ThreeNumbers(3, 10, 0);
    assert DecimalString(3) + "." + DecimalString(10) + "." + DecimalString(0) == "3.10.0";
    ThreeNumbers(4, 5, 1);
    assert DecimalString(4) + "." + DecimalString(5) + "." + DecimalString(1) == "4.5.1";
  }

  /** The unpacking raises on two or four parts. */
  lemma Cv347PartCount()
    ensures IsLowerOrEqualsCv347("3.4") == Err(WrongPartCount(2))
    ensures IsLowerOrEqualsCv347("3.4.7.1") == Err(WrongPartCount(4))
  {
    SplitJoin(["3", "4"]);
    assert Join(["3", "4"]) == "3.4";
    SplitJoin(["3", "4", "7", "1"]);
    assert Join(["3", "4", "7", "1"]) == "3.4.7.1";
  }

  /** An empty revision raises only when the minor part lets the `and`
      reach it. */
  lemma Cv347EmptyRevision()
    ensures IsLowerOrEqualsCv347("3.4.") == Err(NotAnInteger(""))
    ensures IsLowerOrEqualsCv347("3.5.") == Ok(false)
  {
    SplitJoin(["3", "4", ""]);
    assert Join(["3", "4", ""]) == "3.4.";
    SplitJoin(["3", "5", ""]);
    assert Join(["3", "5", ""]) == "3.5.";
    assert ParseDecimal("3") == Some(3);
    assert ParseDecimal("4") == Some(4);
    assert ParseDecimal("5") == Some(5);
  }
}
