/**
  The `metadata.version` value of `setup.cfg` and the patch bump that
  `increment_minor_version` applies to it (release_package.py:237-251).
  Despite the function's name it is the third component that grows.
*/
module Versions {
  import opened Results
  import opened Strings
  import opened Decimal

  datatype Version = Version(major: nat, minor: nat, patch: nat)

  /** The ValueError that reading a version raises, by cause. */
  datatype VersionError =
    | NotAnInteger(part: string)       // `int(part)` refuses a dot-separated part
    | WrongComponentCount(count: nat)  // the parts do not unpack into major, minor, patch

  /** The index of the first part that is not a numeral, if any. */
  function FirstNonNumeral(parts: seq<string>): (r: Option<nat>)
    ensures r.Some? ==> r.value < |parts| && !IsNumeral(parts[r.value])
    ensures r.Some? ==> forall j :: 0 <= j < r.value ==> IsNumeral(parts[j])
    ensures r.None? ==> forall j :: 0 <= j < |parts| ==> IsNumeral(parts[j])
    decreases |parts|
  {
    if parts == [] then None
    else if !IsNumeral(parts[0]) then Some(0)
    else
      match FirstNonNumeral(parts[1..])
      case None => None
      case Some(k) => Some(k + 1)
  }

  /**
    `major, minor, patch = [int(v) for v in version.split('.')]`: every part
    is converted first, left to right, so a bad part is reported before a
    wrong number of parts.
  */
  function ParseVersion(s: string): (r: Result<Version, VersionError>)
    ensures var parts := Split(s, '.');
      r.Ok? <==> |parts| == 3 && IsNumeral(parts[0]) && IsNumeral(parts[1]) && IsNumeral(parts[2])
    ensures var parts := Split(s, '.');
      r.Ok? ==> r.value == Version(Value(parts[0]), Value(parts[1]), Value(parts[2]))
    ensures var parts := Split(s, '.');
      r.Err? && r.error.NotAnInteger? ==>
        exists i :: 0 <= i < |parts| && parts[i] == r.error.part && !IsNumeral(parts[i])
          && forall j :: 0 <= j < i ==> IsNumeral(parts[j])
    ensures var parts := Split(s, '.');
      r.Err? && r.error.WrongComponentCount? ==>
        r.error.count == |parts| != 3 && forall j :: 0 <= j < |parts| ==> IsNumeral(parts[j])
  {
    var parts := Split(s, '.');
    match FirstNonNumeral(parts)
    case Some(i) => Err(NotAnInteger(parts[i]))
    case None =>
      if |parts| != 3 then Err(WrongComponentCount(|parts|))
      else Ok(Version(Value(parts[0]), Value(parts[1]), Value(parts[2])))
  }

  /** `f"{major}.{minor}.{patch}"` */
  function FormatVersion(v: Version): string {
    Numeral(v.major) + "." + Numeral(v.minor) + "." + Numeral(v.patch)
  }

  /** Writing a version and reading it back gives the same three numbers. */
  lemma ParseFormat(v: Version)
    ensures ParseVersion(FormatVersion(v)) == Ok(v)
  {
    var words := [Numeral(v.major), Numeral(v.minor), Numeral(v.patch)];
    NumeralHasNoDot(v.major);
    NumeralHasNoDot(v.minor);
    NumeralHasNoDot(v.patch);
    JoinThree(words[0], words[1], words[2], ".");
    SplitJoin(words, '.');
  }

  /**
    The value `increment_minor_version` writes back and returns: the patch
    number plus one, with major and minor unchanged; the read's error when
    the version is not three numerals.
  */
  function IncrementPatch(s: string): (r: Result<string, VersionError>)
    ensures r.Ok? <==> ParseVersion(s).Ok?
    ensures r.Err? ==> r.error == ParseVersion(s).error
    ensures r.Ok? ==> var v := ParseVersion(s).value;
      ParseVersion(r.value) == Ok(Version(v.major, v.minor, v.patch + 1))
  {
    match ParseVersion(s)
    case Err(e) => Err(e)
    case Ok(v) =>
      var w := Version(v.major, v.minor, v.patch + 1);
      ParseFormat(w);
      Ok(FormatVersion(w))
  }

  /** Bumping twice adds two to the patch number. */
  lemma IncrementTwice(s: string)
    requires ParseVersion(s).Ok?
    ensures IncrementPatch(s).Ok? && IncrementPatch(IncrementPatch(s).value).Ok?
    ensures var v := ParseVersion(s).value;
      ParseVersion(IncrementPatch(IncrementPatch(s).value).value) == Ok(Version(v.major, v.minor, v.patch + 2))
  {
  }

  /** The example of the docstring: 2.2.9 becomes 2.2.10. */
  lemma IncrementDocExample()
    ensures IncrementPatch("2.2.9") == Ok("2.2.10")
  {
    JoinThree("2", "2", "9", ".");
    SplitJoin(["2", "2", "9"], '.');
    assert Value("2") == 2 by { assert "2"[..0] == ""; }
    assert Value("9") == 9 by { assert "9"[..0] == ""; }
    assert ParseVersion("2.2.9") == Ok(Version(2, 2, 9));
    assert Numeral(10) == "10";
    assert FormatVersion(Version(2, 2, 10)) == "2.2.10";
  }

  /** `int()` reads a leading zero as part of the number. */
  lemma ParseLeadingZeros()
    ensures ParseVersion("1.02.3") == Ok(Version(1, 2, 3))
  {
    JoinThree("1", "02", "3", ".");
    SplitJoin(["1", "02", "3"], '.');
    assert Value("1") == 1 by { assert "1"[..0] == ""; }
    assert Value("3") == 3 by { assert "3"[..0] == ""; }
    assert Value("02") == 2 by { assert "02"[..1] == "0"; assert "0"[..0] == ""; }
  }

  /** Leading zeros are read by `int()` and not written back: 1.02.3 becomes 1.2.4. */
  lemma IncrementDropsLeadingZeros()
    ensures IncrementPatch("1.02.3") == Ok("1.2.4")
  {
    ParseLeadingZeros();
    assert FormatVersion(Version(1, 2, 4)) == "1.2.4";
  }

  /** Four numerals split from a version with a fourth component. */
  lemma SplitFourParts()
    ensures Split("1.2.3.4", '.') == ["1", "2", "3", "4"]
  {
    var four := ["1", "2", "3", "4"];
    assert Join(four, ".") == "1.2.3.4" by {
      JoinThree("2", "3", "4", ".");
      assert four[1..] == ["2", "3", "4"];
    }
    SplitJoin(four, '.');
  }

  /** A version with a fourth component is refused. */
  lemma IncrementRefusesFourParts()
    ensures IncrementPatch("1.2.3.4") == Err(WrongComponentCount(4))
  {
    var four := ["1", "2", "3", "4"];
    SplitFourParts();
    assert FirstNonNumeral(four) == None by {
      assert forall j :: 0 <= j < 4 ==> IsNumeral(four[j]);
    }
  }

  /** An empty part is refused by `int()` before the parts are counted. */
  lemma IncrementRefusesEmptyPart()
    ensures IncrementPatch("1..3.4") == Err(NotAnInteger(""))
  {
    assert Split("1..3.4", '.') == ["1", "", "3", "4"] by {
      SplitAtFirstSeparator("1", '.', ".3.4");
      SplitAtFirstSeparator("", '.', "3.4");
      SplitAtFirstSeparator("3", '.', "4");
      SplitWithoutSeparator("4", '.');
      assert "1" + "." + ".3.4" == "1..3.4";
      assert "" + "." + "3.4" == ".3.4";
      assert "3" + "." + "4" == "3.4";
    }
    assert FirstNonNumeral(["1", "", "3", "4"]) == Some(1) by {
      assert ["1", "", "3", "4"][1..] == ["", "3", "4"];
    }
  }
}
