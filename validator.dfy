/**
 * Validator.validate: three checks in a fixed order, the first failing one
 * decides the verdict. Numbers are read with an abstract `parse` standing for
 * `parseFloat`, None standing for NaN.
 */
module Validation {
  import opened Wrappers

  datatype ErrorKind = MissingField | AbvOutOfRange | VolumeTooSmall

  datatype Verdict = Valid | Invalid(kind: ErrorKind)

  /** `!name || !abv || !volume`: in JavaScript only the empty string is a falsy string. */
  predicate AllPresent(name: string, abv: string, volume: string)
  {
    name != [] && abv != [] && volume != []
  }

  /** Not NaN and within [0, 100], both ends included. */
  predicate AbvAcceptable(abv: Option<real>)
  {
    abv.Some? && 0.0 <= abv.value <= 100.0
  }

  /** Not NaN and at least 1. */
  predicate VolumeAcceptable(volume: Option<real>)
  {
    volume.Some? && volume.value >= 1.0
  }

  function Validate(name: string, abv: string, volume: string, parse: string -> Option<real>): (v: Verdict)
    ensures v == Valid <==>
      AllPresent(name, abv, volume) && AbvAcceptable(parse(abv)) && VolumeAcceptable(parse(volume))
    ensures v == Invalid(MissingField) <==> !AllPresent(name, abv, volume)
    ensures v == Invalid(AbvOutOfRange) <==>
      AllPresent(name, abv, volume) && !AbvAcceptable(parse(abv))
    ensures v == Invalid(VolumeTooSmall) <==>
      AllPresent(name, abv, volume) && AbvAcceptable(parse(abv)) && !VolumeAcceptable(parse(volume))
  {
    if !AllPresent(name, abv, volume) then Invalid(MissingField)
    else if !AbvAcceptable(parse(abv)) then Invalid(AbvOutOfRange)
    else if !VolumeAcceptable(parse(volume)) then Invalid(VolumeTooSmall)
    else Valid
  }

  /** A check of the chain: whether it passes and the failure it reports otherwise. */
  datatype Check = Check(passes: bool, failure: ErrorKind)

  /** Check k fails and every check before it passes. */
  ghost predicate FailsFirstAt(checks: seq<Check>, k: int)
    requires 0 <= k < |checks|
  {
    !checks[k].passes && forall j :: 0 <= j < k ==> checks[j].passes
  }

  /** The ordered chain, independent of Validate: the first failing check wins. */
  function FirstFailure(checks: seq<Check>): (v: Verdict)
    ensures v == Valid <==> forall k :: 0 <= k < |checks| ==> checks[k].passes
    ensures v.Invalid? ==>
      exists k :: 0 <= k < |checks| && FailsFirstAt(checks, k) && checks[k].failure == v.kind
  {
    if checks == [] then Valid
    else if !checks[0].passes then
      assert FailsFirstAt(checks, 0);
      Invalid(checks[0].failure)
    else
      var v := FirstFailure(checks[1..]);
      assert v.Invalid? ==>
        exists k :: 0 <= k < |checks| && FailsFirstAt(checks, k) && checks[k].failure == v.kind
      by {
        if v.Invalid? {
          var k :| 0 <= k < |checks[1..]| && FailsFirstAt(checks[1..], k) && checks[1..][k].failure == v.kind;
          forall j | 0 <= j < k + 1 ensures checks[j].passes {
            if j > 0 { assert checks[j] == checks[1..][j - 1]; }
          }
          assert checks[k + 1] == checks[1..][k];
          assert FailsFirstAt(checks, k + 1);
        }
      }
      assert v == Valid ==> forall k :: 0 <= k < |checks| ==> checks[k].passes by {
        if v == Valid {
          forall k | 0 <= k < |checks| ensures checks[k].passes {
            if k > 0 { assert checks[k] == checks[1..][k - 1]; }
          }
        }
      }
      v
  }

  /** Validate is that chain over presence, then strength, then volume. */
  lemma ValidateIsFirstFailure(name: string, abv: string, volume: string, parse: string -> Option<real>)
    ensures Validate(name, abv, volume, parse) == FirstFailure([
      Check(AllPresent(name, abv, volume), MissingField),
      Check(AbvAcceptable(parse(abv)), AbvOutOfRange),
      Check(VolumeAcceptable(parse(volume)), VolumeTooSmall)])
  {
    var checks := [
      Check(AllPresent(name, abv, volume), MissingField),
      Check(AbvAcceptable(parse(abv)), AbvOutOfRange),
      Check(VolumeAcceptable(parse(volume)), VolumeTooSmall)];
    var c2 := checks[1..];
    var c3 := c2[1..];
    assert c3[1..] == [];
    assert FirstFailure(c3) == if c3[0].passes then Valid else Invalid(c3[0].failure);
    assert FirstFailure(c2) == if c2[0].passes then FirstFailure(c3) else Invalid(c2[0].failure);
    assert FirstFailure(checks) == if checks[0].passes then FirstFailure(c2) else Invalid(checks[0].failure);
  }

  /** Strength boundaries: 0 and 100 pass, anything outside fails (when the fields are present). */
  lemma AbvBoundaries(name: string, abv: string, volume: string, parse: string -> Option<real>, x: real)
    requires AllPresent(name, abv, volume) && parse(abv) == Some(x)
    ensures Validate(name, abv, volume, parse) == Invalid(AbvOutOfRange) <==> x < 0.0 || x > 100.0
  {
  }

  /** Volume boundary: exactly 1 passes, anything below fails (when the earlier checks pass). */
  lemma VolumeBoundary(name: string, abv: string, volume: string, parse: string -> Option<real>, y: real)
    requires AllPresent(name, abv, volume) && AbvAcceptable(parse(abv)) && parse(volume) == Some(y)
    ensures Validate(name, abv, volume, parse) == Valid <==> y >= 1.0
  {
  }

  /** The text "0" is present: a strength of 0 is accepted. */
  lemma ZeroStrengthAccepted(name: string, volume: string, parse: string -> Option<real>)
    requires name != [] && parse("0") == Some(0.0) && volume != [] && VolumeAcceptable(parse(volume))
    ensures Validate(name, "0", volume, parse) == Valid
  {
  }

  /** Sample verdicts, for a parse that reads these decimal strings as their values. */
  lemma ValidateExamples(parse: string -> Option<real>)
    requires parse("5") == Some(5.0) && parse("500") == Some(500.0)
    requires parse("101") == Some(101.0) && parse("0") == Some(0.0)
    ensures Validate("", "5", "500", parse) == Invalid(MissingField)
    ensures Validate("Beer", "101", "500", parse) == Invalid(AbvOutOfRange)
    ensures Validate("Beer", "5", "0", parse) == Invalid(VolumeTooSmall)
    ensures Validate("Beer", "5", "500", parse) == Valid
  {
  }
}
