/**
 * The outcome of one field rule: the browser's { isValid, error } object and
 * the server's (is_valid, error) tuple carry the same information.
 */
module Verdicts {

  datatype Verdict = Valid | Invalid(message: string)

  /**
   * Running rules in order and stopping at the first one that fails, as
   * validateProfileData and validate_profile_data do.
   */
  function FirstFailure(vs: seq<Verdict>): (r: Verdict)
    ensures r.Valid? <==> forall i :: 0 <= i < |vs| ==> vs[i].Valid?
    ensures r.Invalid? ==> exists i :: 0 <= i < |vs| && vs[i] == r && forall j :: 0 <= j < i ==> vs[j].Valid?
  {
    if vs == [] then Valid
    else if vs[0].Invalid? then vs[0]
    else
      var r := FirstFailure(vs[1..]);
      assert forall i :: 0 <= i < |vs| - 1 ==> vs[1..][i] == vs[i + 1];
      r
  }

  /** FirstFailure on three rules, spelled out. */
  lemma FirstFailureOfThree(a: Verdict, b: Verdict, c: Verdict)
    ensures FirstFailure([a, b, c]) == if a.Invalid? then a else if b.Invalid? then b else c
  {
    assert [a, b, c][1..] == [b, c];
    assert [b, c][1..] == [c];
    assert [c][1..] == [];
    assert FirstFailure([c]) == c;
    assert FirstFailure([b, c]) == if b.Invalid? then b else c;
  }

  /** FirstFailure on four rules, spelled out. */
  lemma FirstFailureOfFour(a: Verdict, b: Verdict, c: Verdict, d: Verdict)
    ensures FirstFailure([a, b, c, d]) == if a.Invalid? then a else FirstFailure([b, c, d])
  {
    assert [a, b, c, d][1..] == [b, c, d];
  }

  /** A rule that may be skipped, then three more: the first failure among those that run. */
  lemma FirstFailureOfOptionalThenThree(skip: bool, first: Verdict, b: Verdict, c: Verdict, d: Verdict)
    ensures FirstFailure((if skip then [] else [first]) + [b, c, d]) ==
      if !skip && first.Invalid? then first else if b.Invalid? then b else if c.Invalid? then c else d
  {
    FirstFailureOfThree(b, c, d);
    if skip {
      assert [] + [b, c, d] == [b, c, d];
    } else {
      assert [first] + [b, c, d] == [first, b, c, d];
      FirstFailureOfFour(first, b, c, d);
    }
  }
}
