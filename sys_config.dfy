/**
  The prompting loop of the `sysconfig` command: a value is asked for again and
  again until it passes a check, and a blank answer falls back to the previous
  value. The operator's answers are given as a sequence; if it runs out while the
  value is still refused, `input()` would raise EOFError, modelled as None.
 */
module SysConfig {
  import opened Wrappers
  import opened Text

  /** The loop's condition: with no check given the value is refused while blank; with
      a check `alt`, while `alt` holds of it. */
  predicate Refused(altCondition: Option<string -> bool>, value: string) {
    match altCondition
    case None => Strip(value) == ""
    case Some(alt) => alt(value)
  }

  /** The value after one answer: the stripped answer, or the stripped previous value
      when the answer is blank (Python's `a.strip() or b.strip()`). */
  function NextValue(answer: string, prevUserValue: string): string {
    if Strip(answer) != "" then Strip(answer) else Strip(prevUserValue)
  }

  /** The value the loop settles on, or None when the answers run out first. */
  function ConfigLoop(userValue: string, prevUserValue: string,
                      altCondition: Option<string -> bool>, answers: seq<string>): Option<string>
    decreases |answers|
  {
    if !Refused(altCondition, userValue) then Some(userValue)
    else if answers == [] then None
    else ConfigLoop(NextValue(answers[0], prevUserValue), prevUserValue, altCondition, answers[1..])
  }

  /** The check used for the fleet size: refuse a blank value, one that is not all
      digits, and one whose number is not positive. */
  predicate FleetSizeRejects(x: string) {
    Strip(x) == "" || !IsDigitString(x) || DecimalValue(x) <= 0
  }

  /** Ask until the value passes, one answer per prompt. */
  method GetConfigValue(userValue: string, prevUserValue: string,
                        altCondition: Option<string -> bool>, answers: seq<string>)
    returns (result: Option<string>)
    ensures result == ConfigLoop(userValue, prevUserValue, altCondition, answers)
    ensures result.Some? ==> !Refused(altCondition, result.value)
  {
    var value := userValue;
    var i := 0;
    while Refused(altCondition, value)
      invariant 0 <= i <= |answers|
      invariant ConfigLoop(value, prevUserValue, altCondition, answers[i..])
             == ConfigLoop(userValue, prevUserValue, altCondition, answers)
      decreases |answers| - i
    {
      if i == |answers| {
        return None;
      }
      assert answers[i..][1..] == answers[i + 1..];
      value := NextValue(answers[i], prevUserValue);
      i := i + 1;
    }
    result := Some(value);
    ConfigLoopAccepts(userValue, prevUserValue, altCondition, answers);
  }

  /** Whatever the loop returns passes its check. */
  lemma {:induction false} ConfigLoopAccepts(userValue: string, prevUserValue: string,
                                             altCondition: Option<string -> bool>, answers: seq<string>)
    requires ConfigLoop(userValue, prevUserValue, altCondition, answers).Some?
    ensures !Refused(altCondition, ConfigLoop(userValue, prevUserValue, altCondition, answers).value)
    decreases |answers|
  {
    if Refused(altCondition, userValue) {
      ConfigLoopAccepts(NextValue(answers[0], prevUserValue), prevUserValue, altCondition, answers[1..]);
    }
  }

  /** The loop gives up exactly when the starting value and the value after every
      answer are all refused. */
  lemma {:induction false} ConfigLoopNoneIff(userValue: string, prevUserValue: string,
                                             altCondition: Option<string -> bool>, answers: seq<string>)
    ensures ConfigLoop(userValue, prevUserValue, altCondition, answers).None?
        <==> Refused(altCondition, userValue)
             && forall i :: 0 <= i < |answers| ==> Refused(altCondition, NextValue(answers[i], prevUserValue))
    decreases |answers|
  {
    if Refused(altCondition, userValue) && answers != [] {
      var next := NextValue(answers[0], prevUserValue);
      ConfigLoopNoneIff(next, prevUserValue, altCondition, answers[1..]);
      assert forall i :: 0 <= i < |answers| - 1 ==> answers[1..][i] == answers[i + 1];
      if !Refused(altCondition, next) {
        assert !Refused(altCondition, NextValue(answers[0], prevUserValue));
      }
    }
  }

  /** The value returned is the starting value, or the stripped previous value, or one
      of the answers stripped. */
  lemma {:induction false} ConfigLoopOrigin(userValue: string, prevUserValue: string,
                                            altCondition: Option<string -> bool>, answers: seq<string>)
    requires ConfigLoop(userValue, prevUserValue, altCondition, answers).Some?
    ensures var v := ConfigLoop(userValue, prevUserValue, altCondition, answers).value;
            v == userValue || v == Strip(prevUserValue)
            || exists i :: 0 <= i < |answers| && v == Strip(answers[i])
    decreases |answers|
  {
    if Refused(altCondition, userValue) {
      var next := NextValue(answers[0], prevUserValue);
      ConfigLoopOrigin(next, prevUserValue, altCondition, answers[1..]);
      var v := ConfigLoop(userValue, prevUserValue, altCondition, answers).value;
      if v == next && Strip(answers[0]) != "" {
        assert v == Strip(answers[0]);
      } else if v != next && v != Strip(prevUserValue) {
        var i :| 0 <= i < |answers[1..]| && v == Strip(answers[1..][i]);
        assert v == Strip(answers[i + 1]);
      }
    }
  }

  /** A blank answer falls back to the stripped previous value, which is returned when it
      passes the check. */
  lemma BlankAnswerFallsBack(userValue: string, prevUserValue: string,
                             altCondition: Option<string -> bool>, answers: seq<string>)
    requires Refused(altCondition, userValue)
    requires |answers| > 0 && Strip(answers[0]) == ""
    requires !Refused(altCondition, Strip(prevUserValue))
    ensures ConfigLoop(userValue, prevUserValue, altCondition, answers) == Some(Strip(prevUserValue))
  {
  }

  /** With the default check, the value returned is never blank. */
  lemma DefaultCheckNonBlank(userValue: string, prevUserValue: string, answers: seq<string>)
    requires ConfigLoop(userValue, prevUserValue, None, answers).Some?
    ensures Strip(ConfigLoop(userValue, prevUserValue, None, answers).value) != ""
  {
    ConfigLoopAccepts(userValue, prevUserValue, None, answers);
  }

  /** The fleet-size check accepts exactly the non-empty digit strings naming a positive
      number; the blank test in it is subsumed by the digit test. */
  lemma FleetSizeAcceptsPositiveNumerals(x: string)
    ensures !FleetSizeRejects(x) <==> IsDigitString(x) && DecimalValue(x) > 0
  {
    if IsDigitString(x) {
      DigitsAreStripped(x);
    }
  }

  /** With the fleet-size check, the value returned is a non-empty string of digits whose
      number is at least 1. */
  lemma FleetSizeIsPositive(userValue: string, prevUserValue: string, answers: seq<string>)
    requires ConfigLoop(userValue, prevUserValue, Some(FleetSizeRejects), answers).Some?
    ensures var v := ConfigLoop(userValue, prevUserValue, Some(FleetSizeRejects), answers).value;
            IsDigitString(v) && DecimalValue(v) >= 1
  {
    ConfigLoopAccepts(userValue, prevUserValue, Some(FleetSizeRejects), answers);
  }
}
