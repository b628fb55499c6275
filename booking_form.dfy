/**
 * The booking form's controller: the step cursor, the submission flag, the
 * form's values and the error messages on display, and the Back, Continue and
 * submit buttons that drive them.
 */
module Booking {
  import opened JsValues
  import opened FormSchema

  function Min(a: int, b: int): (m: int)
    ensures m <= a && m <= b && (m == a || m == b)
  {
    if a < b then a else b
  }

  function Max(a: int, b: int): (m: int)
    ensures m >= a && m >= b && (m == a || m == b)
  {
    if a < b then b else a
  }

  /** The step Continue leaves the form on: one further, only if the gate passes. */
  function NextStepOf(step: int, d: FormData, fm: Formats): (r: int)
    ensures step < TotalSteps ==> (r == step + 1 <==> StepValid(step, d, fm))
    ensures step < TotalSteps ==> (r == step <==> !StepValid(step, d, fm))
    ensures step == TotalSteps ==> r == TotalSteps
    ensures 1 <= step <= TotalSteps ==> 1 <= r <= TotalSteps
  {
    if StepValid(step, d, fm) then Min(step + 1, TotalSteps) else step
  }

  /** The step Back leaves the form on: one back, never below the first. */
  function PrevStepOf(step: int): (r: int)
    ensures r >= 1
    ensures step > 1 ==> r == step - 1
    ensures step <= 1 ==> r == 1
    ensures step <= TotalSteps ==> r <= TotalSteps
  {
    Max(step - 1, 1)
  }

  datatype Button = Hidden | Enabled | Disabled

  datatype ButtonBar = ButtonBar(back: Button, next: Button, submit: Button)

  /** Which of Back, Continue and submit are on offer, and whether they can be pressed. */
  function Buttons(step: int, isSubmitting: bool): (bar: ButtonBar)
    ensures bar.back != Hidden <==> step > 1
    ensures bar.next != Hidden <==> step < TotalSteps
    ensures bar.submit != Hidden <==> step >= TotalSteps
    ensures (bar.next == Hidden) != (bar.submit == Hidden)
    ensures isSubmitting ==> bar.back != Enabled && bar.next != Enabled && bar.submit != Enabled
    ensures !isSubmitting ==> bar.back != Disabled && bar.next != Disabled && bar.submit != Disabled
  {
    var shown := if isSubmitting then Disabled else Enabled;
    ButtonBar(
      if step > 1 then shown else Hidden,
      if step < TotalSteps then shown else Hidden,
      if step < TotalSteps then Hidden else shown)
  }

  /** What the user does between renders: press Continue, press Back, or edit values. */
  datatype Action = Next | Prev | Edit(values: FormData)

  /** The step and values after a sequence of actions. */
  function Replay(step: int, d: FormData, fm: Formats, actions: seq<Action>): (final: (int, FormData))
    decreases |actions|
  {
    if actions == [] then (step, d)
    else match actions[0]
      case Next => Replay(NextStepOf(step, d, fm), d, fm, actions[1..])
      case Prev => Replay(PrevStepOf(step), d, fm, actions[1..])
      case Edit(v) => Replay(step, v, fm, actions[1..])
  }

  /** Whatever the user does, the step stays between the first and the last. */
  lemma {:induction false} StepStaysInRange(step: int, d: FormData, fm: Formats, actions: seq<Action>)
    requires 1 <= step <= TotalSteps
    ensures 1 <= Replay(step, d, fm, actions).0 <= TotalSteps
    decreases |actions|
  {
    if actions != [] {
      match actions[0]
      case Next => StepStaysInRange(NextStepOf(step, d, fm), d, fm, actions[1..]);
      case Prev => StepStaysInRange(PrevStepOf(step), d, fm, actions[1..]);
      case Edit(v) => StepStaysInRange(step, v, fm, actions[1..]);
    }
  }

  predicate NavigationOnly(actions: seq<Action>) {
    forall i :: 0 <= i < |actions| ==> !actions[i].Edit?
  }

  /** Back and Continue never touch the values. */
  lemma {:induction false} NavigationKeepsValues(step: int, d: FormData, fm: Formats, actions: seq<Action>)
    requires NavigationOnly(actions)
    ensures Replay(step, d, fm, actions).1 == d
    decreases |actions|
  {
    if actions != [] {
      assert NavigationOnly(actions[1..]) by {
        forall i | 0 <= i < |actions[1..]| ensures !actions[1..][i].Edit? {
          assert actions[1..][i] == actions[i + 1];
        }
      }
      match actions[0]
      case Next => NavigationKeepsValues(NextStepOf(step, d, fm), d, fm, actions[1..]);
      case Prev => NavigationKeepsValues(PrevStepOf(step), d, fm, actions[1..]);
    }
  }

  /**
   * Without edits in between, the form stands on a step only once the gates of
   * every earlier step pass: Back never skips a gate on the way forward again.
   */
  lemma {:induction false} ReachedStepsPassedGates(step: int, d: FormData, fm: Formats, actions: seq<Action>)
    requires 1 <= step <= TotalSteps
    requires NavigationOnly(actions)
    requires forall j :: 1 <= j < step ==> StepValid(j, d, fm)
    ensures forall j :: 1 <= j < Replay(step, d, fm, actions).0 ==> StepValid(j, d, fm)
    decreases |actions|
  {
    if actions != [] {
      assert NavigationOnly(actions[1..]) by {
        forall i | 0 <= i < |actions[1..]| ensures !actions[1..][i].Edit? {
          assert actions[1..][i] == actions[i + 1];
        }
      }
      match actions[0]
      case Next => ReachedStepsPassedGates(NextStepOf(step, d, fm), d, fm, actions[1..]);
      case Prev => ReachedStepsPassedGates(PrevStepOf(step), d, fm, actions[1..]);
    }
  }

  /** Going Back from step 5 and Continuing again returns to step 5 with the same values. */
  lemma BackThenContinue(d: FormData, fm: Formats)
    requires StepValid(4, d, fm)
    ensures Replay(5, d, fm, [Prev, Next]) == (5, d)
  {
    assert [Prev, Next][1..] == [Next];
    assert [Next][1..] == [];
  }

  /**
   * What registering a radio group leaves in its field: an `undefined` field
   * is read from the inputs, and with none checked that reads `null`; a
   * defined value is kept (and checks its radio).
   */
  function RegisteredChoice(c: Choice): (r: Choice)
    ensures r != Unset
    ensures c == Unset ==> r == Unchecked
    ensures c != Unset ==> r == c
  {
    if c == Unset then Unchecked else c
  }

  /** Whether the browser reports a response status as `ok`. */
  function ResponseOk(status: int): (ok: bool)
    ensures status == 200 ==> ok
    ensures status == 403 || status == 500 ==> !ok
    ensures ok ==> 200 <= status < 300
  {
    200 <= status <= 299
  }

  class BookingForm {
    var step: int
    var isSubmitting: bool
    var values: FormData
    var errors: map<Field, Message>
    /** Whether a submit was attempted; from then on a changed input re-validates its field. */
    var isSubmitted: bool
    const formats: Formats

    ghost predicate Valid()
      reads this
    {
      1 <= step <= TotalSteps
    }

    /** The form as mounted: first step, nothing in flight, default values, no errors. */
    constructor (formats: Formats)
      ensures Valid()
      ensures step == 1 && !isSubmitting && values == DefaultValues && errors == map[]
      ensures !isSubmitted
      ensures this.formats == formats
    {
      step := 1;
      isSubmitting := false;
      isSubmitted := false;
      values := DefaultValues;
      errors := map[];
      this.formats := formats;
    }

    /**
     * Continue: validate the current step's fields, refresh their messages,
     * and move one step forward only if all of them pass.
     */
    method NextStep() returns (isValid: bool)
      requires Valid()
      modifies this`step, this`errors
      ensures Valid()
      ensures isValid <==> StepValid(old(step), values, formats)
      ensures step == NextStepOf(old(step), values, formats)
      ensures errors == Revalidate(old(errors), FieldsForStep(old(step)), values, formats)
    {
      var currentFields := FieldsForStep(step);
      errors := Revalidate(errors, currentFields, values, formats);
      isValid := StepValid(step, values, formats);
      if isValid {
        step := Min(step + 1, TotalSteps);
      }
    }

    /** Back: one step back, never below the first, with no validation. */
    method PrevStep()
      requires Valid()
      modifies this`step
      ensures Valid()
      ensures step == PrevStepOf(old(step))
    {
      step := Max(step - 1, 1);
    }

    /**
     * Submit: validate the whole schema. If it fails, show every message and
     * send nothing; otherwise clear the messages, raise the submission flag and
     * hand the values over to be sent. Either way the form now counts as
     * submitted.
     */
    method Submit() returns (sent: Option<FormData>)
      requires Valid()
      modifies this`isSubmitting, this`errors, this`isSubmitted
      ensures isSubmitted
      ensures sent.Some? <==> SchemaValid(values, formats)
      ensures sent.Some? ==> sent.value == values && isSubmitting && errors == map[]
      ensures sent.None? ==> isSubmitting == old(isSubmitting) && errors == SchemaErrors(values, formats)
    {
      isSubmitted := true;
      var found := SchemaErrors(values, formats);
      if found == map[] {
        assert SchemaValid(values, formats) by {
          forall f ensures FieldValid(f, values, formats) {
            assert f !in found;
          }
        }
        errors := map[];
        isSubmitting := true;
        sent := Some(values);
      } else {
        var f :| f in found;
        assert !FieldValid(f, values, formats);
        errors := found;
        sent := None;
      }
    }

    /**
     * The submission settled: the flag drops whether the response was ok or
     * not (or the request failed outright), and only an ok response leads on
     * to the confirmation page.
     */
    method SubmitSettled(responseStatus: Option<int>) returns (redirected: bool)
      requires Valid()
      modifies this`isSubmitting
      ensures !isSubmitting
      ensures redirected <==> responseStatus.Some? && ResponseOk(responseStatus.value)
    {
      redirected := responseStatus.Some? && ResponseOk(responseStatus.value);
      isSubmitting := false;
    }

    /** `setValue('businessType', v)`, without validation. */
    method SetBusinessType(v: Choice)
      modifies this`values
      ensures values == old(values).(businessType := v)
    {
      values := values.(businessType := v);
    }

    /** The business-type cards mount and register their radio inputs. */
    method RegisterBusinessTypeRadios()
      modifies this`values
      ensures values == old(values).(businessType := RegisteredChoice(old(values).businessType))
    {
      values := values.(businessType := RegisteredChoice(values.businessType));
    }

    /** `setValue('obstacle', v)`, without validation. */
    method SetObstacle(v: string)
      modifies this`values
      ensures values == old(values).(obstacle := v)
    {
      values := values.(obstacle := v);
    }

    /**
     * A change event from the business type's registered radio input: the
     * value is written, and once a submit was attempted the field is
     * re-validated.
     */
    method InputBusinessType(v: string)
      modifies this`values, this`errors
      ensures values == old(values).(businessType := Chosen(v))
      ensures isSubmitted ==> errors == Revalidate(old(errors), [BusinessType], values, formats)
      ensures !isSubmitted ==> errors == old(errors)
    {
      values := values.(businessType := Chosen(v));
      if isSubmitted {
        errors := Revalidate(errors, [BusinessType], values, formats);
      }
    }

    /** A change event from the obstacle's registered radio input. */
    method InputObstacle(v: string)
      modifies this`values, this`errors
      ensures values == old(values).(obstacle := v)
      ensures isSubmitted ==> errors == Revalidate(old(errors), [Obstacle], values, formats)
      ensures !isSubmitted ==> errors == old(errors)
    {
      values := values.(obstacle := v);
      if isSubmitted {
        errors := Revalidate(errors, [Obstacle], values, formats);
      }
    }

    /** `setValue('startTime', v, { shouldValidate: true })`. */
    method SetStartTime(v: string)
      modifies this`values, this`errors
      ensures values == old(values).(startTime := v)
      ensures errors == Revalidate(old(errors), [StartTime], values, formats)
    {
      values := values.(startTime := v);
      errors := Revalidate(errors, [StartTime], values, formats);
    }
  }
}
