/**
 * The business-type step: two cards sharing the form's `businessType`, where
 * clicking the selected card clears the field to `undefined`.
 */
module BusinessTypeStep {
  import opened JsValues
  import opened FormSchema
  import opened Booking
  import opened RadioCard

  /** The values of the cards on offer. */
  const BusinessTypeOptions: seq<string> := ["product", "service"]

  const BusinessTypeStepNumber: int := 3

  /** The cards offer part of what the schema accepts: "other" is valid but never offered. */
  lemma OffersWithinSchema()
    ensures Distinct(BusinessTypeOptions)
    ensures forall v :: v in BusinessTypeOptions ==> v in BusinessTypeEnum
    ensures "other" in BusinessTypeEnum && "other" !in BusinessTypeOptions
  {
  }

  /** `watch('businessType')` as a card compares it: only a string can equal a card's value. */
  function CurrentValue(c: Choice): (v: Option<string>)
    ensures v.Some? <==> c.Chosen?
    ensures c.Chosen? ==> v.value == c.value
  {
    if c.Chosen? then Some(c.value) else None
  }

  /** The business type after clicking the card with value `value`. */
  function ClickCard(current: Choice, value: string): (next: Choice)
    ensures current == Chosen(value) ==> next == Unset
    ensures current != Chosen(value) ==> next == Chosen(value)
  {
    match HandleClick(CurrentValue(current), value, true)
    case Unselect => Unset
    case NativeSelect => Chosen(value)
  }

  /** Clicks on one card alternate between selecting and unselecting it. */
  lemma ClicksAlternate(current: Choice, value: string)
    ensures ClickCard(ClickCard(current, value), value) == if current == Chosen(value) then Chosen(value) else Unset
    ensures ClickCard(ClickCard(ClickCard(current, value), value), value) == ClickCard(current, value)
  {
  }

  /**
   * The business type is optional: leaving it unset keeps the step's gate
   * passing, as long as the cards are not mounted again.
   */
  lemma UnselectKeepsGate(d: FormData, fm: Formats)
    ensures StepValid(BusinessTypeStepNumber, d.(businessType := Unset), fm)
  {
    StepGate(BusinessTypeStepNumber, d.(businessType := Unset), fm);
  }

  /**
   * Mounting the cards over an unset business type reads `null`, so Continue
   * then stays on the step with the library's type message: on first arrival,
   * and on returning after an unselect.
   */
  lemma MountWithoutChoiceBlocks(d: FormData, fm: Formats)
    requires d.businessType == Unset
    ensures var mounted := d.(businessType := RegisteredChoice(d.businessType));
      Issue(BusinessType, mounted, fm) == Some(ReceivedNull)
      && NextStepOf(BusinessTypeStepNumber, mounted, fm) == BusinessTypeStepNumber
  {
    UncheckedBlocksStep3(d.(businessType := RegisteredChoice(d.businessType)), fm);
  }

  /** Mounting the cards over a chosen business type keeps it, so the gate is unaffected. */
  lemma MountKeepsChoice(d: FormData, fm: Formats)
    requires d.businessType.Chosen?
    ensures d.(businessType := RegisteredChoice(d.businessType)) == d
  {
  }

  /**
   * Whatever the user clicks, starting from an offered value, no value or
   * the unchecked group, the gate passes.
   */
  lemma ClicksKeepGate(d: FormData, fm: Formats, value: string)
    requires value in BusinessTypeOptions
    requires !d.businessType.Chosen? || d.businessType.value in BusinessTypeOptions
    ensures StepValid(BusinessTypeStepNumber, d.(businessType := ClickCard(d.businessType, value)), fm)
  {
    var next := ClickCard(d.businessType, value);
    StepGate(BusinessTypeStepNumber, d.(businessType := next), fm);
    OffersWithinSchema();
  }

  /** `handleUnselect`: set `businessType` to `undefined`. */
  method HandleUnselect(form: BookingForm)
    modifies form`values
    ensures form.values == old(form.values).(businessType := Unset)
  {
    form.SetBusinessType(Unset);
  }

  /** The step renders: its cards register their radio inputs. */
  method Mount(form: BookingForm)
    modifies form`values
    ensures form.values == old(form.values).(businessType := RegisteredChoice(old(form.values).businessType))
  {
    form.RegisterBusinessTypeRadios();
  }

  /**
   * A click on the card with value `value`: on the selected card the unselect
   * handler runs and the radio input is left alone; on any other card the
   * radio input's change event writes the value and, after a submit attempt,
   * re-validates the field.
   */
  method Click(form: BookingForm, value: string)
    modifies form`values, form`errors
    ensures form.values == old(form.values).(businessType := ClickCard(old(form.values.businessType), value))
    ensures IsSelected(CurrentValue(old(form.values).businessType), value) || !form.isSubmitted ==>
      form.errors == old(form.errors)
    ensures !IsSelected(CurrentValue(old(form.values).businessType), value) && form.isSubmitted ==>
      form.errors == Revalidate(old(form.errors), [BusinessType], form.values, form.formats)
  {
    var effect := HandleClick(CurrentValue(form.values.businessType), value, true);
    match effect
    case Unselect => HandleUnselect(form);
    case NativeSelect => form.InputBusinessType(value);
  }
}
