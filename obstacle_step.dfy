/**
 * The obstacle step: six cards sharing the form's `obstacle`, a free-text box
 * shown for "other", and clicking the selected card clears the field to ''.
 */
module ObstacleStep {
  import opened JsValues
  import opened FormSchema
  import opened Booking
  import opened RadioCard

  /** The values of the cards on offer. */
  const ObstacleOptions: seq<string> := ["leads", "conversion", "awareness", "competition", "roi", "other"]

  const ObstacleStepNumber: int := 10

  /** The free-text box is shown exactly when "other" is the current obstacle. */
  function ShowOtherInput(current: string): (shown: bool)
    ensures shown <==> current == ObstacleOptions[|ObstacleOptions| - 1]
    ensures shown ==> current in ObstacleOptions && current != ""
  {
    current == "other"
  }

  /** The obstacle after clicking the card with value `value`. */
  function ClickCard(current: string, value: string): (next: string)
    ensures current == value ==> next == ""
    ensures current != value ==> next == value
  {
    match HandleClick(Some(current), value, true)
    case Unselect => ""
    case NativeSelect => value
  }

  /** Clicks on one card alternate between selecting and unselecting it. */
  lemma ClicksAlternate(current: string, value: string)
    ensures ClickCard(ClickCard(current, value), value) == if current == value then value else ""
    ensures ClickCard(ClickCard(ClickCard(current, value), value), value) == ClickCard(current, value)
  {
  }

  /** The offered values are distinct and each one passes the step's gate. */
  lemma OffersPassGate(d: FormData, fm: Formats, value: string)
    requires value in ObstacleOptions
    ensures Distinct(ObstacleOptions)
    ensures StepValid(ObstacleStepNumber, d.(obstacle := value), fm)
  {
    StepGate(ObstacleStepNumber, d.(obstacle := value), fm);
  }

  /** Unlike the business type, the obstacle is required: unselecting blocks the step's gate. */
  lemma UnselectBlocksGate(d: FormData, fm: Formats)
    ensures !StepValid(ObstacleStepNumber, d.(obstacle := ""), fm)
    ensures Issue(Obstacle, d.(obstacle := ""), fm) == Some(ObstacleMissing)
  {
    StepGate(ObstacleStepNumber, d.(obstacle := ""), fm);
  }

  /** Clicking "other" shows the free-text box unless it unselects "other". */
  lemma OtherCardShowsInput(current: string)
    ensures ShowOtherInput(ClickCard(current, "other")) <==> current != "other"
  {
  }

  /** `handleUnselect`: set `obstacle` to ''. */
  method HandleUnselect(form: BookingForm)
    modifies form`values
    ensures form.values == old(form.values).(obstacle := "")
  {
    form.SetObstacle("");
  }

  /**
   * A click on the card with value `value`: on the selected card the unselect
   * handler runs and the radio input is left alone; on any other card the
   * radio input's change event writes the value and, after a submit attempt,
   * re-validates the field.
   */
  method Click(form: BookingForm, value: string)
    modifies form`values, form`errors
    ensures form.values == old(form.values).(obstacle := ClickCard(old(form.values.obstacle), value))
    ensures IsSelected(Some(old(form.values).obstacle), value) || !form.isSubmitted ==> form.errors == old(form.errors)
    ensures !IsSelected(Some(old(form.values).obstacle), value) && form.isSubmitted ==>
      form.errors == Revalidate(old(form.errors), [Obstacle], form.values, form.formats)
  {
    var effect := HandleClick(Some(form.values.obstacle), value, true);
    match effect
    case Unselect => HandleUnselect(form);
    case NativeSelect => form.InputObstacle(value);
  }
}
