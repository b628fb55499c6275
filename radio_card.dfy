/**
 * The selectable card used by the single-choice steps: a card is selected when
 * the group's current value is its own, and clicking a selected card whose
 * group supports it unselects instead of selecting again.
 */
module RadioCard {
  import opened JsValues

  /** `currentValue === value`; an unset current value selects no card. */
  function IsSelected(currentValue: Option<string>, value: string): (selected: bool)
    ensures currentValue.None? ==> !selected
    ensures selected ==> currentValue.value == value
    ensures currentValue.Some? && currentValue.value == value ==> selected
  {
    currentValue == Some(value)
  }

  /** What a click does: call the group's unselect handler, or let the radio input select the card. */
  datatype ClickEffect = Unselect | NativeSelect

  function HandleClick(currentValue: Option<string>, value: string, hasOnUnselect: bool): (effect: ClickEffect)
    ensures effect == Unselect <==> IsSelected(currentValue, value) && hasOnUnselect
    ensures !hasOnUnselect ==> effect == NativeSelect
  {
    if IsSelected(currentValue, value) && hasOnUnselect then Unselect else NativeSelect
  }

  /** The cards of a group, by value, that show as selected. */
  function SelectedCards(currentValue: Option<string>, values: seq<string>): (selected: seq<string>)
    ensures forall v :: v in selected <==> v in values && IsSelected(currentValue, v)
    ensures |selected| <= |values|
  {
    if values == [] then []
    else
      var rest := SelectedCards(currentValue, values[1..]);
      assert forall v :: v in values <==> v == values[0] || v in values[1..];
      if IsSelected(currentValue, values[0]) then [values[0]] + rest else rest
  }

  predicate Distinct(values: seq<string>) {
    forall i, j :: 0 <= i < j < |values| ==> values[i] != values[j]
  }

  /** Every card of a group gets the same current value, so at most one of distinct cards is selected. */
  lemma {:induction false} AtMostOneSelected(currentValue: Option<string>, values: seq<string>)
    requires Distinct(values)
    ensures |SelectedCards(currentValue, values)| <= 1
    ensures currentValue.Some? && currentValue.value in values ==> SelectedCards(currentValue, values) == [currentValue.value]
    ensures !(currentValue.Some? && currentValue.value in values) ==> SelectedCards(currentValue, values) == []
    decreases |values|
  {
    if values != [] {
      var tail := values[1..];
      assert Distinct(tail) by {
        forall i, j | 0 <= i < j < |tail| ensures tail[i] != tail[j] {
          assert tail[i] == values[i + 1] && tail[j] == values[j + 1];
        }
      }
      AtMostOneSelected(currentValue, tail);
      if IsSelected(currentValue, values[0]) {
        assert values[0] !in tail by {
          forall k | 0 <= k < |tail| ensures tail[k] != values[0] {
            assert tail[k] == values[k + 1];
          }
        }
      } else if currentValue.Some? && currentValue.value in values {
        assert currentValue.value in tail;
      }
    }
  }
}
