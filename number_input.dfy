/** The `NumberInputField` of the custom-plant form: a text field that only
    takes a new value when it is empty or an integer within the field's range. */
module NumberInput {
  import opened Strings

  /** `newValue.toIntOrNull() ?: 0`. */
  function ValueOrZero(newValue: string): int
  {
    ParseInt(newValue).GetOr(0)
  }

  /** The field's filter on a new text: empty or an integer, whose value
      (0 for the empty text) lies in `[minValue, maxValue]`. A field with an
      empty range accepts nothing, and an accepted text other than the empty
      one is an optional sign followed by digits only. */
  predicate Accepts(newValue: string, minValue: int, maxValue: int)
    ensures Accepts(newValue, minValue, maxValue) ==> minValue <= maxValue
    ensures Accepts(newValue, minValue, maxValue) && |newValue| > 0 ==>
      |newValue| > SignLength(newValue) && AllDigits(newValue[SignLength(newValue)..])
  {
    (|newValue| == 0 || ParseInt(newValue).Some?) &&
    minValue <= ValueOrZero(newValue) <= maxValue
  }

  /** The text the field holds after the user edits it to `newValue`. */
  function Update(value: string, newValue: string, minValue: int, maxValue: int): (r: string)
    ensures Accepts(newValue, minValue, maxValue) ==> r == newValue
    ensures !Accepts(newValue, minValue, maxValue) ==> r == value
  {
    if Accepts(newValue, minValue, maxValue) then newValue else value
  }

  /** What an accepted text means: either nothing typed yet, with 0 in range,
      or an integer in range. */
  lemma AcceptsIff(newValue: string, minValue: int, maxValue: int)
    ensures Accepts(newValue, minValue, maxValue) <==>
      (|newValue| == 0 && minValue <= 0 <= maxValue) ||
      (ParseInt(newValue).Some? && minValue <= ParseInt(newValue).value <= maxValue)
  {
    if |newValue| == 0 {
      assert ParseInt(newValue) == None;
    }
  }

  /** Every integer in range is accepted in its own decimal form, so the filter
      never refuses a value the field is meant to hold. */
  lemma AcceptsEveryInRange(n: int, minValue: int, maxValue: int)
    requires minValue <= n <= maxValue && IntMin <= n <= IntMax
    ensures Accepts(IntToDecimal(n), minValue, maxValue)
  {
    ParseIntOfDecimal(n);
  }

  /** A field whose text is empty or an in-range integer keeps that property
      through any edit. */
  predicate Holds(value: string, minValue: int, maxValue: int)
  {
    |value| == 0 || (ParseInt(value).Some? && minValue <= ParseInt(value).value <= maxValue)
  }

  lemma UpdateKeepsHolds(value: string, newValue: string, minValue: int, maxValue: int)
    requires Holds(value, minValue, maxValue)
    ensures Holds(Update(value, newValue, minValue, maxValue), minValue, maxValue)
  {
    AcceptsIff(newValue, minValue, maxValue);
  }

  /** The empty text is accepted exactly when 0 is in range. */
  lemma EmptyAcceptedIff(minValue: int, maxValue: int)
    ensures Accepts("", minValue, maxValue) <==> minValue <= 0 <= maxValue
  {
    assert ParseInt("") == None;
  }

  /** The growth-duration field (1 to 365 days) can never be cleared. */
  lemma GrowthDurationCannotBeCleared(value: string)
    ensures Update(value, "", 1, 365) == value
  {
    EmptyAcceptedIff(1, 365);
  }

  /** Text with a decimal point, such as the dialog's default "1.8", is never
      accepted by the water-amount field (0 to 10). */
  lemma DecimalRejected(whole: string, fraction: string)
    ensures !Accepts(whole + "." + fraction, 0, 10)
  {
    var s := whole + "." + fraction;
    ParseRejects(s, |whole|);
    assert s != "";
  }
}
