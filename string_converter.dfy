/** `UtilitiesLib.StringConverter`: integer conversion that throws `FormatException` on bad input. */
module StringConverter {
  import opened Wrappers
  import opened Text

  /** `ConvertToInteger(stringNumber)`: the parsed value, or a `FormatException` naming the text. */
  function ConvertToInteger(stringNumber: string): (r: Result<int>)
    ensures r.Ok? <==> ParseInt32(stringNumber).Some?
    ensures r.Ok? ==> r.value == ParseInt32(stringNumber).value && IsInt32(r.value)
    ensures r.Err? ==> r.error == FormatException("'" + stringNumber + "' is not a valid integer.")
  {
    match ParseInt32(stringNumber)
    case None => Err(FormatException("'" + stringNumber + "' is not a valid integer."))
    case Some(result) => Ok(result)
  }

  /**
   * `ConvertToInteger(stringNumber, lowLimit, highLimit)`: as above, and the value must lie
   * in the inclusive range; a parse failure is reported before the range check.
   */
  function ConvertToIntegerInRange(stringNumber: string, lowLimit: int, highLimit: int): (r: Result<int>)
    ensures r.Ok? ==> lowLimit <= r.value <= highLimit
    ensures r.Ok? <==> ConvertToInteger(stringNumber).Ok? && lowLimit <= ConvertToInteger(stringNumber).value <= highLimit
    ensures r.Ok? ==> r.value == ConvertToInteger(stringNumber).value
    ensures ConvertToInteger(stringNumber).Err? ==> r == ConvertToInteger(stringNumber)
    ensures ConvertToInteger(stringNumber).Ok? && r.Err? ==>
      r.error == FormatException("'" + stringNumber + "' is not in range " + IntToString(lowLimit) + " - " + IntToString(highLimit) + ".")
  {
    match ConvertToInteger(stringNumber)
    case Err(e) => Err(e)
    case Ok(result) =>
      if !(result >= lowLimit && result <= highLimit) then
        Err(FormatException("'" + stringNumber + "' is not in range " + IntToString(lowLimit) + " - " + IntToString(highLimit) + "."))
      else
        Ok(result)
  }

  /** Whatever an `int` renders as converts back to it, inside any range that holds it. */
  lemma ConvertRenderedInteger(n: int, lowLimit: int, highLimit: int)
    requires IsInt32(n)
    ensures ConvertToInteger(IntToString(n)) == Ok(n)
    ensures ConvertToIntegerInRange(IntToString(n), lowLimit, highLimit).Ok? <==> lowLimit <= n <= highLimit
  {
    ParseIntToString(n);
  }

  /** The unit tests of the plain conversion: a valid integer, letters, and a decimal number. */
  lemma ConvertToIntegerExamples()
    ensures ConvertToInteger("123") == Ok(123)
    ensures ConvertToInteger("abc").Err? && ConvertToInteger("10,2").Err?
  {
    ConvertRenderedInteger(123, 0, 0);
    assert NatToString(123) == "123";
    assert !IsDigit("abc"[0]);
    assert !IsDigit("10,2"[2]);
  }

  /** The unit tests of the range conversion: inside, at both limits, and just above. */
  lemma ConvertInRangeExamples()
    ensures ConvertToIntegerInRange("50", 0, 100) == Ok(50)
    ensures ConvertToIntegerInRange("0", 0, 100) == Ok(0)
    ensures ConvertToIntegerInRange("100", 0, 100) == Ok(100)
    ensures ConvertToIntegerInRange("101", 0, 100).Err?
  {
    ConvertRenderedInteger(50, 0, 100);
    ConvertRenderedInteger(0, 0, 100);
    ConvertRenderedInteger(100, 0, 100);
    ConvertRenderedInteger(101, 0, 100);
    assert NatToString(50) == "50";
    assert NatToString(0) == "0";
    assert NatToString(100) == "100";
    assert NatToString(101) == "101";
  }
}
