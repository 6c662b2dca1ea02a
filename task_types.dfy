/** The one domain entity: a task as the server returns it. */
module TaskTypes {
  import opened Text

  /** A server-assigned identifier: a JSON number or string; `===` tells `1` and `"1"` apart. */
  datatype Id = NumId(n: int) | StrId(s: string)

  datatype Task = Task(id: Id, title: string, completed: bool)

  /** `String(id)`: decimal digits, with a minus sign when negative, or the string itself. */
  function IdText(id: Id): (r: string)
    ensures id.StrId? ==> r == id.s
    ensures id.NumId? && id.n >= 0 ==> IsDigits(r) && r != [] && DigitsValue(r) == id.n
    ensures id.NumId? && id.n >= 0 ==> (r[0] == '0' ==> id.n == 0 && r == "0")
    ensures id.NumId? && id.n < 0 ==> |r| > 1 && r[0] == '-' && IsDigits(r[1..]) && DigitsValue(r[1..]) == -id.n
    ensures id.NumId? && id.n < 0 ==> r[1] != '0'
  {
    match id
    case NumId(n) =>
      if n < 0 then
        NatToStringRoundTrip(-n);
        assert ("-" + NatToString(-n))[1..] == NatToString(-n);
        "-" + NatToString(-n)
      else
        NatToStringRoundTrip(n);
        NatToString(n)
    case StrId(s) => s
  }

  /** Two numeric ids render alike only when they are equal. */
  lemma NumIdTextInjective(a: int, b: int)
    requires IdText(NumId(a)) == IdText(NumId(b))
    ensures a == b
  {
  }
}
