/**
 Values shared by the device session and its entities: the datapoint
 values a Tuya device reports, the status cache type, and Python's
 `str()` of a non-negative datapoint index.
 */
module Values {

  datatype Option<+T> = None | Some(value: T)

  /** An untyped scalar reported for one datapoint. */
  datatype Value = BoolValue(b: bool) | IntValue(i: int) | TextValue(s: string)

  /** Datapoint indices are the small non-negative integers of the device configuration. */
  type DpId = nat

  /** The status cache and every published snapshot: datapoint key (a decimal string) to value. */
  type Status = map<string, Value>

  function Digit(d: nat): (c: char)
    requires d < 10
    ensures '0' <= c <= '9'
    ensures c as int - '0' as int == d
  {
    ('0' as int + d) as char
  }

  /** `str(n)` for a non-negative integer `n`: its decimal digits, most significant first. */
  function DecimalString(n: nat): (s: string)
    ensures |s| >= 1
    ensures |s| == 1 <==> n < 10
    ensures forall i :: 0 <= i < |s| ==> '0' <= s[i] <= '9'
    decreases n
  {
    if n < 10 then [Digit(n)] else DecimalString(n / 10) + [Digit(n % 10)]
  }

  /** Distinct datapoint indices have distinct keys in the status cache. */
  lemma {:induction false} DecimalStringInjective(a: nat, b: nat)
    requires DecimalString(a) == DecimalString(b)
    ensures a == b
    decreases a
  {
    var s := DecimalString(a);
    if a >= 10 && b >= 10 {
      var pa, pb := DecimalString(a / 10), DecimalString(b / 10);
      assert s == pa + [Digit(a % 10)];
      assert s == pb + [Digit(b % 10)];
      assert s[|s| - 1] == Digit(a % 10) == Digit(b % 10);
      assert pa == s[..|s| - 1] == pb;
      DecimalStringInjective(a / 10, b / 10);
    } else if a < 10 && b < 10 {
      assert s[0] == Digit(a) == Digit(b);
    }
  }
}
