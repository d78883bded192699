/** The idempotency key `schedule:<id>:<next_run_at>` of one schedule occurrence (scheduler/index.js). */
module OccurrenceKeys {

  const PREFIX := "schedule:"

  function Digits(n: nat): (s: string)
    ensures s != "" && forall k :: 0 <= k < |s| ==> '0' <= s[k] <= '9'
  {
    var last := [('0' as int + n % 10) as char];
    if n < 10 then last else Digits(n / 10) + last
  }

  function Number(s: string): nat
    requires forall k :: 0 <= k < |s| ==> '0' <= s[k] <= '9'
  {
    if s == "" then 0 else 10 * Number(s[..|s| - 1]) + (s[|s| - 1] as int - '0' as int)
  }

  lemma {:induction false} DigitsReadBack(n: nat)
    ensures Number(Digits(n)) == n
  {
    var s := Digits(n);
    if n >= 10 {
      DigitsReadBack(n / 10);
      assert s[..|s| - 1] == Digits(n / 10);
    }
  }

  /** How JavaScript prints an integer inside a template string. */
  function Printed(n: int): string
  {
    if n < 0 then "-" + Digits(-n) else Digits(n)
  }

  lemma PrintedIsInjective(m: int, n: int)
    requires Printed(m) == Printed(n)
    ensures m == n
  {
    DigitsReadBack(if m < 0 then -m else m);
    DigitsReadBack(if n < 0 then -n else n);
    var a, b := Digits(if m < 0 then -m else m), Digits(if n < 0 then -n else n);
    assert Printed(m)[0] == '-' <==> m < 0;
    assert Printed(n)[0] == '-' <==> n < 0;
    if m < 0 {
      assert a == Printed(m)[1..] && b == Printed(n)[1..];
    }
  }

  function OccurrenceKey(id: string, at: int): string
  {
    PREFIX + id + ":" + Printed(at)
  }

  /** The printed key determines schedule and occurrence, whatever characters the id holds. */
  lemma KeyIsInjective(id1: string, at1: int, id2: string, at2: int)
    requires OccurrenceKey(id1, at1) == OccurrenceKey(id2, at2)
    ensures id1 == id2 && at1 == at2
  {
    var key, p1, p2 := OccurrenceKey(id1, at1), Printed(at1), Printed(at2);
    ColonPosition(id1, at1, id2, at2);
    ColonPosition(id2, at2, id1, at1);
    var cut := |key| - |p1|;
    assert key[cut..] == p1 && key[cut..] == p2;
    PrintedIsInjective(at1, at2);
    assert key[|PREFIX|..cut - 1] == id1 && key[|PREFIX|..cut - 1] == id2;
  }

  lemma ColonPosition(id1: string, at1: int, id2: string, at2: int)
    requires OccurrenceKey(id1, at1) == OccurrenceKey(id2, at2)
    ensures |Printed(at1)| >= |Printed(at2)|
  {
    var key, p1, p2 := OccurrenceKey(id1, at1), Printed(at1), Printed(at2);
    assert forall k :: 0 <= k < |p2| ==> key[|key| - |p2| + k] == p2[k] && p2[k] != ':';
    assert forall k :: |key| - |p2| <= k < |key| ==> key[k] == p2[k - (|key| - |p2|)];
    assert key[|key| - |p1| - 1] == ':';
  }

  /** Keys of jobs the scheduler did not make must differ from every key it makes. */
  predicate IsOccurrenceLike(key: string) { PREFIX <= key }

  lemma OccurrenceKeysCarryThePrefix(id: string, at: int)
    ensures IsOccurrenceLike(OccurrenceKey(id, at))
  {
  }

  /** The key spelled out: `schedule:`, the id, a colon, and the decimal of the time without leading zeros. */
  lemma KeyIsSpelledOut(id: string, at: int)
    ensures exists digits: string :: digits != "" && (forall k :: 0 <= k < |digits| ==> '0' <= digits[k] <= '9')
              && (digits[0] == '0' ==> digits == "0") && Number(digits) == (if at < 0 then -at else at)
              && OccurrenceKey(id, at) == "schedule:" + id + ":" + (if at < 0 then "-" else "") + digits
  {
    var n := if at < 0 then -at else at;
    DigitsReadBack(n);
    NoLeadingZero(n);
    assert OccurrenceKey(id, at) == "schedule:" + id + ":" + (if at < 0 then "-" else "") + Digits(n);
  }

  lemma {:induction false} NoLeadingZero(n: nat)
    ensures Digits(n)[0] == '0' ==> n == 0 && Digits(n) == "0"
  {
    if n >= 10 {
      NoLeadingZero(n / 10);
    }
  }
}
