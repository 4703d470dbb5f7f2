/**
 * Identifiers of the session mock (test/mock_opencode_server.ts, `generateId`):
 * `${prefix}-${Date.now()}-${++sessionCounter}`. The counter is the only
 * source of uniqueness; this module shows that it suffices, by reading the
 * counter value back out of the id.
 */
module OpencodeIds {
  import opened Wrappers
  import opened Text

  predicate IsDigit(c: char) { '0' <= c <= '9' }

  predicate IsDecimal(s: string) {
    |s| >= 1 && forall i :: 0 <= i < |s| ==> IsDigit(s[i])
  }

  function DigitChar(d: nat): (c: char)
    requires d < 10
    ensures IsDigit(c)
  {
    ('0' as int + d) as char
  }

  function DigitValue(c: char): nat
    requires IsDigit(c)
  {
    c as int - '0' as int
  }

  /** A number's template-literal form: its decimal digits, most significant first. */
  function Decimal(n: nat): (s: string)
    ensures IsDecimal(s)
    decreases n
  {
    if n < 10 then [DigitChar(n)] else Decimal(n / 10) + [DigitChar(n % 10)]
  }

  /** The value of a string of decimal digits. */
  function ParseDecimal(s: string): nat
    requires IsDecimal(s)
    decreases |s|
  {
    if |s| == 1 then DigitValue(s[0])
    else
      var front := s[..|s| - 1];
      assert forall i :: 0 <= i < |front| ==> front[i] == s[i];
      10 * ParseDecimal(front) + DigitValue(s[|s| - 1])
  }

  lemma {:induction false} ParseDecimalInverse(n: nat)
    ensures ParseDecimal(Decimal(n)) == n
    decreases n
  {
    if n >= 10 {
      ParseDecimalInverse(n / 10);
      var s := Decimal(n);
      assert s[..|s| - 1] == Decimal(n / 10);
    }
  }

  /** `generateId(prefix)` with the clock reading `now` and the incremented counter `n`. */
  function IdString(prefix: string, now: nat, n: nat): string {
    prefix + "-" + Decimal(now) + "-" + Decimal(n)
  }

  /** The counter value an id ends with: its last `-`-separated piece, read as a number. */
  function IdCounter(id: string): Option<nat> {
    var pieces := Split(id, '-');
    var last := pieces[|pieces| - 1];
    if IsDecimal(last) then Some(ParseDecimal(last)) else None
  }

  /** Every generated id ends with the counter value it was made from, whatever the prefix and clock. */
  lemma IdCounterOfIdString(prefix: string, now: nat, n: nat)
    ensures IdCounter(IdString(prefix, now, n)) == Some(n)
  {
    var d := Decimal(n);
    assert '-' !in d;
    var front := prefix + "-" + Decimal(now);
    assert IdString(prefix, now, n) == front + ['-'] + d;
    SplitAround(front, d, '-');
    SplitWithoutSeparator(d, '-');
    ParseDecimalInverse(n);
  }

  /** Ids made from different counter values differ, for sessions and messages alike. */
  lemma IdsDistinct(prefix1: string, now1: nat, n1: nat, prefix2: string, now2: nat, n2: nat)
    requires n1 != n2
    ensures IdString(prefix1, now1, n1) != IdString(prefix2, now2, n2)
  {
    IdCounterOfIdString(prefix1, now1, n1);
    IdCounterOfIdString(prefix2, now2, n2);
  }
}
