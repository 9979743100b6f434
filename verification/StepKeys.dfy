/** The names under which a donor's latents are stored: one key for every saved step. */
module StepKeys {
  const MARK := "_step"

  function Digit(n: nat): (c: char)
    requires n < 10
    ensures '0' <= c <= '9' && c as int - '0' as int == n
  {
    ('0' as int + n) as char
  }

  predicate AllDigits(s: string) {
    forall i :: 0 <= i < |s| ==> '0' <= s[i] <= '9'
  }

  function Digits(n: nat): (s: string)
    ensures s != [] && AllDigits(s)
  {
    if n < 10 then [Digit(n)] else Digits(n / 10) + [Digit(n % 10)]
  }

  /** `f"{n}"` for an integer. */
  function Decimal(n: int): string {
    if n < 0 then "-" + Digits(0 - n) else Digits(n)
  }

  function NatOf(s: string): nat
    requires AllDigits(s)
  {
    if s == [] then 0 else 10 * NatOf(s[..|s| - 1]) + (s[|s| - 1] as int - '0' as int)
  }

  predicate Numeral(s: string) {
    if |s| > 0 && s[0] == '-' then |s| > 1 && AllDigits(s[1..]) else s != [] && AllDigits(s)
  }

  /** `int(s)` for a plain decimal numeral. */
  function IntOf(s: string): int
    requires Numeral(s)
  {
    if s[0] == '-' then 0 - NatOf(s[1..]) else NatOf(s)
  }

  lemma {:induction false} NatRoundTrip(n: nat)
    ensures NatOf(Digits(n)) == n
  {
    if n >= 10 {
      NatRoundTrip(n / 10);
      assert Digits(n)[..|Digits(n)| - 1] == Digits(n / 10);
    } else {
      assert [Digit(n)][..0] == [];
    }
  }

  lemma {:induction false} IntRoundTrip(n: int)
    ensures Numeral(Decimal(n)) && IntOf(Decimal(n)) == n
  {
    var d := Digits(if n < 0 then 0 - n else n);
    NatRoundTrip(if n < 0 then 0 - n else n);
    if n < 0 {
      assert Decimal(n) == "-" + d && ("-" + d)[0] == '-' && ("-" + d)[1..] == d;
    } else {
      assert Decimal(n) == d && d[0] != '-';
    }
  }

  function StepKey(id: string, step: int): string {
    id + MARK + Decimal(step)
  }

  predicate MarkAt(s: string, i: nat) {
    i + |MARK| <= |s| && s[i..i + |MARK|] == MARK
  }

  /** Where the last occurrence of the mark at or before `i` starts; `-1` when there is none. */
  function LastMark(s: string, i: nat): (at: int)
    ensures at == -1 || (0 <= at <= i && MarkAt(s, at))
    ensures forall j: nat :: at < j <= i ==> !MarkAt(s, j)
  {
    if MarkAt(s, i) then i else if i == 0 then -1 else LastMark(s, i - 1)
  }

  /** `s.rsplit("_step", 1)[-1]`. */
  function AfterMark(s: string): string {
    var at := LastMark(s, |s|);
    if at < 0 then s else s[at + |MARK|..]
  }

  lemma {:induction false} NoMarkInDecimal(step: int)
    ensures '_' !in Decimal(step)
  {
    var d := Digits(if step < 0 then 0 - step else step);
    assert forall i :: 0 <= i < |d| ==> d[i] != '_';
    assert Decimal(step) == if step < 0 then "-" + d else d;
  }

  lemma {:induction false} AfterLastMark(id: string, d: string)
    requires '_' !in d
    ensures AfterMark(id + MARK + d) == d
  {
    var s := id + MARK + d;
    assert MarkAt(s, |id|) by { assert s[|id|..|id| + |MARK|] == MARK; }
    forall j: nat | |id| < j && j + |MARK| <= |s| ensures !MarkAt(s, j) {
      assert s[j..j + |MARK|][0] == s[j] == if j < |id| + |MARK| then MARK[j - |id|] else d[j - |id| - |MARK|];
    }
    assert LastMark(s, |s|) == |id|;
    assert s[|id| + |MARK|..] == d;
  }

  /** Splitting a key at its last mark gives the step back, whatever the id contains. */
  lemma {:induction false} StepRoundTrip(id: string, step: int)
    ensures Numeral(AfterMark(StepKey(id, step))) && IntOf(AfterMark(StepKey(id, step))) == step
    ensures AfterMark(StepKey(id, step)) == Decimal(step)
  {
    NoMarkInDecimal(step);
    AfterLastMark(id, Decimal(step));
    IntRoundTrip(step);
  }

  /** No two (id, step) pairs share a key. */
  lemma {:induction false} StepKeyInjective(a: string, i: int, b: string, j: int)
    ensures StepKey(a, i) == StepKey(b, j) <==> a == b && i == j
  {
    if StepKey(a, i) == StepKey(b, j) {
      StepRoundTrip(a, i);
      StepRoundTrip(b, j);
      var s := StepKey(a, i);
      assert |a| == |b| && a == s[..|a|] && b == s[..|b|];
    }
  }
}
