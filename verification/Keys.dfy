/** The idempotency key of a scheduled operation (internal/core/schedules.go:503): six
    parts joined by colons, and why two different operations never share one. */
module Keys {

  function Digit(d: int): (c: char)
    requires 0 <= d < 10
    ensures c as int == '0' as int + d
  {
    "0123456789"[d]
  }

  /** %d of a number. */
  function Decimal(n: nat): (s: string)
    ensures s != "" && forall i :: 0 <= i < |s| ==> '0' <= s[i] <= '9'
  {
    if n < 10 then [Digit(n)] else Decimal(n / 10) + [Digit(n % 10)]
  }

  function Integer(n: int): string {
    if n < 0 then "-" + Decimal(-n) else Decimal(n)
  }

  /** Reading a number back. */
  function Value(s: string): int {
    if s == "" then 0 else 10 * Value(s[..|s| - 1]) + (s[|s| - 1] as int - '0' as int)
  }

  lemma {:induction false} DecimalReadsBack(n: nat)
    ensures Value(Decimal(n)) == n
  {
    if n < 10 {
      assert Value(Decimal(n)[..0]) == 0;
    } else {
      DecimalReadsBack(n / 10);
      assert Decimal(n)[..|Decimal(n)| - 1] == Decimal(n / 10);
    }
  }

  lemma IntegerInjective(m: int, n: int)
    requires Integer(m) == Integer(n)
    ensures m == n
  {
    assert Integer(m)[0] == Integer(n)[0];
    DecimalReadsBack(if m < 0 then -m else m);
    DecimalReadsBack(if n < 0 then -n else n);
    assert Decimal(if m < 0 then -m else m)[0] != '-' && Decimal(if n < 0 then -n else n)[0] != '-';
    if m < 0 {
      assert Integer(m)[1..] == Decimal(-m) && Integer(n)[1..] == Decimal(-n);
    }
  }

  lemma IntegerHasNoColon(n: int)
    ensures ':' !in Integer(n)
  {
  }

  /** The text up to the first colon is determined by the whole. */
  lemma {:induction false} SplitsAtColon(a: string, x: string, b: string, y: string)
    requires ':' !in a && ':' !in b
    requires a + ":" + x == b + ":" + y
    ensures a == b && x == y
  {
    var whole := a + ":" + x;
    assert whole[|a|] == ':' && whole[|b|] == ':';
    assert |a| == |b|;
    assert a == whole[..|a|] && b == whole[..|b|];
    assert x == whole[|a| + 1..] && y == whole[|b| + 1..];
  }

  /** Identifiers are hexadecimal and actions plain words; only the local time, which
      comes last, holds colons. */
  datatype Key = Key(schedule: string, revision: int, dueMicro: int, resource: string, action: string, local: string) {
    predicate Plain() {
      ':' !in schedule && ':' !in resource && ':' !in action
    }

    function Text(): string {
      schedule + ":" + Tail1()
    }

    function Tail1(): string { Integer(revision) + ":" + Tail2() }
    function Tail2(): string { Integer(dueMicro) + ":" + Tail3() }
    function Tail3(): string { resource + ":" + Tail4() }
    function Tail4(): string { action + ":" + local }
  }

  /** Equal keys name the same schedule, revision, instant, resource, action and slot. */
  lemma KeyInjective(a: Key, b: Key)
    requires a.Plain() && b.Plain() && a.Text() == b.Text()
    ensures a == b
  {
    SplitsAtColon(a.schedule, a.Tail1(), b.schedule, b.Tail1());
    KeyTailInjective(a, b);
  }

  lemma KeyTailInjective(a: Key, b: Key)
    requires a.Plain() && b.Plain() && a.Tail1() == b.Tail1()
    ensures a.(schedule := b.schedule) == b
  {
    IntegerHasNoColon(a.revision);
    IntegerHasNoColon(b.revision);
    IntegerHasNoColon(a.dueMicro);
    IntegerHasNoColon(b.dueMicro);
    SplitsAtColon(Integer(a.revision), a.Tail2(), Integer(b.revision), b.Tail2());
    SplitsAtColon(Integer(a.dueMicro), a.Tail3(), Integer(b.dueMicro), b.Tail3());
    SplitsAtColon(a.resource, a.Tail4(), b.resource, b.Tail4());
    SplitsAtColon(a.action, a.local, b.action, b.local);
    IntegerInjective(a.revision, b.revision);
    IntegerInjective(a.dueMicro, b.dueMicro);
  }
}
