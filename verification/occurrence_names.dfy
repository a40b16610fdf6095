/** The ids given to child clips of a shot occurrence: ordinal padded to four digits, shot id, child id. */
module OccurrenceNames {

  const PREFIX := "shot-occ-"
  const WIDTH := 4

  function Digit(d: nat): char
    requires d < 10
  {
    ('0' as int + d) as char
  }

  function Decimal(n: nat): string {
    if n < 10 then [Digit(n)] else Decimal(n / 10) + [Digit(n % 10)]
  }

  function Zeros(n: nat): string {
    seq(n, _ => '0')
  }

  /** At least four digits; longer ordinals are not cut. */
  function Padded(n: nat): string {
    var digits := Decimal(n);
    (if |digits| < WIDTH then Zeros(WIDTH - |digits|) else []) + digits
  }

  function OccurrenceId(ordinal: nat, shotId: string): string {
    PREFIX + (Padded(ordinal) + ("-" + shotId))
  }

  function ChildId(ordinal: nat, shotId: string, childId: string): string {
    OccurrenceId(ordinal, shotId) + ("--" + childId)
  }

  predicate AllDigits(s: string) {
    forall i | 0 <= i < |s| :: '0' <= s[i] <= '9'
  }

  function Value(s: string): nat
    requires AllDigits(s)
  {
    if s == [] then 0 else Value(s[..|s| - 1]) * 10 + (s[|s| - 1] as int - '0' as int)
  }

  lemma {:induction false} DecimalValue(n: nat)
    ensures AllDigits(Decimal(n)) && Value(Decimal(n)) == n
  {
    if n >= 10 {
      DecimalValue(n / 10);
      assert Decimal(n)[..|Decimal(n)| - 1] == Decimal(n / 10);
    }
  }

  lemma {:induction false} LeadingZeros(k: nat, s: string)
    requires AllDigits(s)
    ensures AllDigits(Zeros(k) + s) && Value(Zeros(k) + s) == Value(s)
    decreases k + |s|
  {
    var long := Zeros(k) + s;
    if s != [] {
      assert long[..|long| - 1] == Zeros(k) + s[..|s| - 1];
      LeadingZeros(k, s[..|s| - 1]);
    } else if k > 0 {
      assert long[..|long| - 1] == Zeros(k - 1) + s;
      LeadingZeros(k - 1, s);
    }
  }

  lemma PaddedValue(n: nat)
    ensures AllDigits(Padded(n)) && Value(Padded(n)) == n
  {
    DecimalValue(n);
    if |Decimal(n)| < WIDTH {
      LeadingZeros(WIDTH - |Decimal(n)|, Decimal(n));
    } else {
      assert Padded(n) == Decimal(n);
    }
  }

  /** A run of digits ends where the first other character stands. */
  lemma DigitRunsAgree(a: string, x: string, b: string, y: string)
    requires AllDigits(a) && AllDigits(b) && a + x == b + y
    requires x != [] && y != [] && !('0' <= x[0] <= '9') && !('0' <= y[0] <= '9')
    ensures a == b && x == y
  {
    var whole := a + x;
    assert whole[|a|] == x[0] && (b + y)[|b|] == y[0];
    assert whole[..|a|] == a && (b + y)[..|b|] == b;
    assert whole[|a|..] == x && (b + y)[|b|..] == y;
  }

  lemma SamePrefix(p: string, x: string, y: string)
    requires p + x == p + y
    ensures x == y
  {
    assert (p + x)[|p|..] == x && (p + y)[|p|..] == y;
  }

  /** Equal ids come from the same occurrence; within one occurrence of one shot, from the same child. */
  lemma ChildIdsTellApart(m: nat, s: string, c: string, n: nat, s': string, c': string)
    requires ChildId(m, s, c) == ChildId(n, s', c')
    ensures m == n && (s == s' ==> c == c')
  {
    var x, y := ("-" + s) + ("--" + c), ("-" + s') + ("--" + c');
    assert ChildId(m, s, c) == PREFIX + (Padded(m) + x);
    assert ChildId(n, s', c') == PREFIX + (Padded(n) + y);
    SamePrefix(PREFIX, Padded(m) + x, Padded(n) + y);
    PaddedValue(m);
    PaddedValue(n);
    DigitRunsAgree(Padded(m), x, Padded(n), y);
    if s == s' {
      SamePrefix("-" + s, "--" + c, "--" + c');
      SamePrefix("--", c, c');
    }
  }
}
