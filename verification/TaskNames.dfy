/**
 Names of the delayed tasks. A save-revoke task is called by the decimal token
 directly followed by the decimal clock reading, with nothing between them.
 */
module TaskNames {
  import opened Types

  function Digit(d: nat): char
    requires d < 10
  {
    "0123456789"[d]
  }

  function DigitValue(c: char): nat {
    if '0' <= c <= '9' then c as nat - '0' as nat else 0
  }

  /** std::to_string of an unsigned number. */
  function Decimal(n: nat): (s: string)
    ensures |s| >= 1 && forall i :: 0 <= i < |s| ==> '0' <= s[i] <= '9'
  {
    if n < 10 then [Digit(n)] else Decimal(n / 10) + [Digit(n % 10)]
  }

  function Value(s: string): nat {
    if s == [] then 0 else 10 * Value(s[..|s| - 1]) + DigitValue(s[|s| - 1])
  }

  lemma ValueOfDigit(d: nat)
    requires d < 10
    ensures DigitValue(Digit(d)) == d
  {
  }

  lemma ValueOfSnoc(s: string, c: char)
    ensures Value(s + [c]) == 10 * Value(s) + DigitValue(c)
  {
  }

  lemma {:induction false} ValueOfDecimal(n: nat)
    ensures Value(Decimal(n)) == n
  {
    if n < 10 {
      ValueOfDigit(n);
      ValueOfSnoc([], Digit(n));
      assert [] + [Digit(n)] == [Digit(n)];
    } else {
      ValueOfDecimal(n / 10);
      ValueOfDigit(n % 10);
      ValueOfSnoc(Decimal(n / 10), Digit(n % 10));
    }
  }

  lemma DecimalInjective(a: nat, b: nat)
    requires Decimal(a) == Decimal(b)
    ensures a == b
  {
    ValueOfDecimal(a);
    ValueOfDecimal(b);
  }

  function Pow10(k: nat): nat {
    if k == 0 then 1 else 10 * Pow10(k - 1)
  }

  lemma {:induction false} DecimalWidth(n: nat, k: nat)
    requires k >= 1 && n < Pow10(k)
    ensures |Decimal(n)| <= k
  {
    if n >= 10 {
      DecimalWidth(n / 10, k - 1);
    }
  }

  function SaveTaskName(token: TokenId, clock: nat): string {
    Decimal(token) + Decimal(clock)
  }

  function RevokeAllName(token: TokenId): string {
    "RevokeAll" + Decimal(token)
  }

  const DELAY_EXIT_NAME := "DelayExitTask"

  /** The token and the clock can be read back from a name whose clock has a known width. */
  function TokenPart(name: string, width: nat): string {
    if width <= |name| then name[..|name| - width] else []
  }

  function ClockPart(name: string, width: nat): nat {
    if width <= |name| then Value(name[|name| - width..]) else 0
  }

  lemma PartsOfSaveTaskName(token: TokenId, clock: nat)
    ensures var w := |Decimal(clock)|; var name := SaveTaskName(token, clock);
            TokenPart(name, w) == Decimal(token) && ClockPart(name, w) == clock
  {
    var w, name := |Decimal(clock)|, SaveTaskName(token, clock);
    assert name[..|name| - w] == Decimal(token);
    assert name[|name| - w..] == Decimal(clock);
    ValueOfDecimal(clock);
  }

  /** With clock readings of one width the name determines the token and the reading. */
  lemma SaveTaskNameInjective(t1: TokenId, c1: nat, t2: TokenId, c2: nat)
    requires |Decimal(c1)| == |Decimal(c2)|
    ensures SaveTaskName(t1, c1) == SaveTaskName(t2, c2) <==> t1 == t2 && c1 == c2
  {
    PartsOfSaveTaskName(t1, c1);
    PartsOfSaveTaskName(t2, c2);
    if SaveTaskName(t1, c1) == SaveTaskName(t2, c2) {
      DecimalInjective(t1, t2);
    }
  }

  predicate AllDigits(s: string) {
    forall i :: 0 <= i < |s| ==> '0' <= s[i] <= '9'
  }

  lemma {:induction false} NoLeadingZero(n: nat)
    requires n > 0
    ensures Decimal(n)[0] != '0'
  {
    if n >= 10 {
      NoLeadingZero(n / 10);
    }
  }

  /** Digits that do not start with a zero are the decimal of their value. */
  lemma {:induction false} DecimalOfValue(s: string)
    requires s != [] && AllDigits(s) && s[0] != '0'
    ensures Value(s) > 0 && Decimal(Value(s)) == s
  {
    var n := |s| - 1;
    var before, d := s[..n], DigitValue(s[n]);
    assert s == before + [s[n]];
    ValueOfSnoc(before, s[n]);
    assert Digit(d) == s[n];
    if n > 0 {
      DecimalOfValue(before);
      assert (10 * Value(before) + d) / 10 == Value(before) && (10 * Value(before) + d) % 10 == d;
    } else {
      assert before == [];
    }
  }

  /**
   What the longer of two clock readings has before the digits of the shorter, if those
   are its last digits.
   */
  function ExtraDigits(longer: nat, shorter: nat): string
    requires |Decimal(shorter)| < |Decimal(longer)|
  {
    Decimal(longer)[..|Decimal(longer)| - |Decimal(shorter)|]
  }

  predicate EndsWith(longer: nat, shorter: nat) {
    |Decimal(shorter)| < |Decimal(longer)| && Decimal(longer) == ExtraDigits(longer, shorter) + Decimal(shorter)
  }

  /** Two ways of cutting a string in two. */
  lemma CutTwice(a: string, b: string, c: string, d: string)
    requires |b| <= |d|
    ensures a + b == c + d <==> d[|d| - |b|..] == b && a == c + d[..|d| - |b|]
  {
    var p, q := d[..|d| - |b|], d[|d| - |b|..];
    assert d == p + q && c + d == (c + p) + q;
    if a + b == c + d {
      assert |a| == |c + p|;
      assert (a + b)[..|a|] == a && ((c + p) + q)[..|a|] == c + p;
      assert (a + b)[|a|..] == b && ((c + p) + q)[|a|..] == q;
    }
  }

  /**
   With clock readings of different widths, names agree exactly when one token goes on with the
   other clock's extra digits.
   */
  lemma NamesOfTwoClocks(t1: TokenId, c1: nat, t2: TokenId, c2: nat)
    requires |Decimal(c1)| < |Decimal(c2)|
    ensures SaveTaskName(t1, c1) == SaveTaskName(t2, c2)
       <==> EndsWith(c2, c1) && Decimal(t1) == Decimal(t2) + ExtraDigits(c2, c1)
  {
    var p := ExtraDigits(c2, c1);
    CutTwice(Decimal(t1), Decimal(c1), Decimal(t2), Decimal(c2));
    assert Decimal(c2) == p + Decimal(c2)[|p|..];
  }

  /** Digits in front of others add at least as much as a one would, and a one exactly as much. */
  lemma {:induction false} ValueAfter(a: string, p: string)
    requires Value(a) >= 1
    ensures Value(a + p) >= Pow10(|p|) + Value(p) && (Value(a) == 1 ==> Value(a + p) == Pow10(|p|) + Value(p))
  {
    if p == [] {
      assert a + p == a;
    } else {
      var n := |p| - 1;
      ValueAfter(a, p[..n]);
      ValueOfSnoc(a + p[..n], p[n]);
      ValueOfSnoc(p[..n], p[n]);
      assert p == p[..n] + [p[n]] && a + p == a + p[..n] + [p[n]];
    }
  }

  lemma LeadingZero(n: nat)
    requires Decimal(n)[0] == '0'
    ensures n == 0 && |Decimal(n)| == 1
  {
    if n > 0 {
      NoLeadingZero(n);
    }
  }

  lemma TokenBefore(t1: TokenId, t2: TokenId, p: string)
    requires p != [] && Decimal(t1) == Decimal(t2) + p
    ensures Value("1" + p) <= t1
  {
    if t2 == 0 {
      assert Decimal(t2)[0] == '0' && Decimal(t1)[0] == Decimal(t2)[0];
      LeadingZero(t1);
      assert false;
    }
    ValueOfDecimal(t1);
    ValueOfDecimal(t2);
    ValueAfter(Decimal(t2), p);
    ValueOfDecimal(1);
    assert Decimal(1) == "1";
    ValueAfter("1", p);
  }

  /**
   Two clock readings of different widths let some two tokens share a task name exactly
   when the longer ends with the shorter and the digits it has before are few enough to
   follow a one within 32 bits.
   */
  lemma ClocksCollide(c1: nat, c2: nat)
    requires |Decimal(c1)| < |Decimal(c2)|
    ensures (exists t1: TokenId, t2: TokenId :: SaveTaskName(t1, c1) == SaveTaskName(t2, c2))
       <==> EndsWith(c2, c1) && Value("1" + ExtraDigits(c2, c1)) < UINT32_RANGE
  {
    var p := ExtraDigits(c2, c1);
    if t1: TokenId, t2: TokenId :| SaveTaskName(t1, c1) == SaveTaskName(t2, c2) {
      NamesOfTwoClocks(t1, c1, t2, c2);
      TokenBefore(t1, t2, p);
    }
    if EndsWith(c2, c1) && Value("1" + p) < UINT32_RANGE {
      DecimalOfValue("1" + p);
      var t1: TokenId := Value("1" + p);
      assert Decimal(1) == "1";
      NamesOfTwoClocks(t1, c1, 1, c2);
      assert SaveTaskName(t1, c1) == SaveTaskName(1, c2);
    }
  }

  /** Without equal widths two tokens can share a task name. */
  lemma SaveTaskNamesCollide()
    ensures SaveTaskName(1, 23) == SaveTaskName(12, 3)
  {
  }

  predicate StartsWithDigit(s: string) {
    s != [] && '0' <= s[0] <= '9'
  }

  lemma NamesApart(token: TokenId, clock: nat, other: TokenId)
    ensures StartsWithDigit(SaveTaskName(token, clock))
    ensures !StartsWithDigit(RevokeAllName(other)) && !StartsWithDigit(DELAY_EXIT_NAME)
    ensures RevokeAllName(other) != DELAY_EXIT_NAME
    ensures RevokeAllName(token) == RevokeAllName(other) ==> token == other
  {
    assert SaveTaskName(token, clock)[0] == Decimal(token)[0];
    assert RevokeAllName(other)[0] == 'R';
    if RevokeAllName(token) == RevokeAllName(other) {
      assert RevokeAllName(token)[9..] == Decimal(token);
      assert RevokeAllName(other)[9..] == Decimal(other);
      DecimalInjective(token, other);
    }
  }

  /** The name was made of this token and some clock reading. */
  ghost predicate SaveNameOf(name: string, token: TokenId) {
    exists clock: nat :: name == SaveTaskName(token, clock)
  }

  lemma SaveNameStarts(name: string, token: TokenId)
    requires SaveNameOf(name, token)
    ensures StartsWithDigit(name)
  {
    var clock: nat :| name == SaveTaskName(token, clock);
    NamesApart(token, clock, token);
  }
}
