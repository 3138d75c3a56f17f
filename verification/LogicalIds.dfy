/** Logical action ids of one run never collide across turns. */
module LogicalIds {
  import opened Match

  predicate IsDigit(c: char) {
    '0' <= c <= '9'
  }

  predicate AllDigits(s: string) {
    forall i | 0 <= i < |s| :: IsDigit(s[i])
  }

  /** The number a digit string denotes. */
  function Value(s: string): nat
    requires AllDigits(s)
  {
    if s == "" then 0
    else 10 * Value(s[..|s| - 1]) + (s[|s| - 1] as int - '0' as int)
  }

  lemma {:induction false} DigitsDenote(n: nat)
    ensures AllDigits(Digits(n)) && Value(Digits(n)) == n && Digits(n) != ""
  {
    if n >= 10 {
      DigitsDenote(n / 10);
      DigitsDenote(n % 10);
      assert |Digits(n % 10)| == 1;
      var d := Digits(n);
      assert d[..|d| - 1] == Digits(n / 10);
      assert d[|d| - 1] == Digits(n % 10)[0];
      assert Value(Digits(n % 10)) == Digits(n % 10)[0] as int - '0' as int by {
        assert Digits(n % 10)[..0] == "";
      }
    } else {
      assert Digits(n)[..0] == "";
    }
  }

  lemma {:induction false} LeadingZeros(k: nat, s: string)
    requires AllDigits(s)
    ensures AllDigits(Zeros(k) + s) && Value(Zeros(k) + s) == Value(s)
  {
    var t := Zeros(k) + s;
    if s != "" {
      LeadingZeros(k, s[..|s| - 1]);
      assert t[..|t| - 1] == Zeros(k) + s[..|s| - 1];
    } else if k > 0 {
      LeadingZeros(k - 1, s);
      assert t[..|t| - 1] == Zeros(k - 1) + s;
    }
  }

  lemma PadDenotes(n: nat)
    ensures AllDigits(Pad6(n)) && Value(Pad6(n)) == n
  {
    DigitsDenote(n);
    if |Digits(n)| < 6 {
      LeadingZeros(6 - |Digits(n)|, Digits(n));
    }
  }

  /** The digits after the last colon can be read back. */
  lemma DigitsAfterAColon(a: string, b: string, x: string, y: string)
    requires AllDigits(x) && AllDigits(y) && a + ":" + x == b + ":" + y
    ensures x == y
  {
    var s := a + ":" + x;
    var t := b + ":" + y;
    assert s[|a|] == ':' && t[|b|] == ':';
    if |a| < |b| {
      assert false;
    } else if |b| < |a| {
      assert false;
    }
    assert s[|a| + 1..] == x && t[|b| + 1..] == y;
  }

  /** Two turns of one run never share a logical action id, whoever moves in them. */
  lemma LogicalIdsDiffer(c: Config, p: string, t: nat, q: string, u: nat)
    requires LogicalId(c, p, t) == LogicalId(c, q, u)
    ensures t == u
  {
    PadDenotes(t);
    PadDenotes(u);
    var a, b := c.runId + ":episode_001:" + p, c.runId + ":episode_001:" + q;
    DigitsAfterAColon(a, b, Pad6(t), Pad6(u));
  }

  /** At least six digits that denote `n`, with no more zeros in front than that takes. */
  predicate IsTurnText(d: string, n: nat) {
    AllDigits(d) && Value(d) == n && |d| >= 6 && (|d| > 6 ==> d[0] != '0')
  }

  lemma {:induction false} DigitsStartNonZero(n: nat)
    ensures Digits(n) != "" && (n >= 10 ==> |Digits(n)| >= 2) && (n > 0 ==> Digits(n)[0] != '0')
  {
    if n >= 10 {
      DigitsStartNonZero(n / 10);
      DigitsStartNonZero(n % 10);
    }
  }

  lemma PadIsTurnText(n: nat)
    ensures IsTurnText(Pad6(n), n)
  {
    PadDenotes(n);
    DigitsStartNonZero(n);
  }
}
