/** Unsigned decimals as `%u` prints them, and the values they denote. */
module Decimal {

  predicate IsDigit(c: char) {
    '0' <= c <= '9'
  }

  predicate AllDigits(s: string) {
    forall i :: 0 <= i < |s| ==> IsDigit(s[i])
  }

  function DigitOf(c: char): nat
    requires IsDigit(c)
  {
    (c - '0') as nat
  }

  /** The number a digit string denotes; leading zeros are allowed. */
  function Value(s: string): nat
    requires AllDigits(s)
  {
    if s == "" then 0 else 10 * Value(s[..|s| - 1]) + DigitOf(s[|s| - 1])
  }

  /** `%u`. */
  function Print(n: nat): (s: string)
    ensures s != "" && AllDigits(s)
  {
    if n < 10 then ['0' + n as char] else Print(n / 10) + ['0' + (n % 10) as char]
  }

  lemma {:induction false} ValueOfPrint(n: nat)
    ensures Value(Print(n)) == n
  {
    if n >= 10 {
      ValueOfPrint(n / 10);
      assert Print(n)[..|Print(n)| - 1] == Print(n / 10);
    }
  }

  lemma {:induction false} PrintInjective(m: nat, n: nat)
    requires Print(m) == Print(n)
    ensures m == n
  {
    ValueOfPrint(m);
    ValueOfPrint(n);
  }

  /** The digits, and what appending one does to the value. */
  lemma {:induction false} DigitsCount(s: string, d: nat)
    requires AllDigits(s) && d < 10
    ensures forall c :: IsDigit(c) <==> c in "0123456789"
    ensures AllDigits(s + ["0123456789"[d]]) && Value(s + ["0123456789"[d]]) == 10 * Value(s) + d
    ensures Value("") == 0
  {
    var c := "0123456789"[d];
    assert (s + [c])[..|s|] == s;
    assert DigitOf(c) == d;
  }

  /** Printing gives back every decimal without leading zeros; those do not change a value. */
  lemma {:induction false} PrintOfValue(s: string)
    requires AllDigits(s) && s != ""
    ensures s[0] != '0' || |s| == 1 ==> Print(Value(s)) == s
    ensures s[0] != '0' ==> Value(s) > 0
    ensures Value("0" + s) == Value(s)
    decreases |s|
  {
    var front, last := s[..|s| - 1], s[|s| - 1];
    assert ("0" + s)[..|s|] == "0" + front;
    assert s == front + [last];
    if front != "" {
      PrintOfValue(front);
      assert Value(s) / 10 == Value(front) && Value(s) % 10 == DigitOf(last);
    } else {
      assert "0" + front == "0" && "0"[..0] == "";
      assert Value(s) == DigitOf(last);
    }
  }

  /** A digit prefix never denotes more than the whole. */
  lemma {:induction false} PrefixValue(s: string, k: nat)
    requires AllDigits(s) && k <= |s|
    ensures AllDigits(s[..k]) && Value(s[..k]) <= Value(s)
    decreases |s|
  {
    if k < |s| {
      var front := s[..|s| - 1];
      PrefixValue(front, k);
      assert front[..k] == s[..k];
    } else {
      assert s[..k] == s;
    }
  }
}
