/** Peer names: the constant prefix followed by the decimal rendering of a counter. */
module Names {

  /** A peer's name. */
  datatype PeerId = PeerId(name: string)

  const NOBODY := PeerId("")

  const DIGITS := "0123456789"

  /** strconv.Itoa on the non-negative numbers. */
  function Itoa(n: nat): (s: string)
    ensures s != [] && (|s| == 1 <==> n < 10)
  {
    if n < 10 then [DIGITS[n]] else Itoa(n / 10) + [DIGITS[n % 10]]
  }

  lemma DigitsDistinct(a: nat, b: nat)
    requires a < 10 && b < 10 && DIGITS[a] == DIGITS[b]
    ensures a == b
  {
  }

  lemma {:induction false} ItoaInjective(a: nat, b: nat)
    requires Itoa(a) == Itoa(b)
    ensures a == b
  {
    var s := Itoa(a);
    if |s| == 1 {
      DigitsDistinct(a, b);
    } else {
      assert Itoa(a / 10) == s[..|s| - 1] && Itoa(b / 10) == s[..|s| - 1];
      assert DIGITS[a % 10] == s[|s| - 1] && DIGITS[b % 10] == s[|s| - 1];
      ItoaInjective(a / 10, b / 10);
      DigitsDistinct(a % 10, b % 10);
    }
  }

  function PeerName(num: nat): PeerId {
    PeerId("sim-p" + Itoa(num))
  }

  lemma PeerNameInjective(a: nat, b: nat)
    requires PeerName(a) == PeerName(b)
    ensures a == b
  {
    assert Itoa(a) == PeerName(a).name[5..] && Itoa(b) == PeerName(b).name[5..];
    ItoaInjective(a, b);
  }

  function DigitValue(c: char): int {
    c as int - '0' as int
  }

  /** strconv.Atoi on decimal digits. */
  function Atoi(s: string): int {
    if s == [] then 0 else 10 * Atoi(s[..|s| - 1]) + DigitValue(s[|s| - 1])
  }

  /** Reading a rendered counter gives it back. */
  lemma {:induction false} AtoiItoa(n: nat)
    ensures Atoi(Itoa(n)) == n
  {
    var s := Itoa(n);
    DigitsCount(n % 10);
    if n < 10 {
      assert s[..0] == [] && Atoi(s) == DigitValue(DIGITS[n]);
    } else {
      assert s[..|s| - 1] == Itoa(n / 10) && s[|s| - 1] == DIGITS[n % 10];
      AtoiItoa(n / 10);
    }
  }

  lemma DigitsCount(d: nat)
    requires d < 10
    ensures DigitValue(DIGITS[d]) == d
  {
  }

  lemma FirstAndEleventhName()
    ensures PeerName(0) == PeerId("sim-p0") && PeerName(10) == PeerId("sim-p10")
  {
    assert Itoa(1) == "1" && Itoa(10) == Itoa(1) + "0";
  }
}
