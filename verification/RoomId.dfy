// The identifier of a room: the letter R, the clock in milliseconds modulo
// 10^10, and the sequence number modulo 10000 padded to four digits.
module RoomIds {

  function DigitChar(d: nat): (c: char)
    requires d < 10
    ensures '0' <= c <= '9' && c as int - '0' as int == d
  {
    d as char + '0'
  }

  // Decimal digits of n, without padding.
  function Decimal(n: nat): (s: string)
    ensures |s| > 0 && forall i :: 0 <= i < |s| ==> '0' <= s[i] <= '9'
  {
    if n < 10 then [DigitChar(n)] else Decimal(n / 10) + [DigitChar(n % 10)]
  }

  // The number a string of digits stands for; leading zeros do not matter.
  function Number(s: string): int {
    if s == [] then 0 else Number(s[..|s| - 1]) * 10 + (s[|s| - 1] as int - '0' as int)
  }

  function Zeros(n: nat): (s: string)
    ensures |s| == n
  {
    if n == 0 then "" else "0" + Zeros(n - 1)
  }

  // Output with width 4 and fill '0': never cuts, pads on the left.
  function Padded(s: string): string {
    if |s| < 4 then Zeros(4 - |s|) + s else s
  }

  function MakeId(clock: nat, number: nat): string {
    "R" + Decimal(clock % 10000000000) + Padded(Decimal(number % 10000))
  }

  lemma {:induction false} NumberOfDecimal(n: nat)
    ensures Number(Decimal(n)) == n
  {
    if n >= 10 {
      NumberOfDecimal(n / 10);
      assert Decimal(n)[..|Decimal(n)| - 1] == Decimal(n / 10);
    }
  }

  lemma {:induction false} NumberIgnoresZeros(k: nat, s: string)
    ensures Number(Zeros(k) + s) == Number(s)
    decreases |s|, k
  {
    if s != [] {
      assert (Zeros(k) + s)[..|Zeros(k) + s| - 1] == Zeros(k) + s[..|s| - 1];
      NumberIgnoresZeros(k, s[..|s| - 1]);
    } else if k > 0 {
      ZerosEndInZero(k);
      assert Zeros(k) + s == Zeros(k);
      NumberIgnoresZeros(k - 1, s);
      assert Zeros(k - 1) + s == Zeros(k - 1);
    }
  }

  lemma {:induction false} ZerosEndInZero(k: nat)
    requires k > 0
    ensures Zeros(k)[k - 1] == '0' && Zeros(k)[..k - 1] == Zeros(k - 1)
  {
    if k > 1 {
      ZerosEndInZero(k - 1);
      assert Zeros(k)[..k - 1] == "0" + Zeros(k - 1)[..k - 2];
    }
  }

  lemma {:induction false} DecimalLength(n: nat, digits: nat, bound: nat)
    requires digits >= 1 && n < bound
    requires digits == 1 ==> bound == 10
    requires digits == 2 ==> bound == 100
    requires digits == 3 ==> bound == 1000
    requires digits == 4 ==> bound == 10000
    requires digits <= 4
    ensures |Decimal(n)| <= digits
  {
    if n >= 10 {
      DecimalLength(n / 10, digits - 1, bound / 10);
    }
  }

  // The last four characters are the padded sequence number.
  lemma PaddedIsExact(n: nat)
    requires n < 10000
    ensures |Padded(Decimal(n))| == 4 && Number(Padded(Decimal(n))) == n
  {
    DecimalLength(n, 4, 10000);
    NumberOfDecimal(n);
    NumberIgnoresZeros(4 - |Decimal(n)|, Decimal(n));
    assert Zeros(0) + Decimal(n) == Decimal(n);
  }

  // What the last four characters of an identifier stand for.
  function Tag(id: string): int {
    if |id| < 4 then -1 else Number(id[|id| - 4..])
  }

  // An identifier determines its sequence number modulo 10000.
  lemma IdTellsNumber(clock: nat, number: nat)
    ensures Tag(MakeId(clock, number)) == number % 10000
  {
    PaddedIsExact(number % 10000);
    var id := MakeId(clock, number);
    assert id[|id| - 4..] == Padded(Decimal(number % 10000));
  }

  lemma RemaindersDiffer(n1: nat, n2: nat)
    requires n1 < n2 < n1 + 10000
    ensures n1 % 10000 != n2 % 10000
  {
  }

  // Whatever the clock reads, identifiers made from sequence numbers that are
  // different but less than 10000 apart are different.
  lemma IdsDiffer(clock1: nat, n1: nat, clock2: nat, n2: nat)
    requires n1 < n2 < n1 + 10000
    ensures MakeId(clock1, n1) != MakeId(clock2, n2)
  {
    IdTellsNumber(clock1, n1);
    IdTellsNumber(clock2, n2);
    RemaindersDiffer(n1, n2);
  }

  // The bound cannot be improved: 10000 rooms later the same clock reading
  // gives the same identifier again.
  lemma IdsRepeat(clock: nat, n: nat)
    ensures MakeId(clock, n) == MakeId(clock, n + 10000)
  {
  }

  // What an identifier depends on: two of them are the same if and only if the
  // clocks agree modulo 10^10 and the numbers modulo 10000.
  lemma IdsAgreeIff(clock1: nat, n1: nat, clock2: nat, n2: nat)
    ensures MakeId(clock1, n1) == MakeId(clock2, n2) <==>
      clock1 % 10000000000 == clock2 % 10000000000 && n1 % 10000 == n2 % 10000
  {
    IdTellsNumber(clock1, n1);
    IdTellsNumber(clock2, n2);
    if MakeId(clock1, n1) == MakeId(clock2, n2) {
      IdTellsClock(clock1, n1);
      IdTellsClock(clock2, n2);
    }
  }

  lemma IdTellsClock(clock: nat, n: nat)
    ensures
      var id := MakeId(clock, n);
      |id| >= 5 && Number(id[1..|id| - 4]) == clock % 10000000000
  {
    PaddedIsExact(n % 10000);
    var id := MakeId(clock, n);
    assert id[1..|id| - 4] == Decimal(clock % 10000000000);
    NumberOfDecimal(clock % 10000000000);
  }
}
