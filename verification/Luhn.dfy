/** The card checksum of `agent/pii.py` (ISO/IEC 7812-1, Annex B) and what it detects. */
module Luhn {

  /** What a digit adds to the sum: doubled and folded in every second place from the right. */
  function Weight(d: int, doubled: bool): int {
    if !doubled then d else if 2 * d > 9 then 2 * d - 9 else 2 * d
  }

  /** The sum over the last `n` characters. */
  function SumFromRight(digits: string, n: nat): int
    requires n <= |digits|
  {
    if n == 0 then 0
    else SumFromRight(digits, n - 1) + Weight(digits[|digits| - n] as int - 48, n % 2 == 0)
  }

  predicate AllDigits(text: string, digit: char -> bool) {
    forall i :: 0 <= i < |text| ==> digit(text[i])
  }

  predicate LuhnOk(text: string, digit: char -> bool) {
    13 <= |text| <= 19 && AllDigits(text, digit) && SumFromRight(text, |text|) % 10 == 0
  }

  /** `_luhn_ok`: one pass from the right. */
  method CheckLuhn(text: string, digit: char -> bool) returns (ok: bool)
    ensures ok <==> LuhnOk(text, digit)
  {
    if !(forall i :: 0 <= i < |text| ==> digit(text[i])) || !(13 <= |text| <= 19) {
      return false;
    }
    var total := 0;
    for i := 0 to |text|
      invariant total == SumFromRight(text, i)
    {
      var d := text[|text| - 1 - i] as int - 48;
      if i % 2 == 1 {
        d := d * 2;
        if d > 9 {
          d := d - 9;
        }
      }
      total := total + d;
    }
    ok := total % 10 == 0;
  }

  predicate AsciiDigit(c: char) {
    '0' <= c <= '9'
  }

  /** Mistyping one digit always changes the verdict of a valid number. */
  lemma SingleErrorDetected(text: string, i: nat, wrong: char)
    requires LuhnOk(text, AsciiDigit) && i < |text| && AsciiDigit(wrong) && wrong != text[i]
    ensures !LuhnOk(text[i := wrong], AsciiDigit)
  {
    hide Weight, SumFromRight;
    var n := |text|;
    SumDiffersAt(text, text[i := wrong], i, n);
    WeightInjective(text[i] as int - 48, wrong as int - 48, (n - i) % 2 == 0);
    SameResidue(SumFromRight(text, n), SumFromRight(text[i := wrong], n));
  }

  lemma SameResidue(a: int, b: int)
    requires a % 10 == 0
    ensures b % 10 == 0 <==> (a - b) % 10 == 0
  {
  }

  lemma WeightInjective(d: int, e: int, doubled: bool)
    requires 0 <= d <= 9 && 0 <= e <= 9 && d != e
    ensures (Weight(d, doubled) - Weight(e, doubled)) % 10 != 0
  {
  }

  lemma {:induction false} SumDiffersAt(a: string, b: string, i: nat, n: nat)
    requires |a| == |b| && i < |a| && n <= |a|
    requires forall k :: 0 <= k < |a| && k != i ==> a[k] == b[k]
    ensures SumFromRight(a, n) - SumFromRight(b, n) ==
      if |a| - n <= i then Weight(a[i] as int - 48, (|a| - i) % 2 == 0) - Weight(b[i] as int - 48, (|a| - i) % 2 == 0)
      else 0
  {
    if n > 0 {
      SumDiffersAt(a, b, i, n - 1);
    }
  }

  /** Swapping two neighbours goes unnoticed exactly for equal digits and for 0 beside 9. */
  lemma TranspositionDetected(text: string, i: nat)
    requires LuhnOk(text, AsciiDigit) && i + 1 < |text|
    ensures var swapped := text[i := text[i + 1]][i + 1 := text[i]];
            LuhnOk(swapped, AsciiDigit) <==>
              text[i] == text[i + 1] || {text[i], text[i + 1]} == {'0', '9'}
  {
    hide Weight, SumFromRight;
    var (d, e) := (text[i], text[i + 1]);
    var swapped := text[i := e][i + 1 := d];
    assert AllDigits(swapped, AsciiDigit);
    SwappedSums(text, i);
    SwapWeight(d as int - 48, e as int - 48, (|text| - i) % 2 == 0);
    SameResidue(SumFromRight(text, |text|), SumFromRight(swapped, |text|));
    assert {d, e} == {'0', '9'} <==> (d == '0' && e == '9') || (d == '9' && e == '0') by {
      if {d, e} == {'0', '9'} {
        assert d in {'0', '9'} && e in {'0', '9'} && '0' in {d, e} && '9' in {d, e};
      }
    }
  }

  lemma SwappedSums(text: string, i: nat)
    requires i + 1 < |text|
    ensures var (d, e) := (text[i] as int - 48, text[i + 1] as int - 48);
            var (n, doubled) := (|text|, (|text| - i) % 2 == 0);
            SumFromRight(text, n) - SumFromRight(text[i := text[i + 1]][i + 1 := text[i]], n)
            == Weight(d, doubled) + Weight(e, !doubled) - Weight(e, doubled) - Weight(d, !doubled)
  {
    hide Weight, SumFromRight;
    var half := text[i := text[i + 1]];
    SumDiffersAt(text, half, i, |text|);
    SumDiffersAt(half, half[i + 1 := text[i]], i + 1, |text|);
    assert ((|text| - (i + 1)) % 2 == 0) == !((|text| - i) % 2 == 0);
  }

  lemma SwapWeight(d: int, e: int, doubled: bool)
    requires 0 <= d <= 9 && 0 <= e <= 9
    ensures (Weight(d, doubled) + Weight(e, !doubled) - Weight(e, doubled) - Weight(d, !doubled)) % 10 == 0
       <==> d == e || (d == 0 && e == 9) || (d == 9 && e == 0)
  {
  }
}
