/** The weighted digit sums behind the modulo-11 check digits of CPF and CNPJ. */
module CheckDigits {
  import opened Text

  /** The sum of digit(s[i]) * w[i] over the first n positions. */
  function WeightedSum(s: string, w: seq<int>, n: nat): (r: int)
    requires n <= |s| && n <= |w| && AllDigits(s)
    ensures (forall i :: 0 <= i < n ==> w[i] >= 0) ==> r >= 0
  {
    if n == 0 then 0 else WeightedSum(s, w, n - 1) + DigitValue(s[n - 1]) * w[n - 1]
  }

  /** The sum of the first n weights. */
  function WeightTotal(w: seq<int>, n: nat): int
    requires n <= |w|
  {
    if n == 0 then 0 else WeightTotal(w, n - 1) + w[n - 1]
  }

  /** The regex `(\d)\1{k}` over the whole text: one digit, repeated throughout. */
  predicate Repeated(s: string)
  {
    |s| > 0 && IsDigit(s[0]) && forall i :: 0 <= i < |s| ==> s[i] == s[0]
  }

  /** When every digit is the same, the weighted sum is that digit times the total weight. */
  lemma {:induction false} WeightedSumRepeated(s: string, w: seq<int>, n: nat)
    requires n <= |s| && n <= |w| && AllDigits(s) && Repeated(s)
    ensures WeightedSum(s, w, n) == DigitValue(s[0]) * WeightTotal(w, n)
  {
    if n > 0 {
      WeightedSumRepeated(s, w, n - 1);
    }
  }
}
