/** Deposit and fee arithmetic, and the text of ledger references. */
module Money {
  // 64-bit integer division by a positive number, truncating toward zero.
  function Quotient(n: int, d: int): int
    requires d > 0
  {
    if n >= 0 then n / d else -((-n) / d)
  }

  // Five percent of the start price, at least one unit when there is a start price.
  function DepositFromStartPrice(startPrice: int): (deposit: int)
    ensures deposit > 0 <==> startPrice > 0
    ensures startPrice >= 20 ==> 100 * deposit <= 5 * startPrice < 100 * deposit + 100
  {
    var d := Quotient(startPrice * 5, 100);
    if d < 1 && startPrice > 0 then 1 else d
  }

  // Three percent of the final price, rounded down.
  function PlatformFee(finalPrice: int): (fee: nat)
    ensures finalPrice > 0 ==> 100 * fee <= 3 * finalPrice < 100 * fee + 100 && fee < finalPrice
    ensures fee == 0 <==> finalPrice < 34
  {
    if finalPrice <= 0 then 0 else finalPrice * 3 / 100
  }

  function Min(a: nat, b: nat): nat { if a < b then a else b }

  // The part of the fee that the deposit does not cover and the invoice therefore charges.
  function FeeDue(goods: int, deposit: nat): nat {
    var fee := PlatformFee(goods);
    if fee < deposit then 0 else fee - deposit
  }

  // Ledger rows about a deposit are told apart by a suffix of their reference.
  datatype Suffix = Plain | Remainder | FullRelease | FeeZero | Due

  function SuffixText(s: Suffix): string {
    match s
    case Plain => ""
    case Remainder => ":remainder"
    case FullRelease => ":full_release"
    case FeeZero => ":fee_zero"
    case Due => ":due"
  }

  function ReferenceText(auction: string, company: string, s: Suffix): string {
    "auction:" + auction + ":company:" + company + SuffixText(s)
  }

  // Within one company and one row type the texts of two references are equal only when the references are:
  // this is what lets the rest of the model use structured references.
  lemma ReferenceTextInjective(a1: string, s1: Suffix, a2: string, s2: Suffix, company: string)
    requires s1 == s2 || (s1 in {Remainder, FullRelease, FeeZero} && s2 in {Remainder, FullRelease, FeeZero})
    ensures ReferenceText(a1, company, s1) == ReferenceText(a2, company, s2) ==> a1 == a2 && s1 == s2
  {
    var t1, t2 := ReferenceText(a1, company, s1), ReferenceText(a2, company, s2);
    if s1 != s2 {
      // The suffixes end in different characters.
      assert t1[|t1| - 1] == SuffixText(s1)[|SuffixText(s1)| - 1];
      assert t2[|t2| - 1] == SuffixText(s2)[|SuffixText(s2)| - 1];
    } else if t1 == t2 {
      assert |a1| == |a2|;
      assert a1 == t1[|"auction:"|..|"auction:"| + |a1|];
      assert a2 == t2[|"auction:"|..|"auction:"| + |a2|];
    }
  }
}
