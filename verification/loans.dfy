/** Bank loans of the airport: the gearing rule that approves a new loan, and the
    yearly straight-line amortisation of the outstanding loans. */
module Loans {

  /** Every loan runs over ten years ... */
  const LoanTerm: int := 10
  /** ... at a fixed 4.5% interest on the outstanding amount. */
  const InterestRate: real := 0.045
  /** A new loan may not push debt above 60% of equity. */
  const GearingCap: real := 0.6

  datatype Loan = Loan(amount: real, originalAmount: real, yearsRemaining: int, interestRate: real)

  /** The record appended when a loan is granted. */
  function NewLoan(amount: real): Loan
  {
    Loan(amount, amount, LoanTerm, InterestRate)
  }

  /** What is still owed on a straight-line loan with the given number of yearly
      instalments, each a tenth of the original amount, left to pay. */
  function Outstanding(original: real, years: nat): real
  {
    if years == 0 then 0.0 else Outstanding(original, years - 1) + original / (LoanTerm as real)
  }

  /** The outstanding amount is the share of the original amount that the remaining
      years stand for; a loan with all ten years to go owes its whole amount. */
  lemma {:induction false} OutstandingShare(original: real, years: nat)
    ensures Outstanding(original, years) * (LoanTerm as real) == original * (years as real)
  {
    if years > 0 {
      OutstandingShare(original, years - 1);
      assert original * (years as real) == original * ((years - 1) as real) + original;
    }
  }

  /** A loan on its straight-line schedule: still running at the fixed rate, and owing
      exactly the instalments of its remaining years. */
  predicate OnSchedule(l: Loan)
  {
    && 0 < l.yearsRemaining
    && l.amount == Outstanding(l.originalAmount, l.yearsRemaining)
    && l.interestRate == InterestRate
  }

  /** A freshly granted loan is on schedule. */
  lemma NewLoanOnSchedule(amount: real)
    ensures OnSchedule(NewLoan(amount))
  {
    OutstandingShare(amount, 10);
    assert Outstanding(amount, 10) == amount;
  }

  predicate AllOnSchedule(ls: seq<Loan>)
  {
    forall i :: 0 <= i < |ls| ==> OnSchedule(ls[i])
  }

  /** Total outstanding amount. */
  function SumAmounts(ls: seq<Loan>): real
  {
    if ls == [] then 0.0 else SumAmounts(ls[..|ls| - 1]) + ls[|ls| - 1].amount
  }

  /** Total originally borrowed. */
  function SumOriginal(ls: seq<Loan>): real
  {
    if ls == [] then 0.0 else SumOriginal(ls[..|ls| - 1]) + ls[|ls| - 1].originalAmount
  }

  /** The gearing rule: a loan is refused when equity is not positive or when
      (debt + amount) / equity would exceed the cap. */
  function Approved(equity: real, debt: real, amount: real): (ok: bool)
    ensures ok <==> equity > 0.0 && debt + amount <= GearingCap * equity
  {
    if equity <= 0.0 then false
    else
      var gearing := (debt + amount) / equity;
      assert gearing * equity == debt + amount;
      !(gearing > GearingCap)
  }

  /** One year of debt service on one loan: the outstanding amount falls by a tenth
      of the original amount and one year less remains. */
  function Repay(l: Loan): (r: Loan)
    ensures r == l.(amount := r.amount, yearsRemaining := r.yearsRemaining)
    ensures (l.amount - r.amount) * (LoanTerm as real) == l.originalAmount
    ensures r.yearsRemaining == l.yearsRemaining - 1
  {
    l.(amount := l.amount - l.originalAmount / (LoanTerm as real), yearsRemaining := l.yearsRemaining - 1)
  }

  /** What a year of debt service leaves and costs. */
  datatype Service = Service(kept: seq<Loan>, interest: real, principal: real)

  /** The loan loop of the year transition: interest on the outstanding amount before
      repayment, a tenth of the original amount repaid, and loans with no years left
      dropped, keeping the order of the others. */
  function Amortise(ls: seq<Loan>): (r: Service)
    ensures |r.kept| <= |ls|
    ensures forall l :: l in r.kept ==> l.yearsRemaining > 0
  {
    if ls == [] then Service([], 0.0, 0.0)
    else
      var s := Amortise(ls[..|ls| - 1]);
      var l := ls[|ls| - 1];
      var repaid := Repay(l);
      Service(if repaid.yearsRemaining > 0 then s.kept + [repaid] else s.kept,
              s.interest + l.amount * l.interestRate,
              s.principal + l.originalAmount / (LoanTerm as real))
  }

  /** Amortising one more loan of a list adds that loan's step to the service so far. */
  lemma AmortiseSnoc(ls: seq<Loan>, i: nat)
    requires i < |ls|
    ensures var s := Amortise(ls[..i]);
            var l := ls[i];
            Amortise(ls[..i + 1]) ==
              Service(if Repay(l).yearsRemaining > 0 then s.kept + [Repay(l)] else s.kept,
                      s.interest + l.amount * l.interestRate,
                      s.principal + l.originalAmount / (LoanTerm as real))
  {
    assert ls[..i + 1][..i] == ls[..i];
  }

  /** The loan loop itself: for each loan in order, its interest at its own rate is
      added up, a tenth of its original amount is repaid, one year less remains, and
      the loan is kept only while years remain. */
  method AmortiseLoop(ls: seq<Loan>) returns (kept: seq<Loan>, interest: real, principal: real)
    ensures Service(kept, interest, principal) == Amortise(ls)
  {
    interest, principal := 0.0, 0.0;
    kept := [];
    var i := 0;
    assert ls[..0] == [];
    while i < |ls|
      invariant 0 <= i <= |ls|
      invariant Amortise(ls[..i]) == Service(kept, interest, principal)
    {
      AmortiseSnoc(ls, i);
      var loan := ls[i];
      interest := interest + loan.amount * loan.interestRate;
      var principalPayment := loan.originalAmount / (LoanTerm as real);
      loan := loan.(amount := loan.amount - principalPayment);
      principal := principal + principalPayment;
      loan := loan.(yearsRemaining := loan.yearsRemaining - 1);
      if loan.yearsRemaining > 0 {
        kept := kept + [loan];
      }
      i := i + 1;
    }
    assert ls[..i] == ls;
  }

  /** One loan on schedule stays on schedule, or has been repaid in full when it ends. */
  lemma RepayOnSchedule(l: Loan)
    requires OnSchedule(l)
    ensures Repay(l).yearsRemaining > 0 ==> OnSchedule(Repay(l))
    ensures Repay(l).yearsRemaining <= 0 ==> Repay(l).amount == 0.0
  {
    assert Outstanding(l.originalAmount, l.yearsRemaining) ==
           Outstanding(l.originalAmount, l.yearsRemaining - 1) + l.originalAmount / (LoanTerm as real);
  }

  /** Amortisation keeps every loan on schedule, lowers the debt by exactly the
      principal repaid, and that principal is a tenth of all that was borrowed; the
      interest is 4.5% of the debt outstanding before repayment. */
  lemma {:induction false} AmortiseOnSchedule(ls: seq<Loan>)
    requires AllOnSchedule(ls)
    ensures AllOnSchedule(Amortise(ls).kept)
    ensures SumAmounts(Amortise(ls).kept) == SumAmounts(ls) - Amortise(ls).principal
    ensures Amortise(ls).principal == SumOriginal(ls) / (LoanTerm as real)
    ensures Amortise(ls).interest == InterestRate * SumAmounts(ls)
  {
    if ls != [] {
      var init := ls[..|ls| - 1];
      var l := ls[|ls| - 1];
      assert AllOnSchedule(init) by {
        forall i | 0 <= i < |init| ensures OnSchedule(init[i]) { assert init[i] == ls[i]; }
      }
      AmortiseOnSchedule(init);
      assert OnSchedule(l) by { assert l == ls[|ls| - 1]; }
      RepayOnSchedule(l);
      var s := Amortise(init);
      assert SumAmounts(ls) == SumAmounts(init) + l.amount;
      assert Amortise(ls).interest == s.interest + l.amount * InterestRate;
      if Repay(l).yearsRemaining > 0 {
        var kept := s.kept + [Repay(l)];
        assert kept[..|kept| - 1] == s.kept;
        assert AllOnSchedule(kept) by {
          forall i | 0 <= i < |kept| ensures OnSchedule(kept[i]) {
            if i < |s.kept| { assert kept[i] == s.kept[i]; }
          }
        }
      }
    }
  }

  /** What remains of a fresh loan after k years of amortisation (k at most ten). */
  function Aged(amount: real, k: nat): seq<Loan>
    requires k <= 10
  {
    if k == 10 then [] else [Loan(Outstanding(amount, 10 - k), amount, 10 - k, InterestRate)]
  }

  /** Ageing a fresh loan by one more year is one more amortisation step; after ten
      steps nothing is left, and each step repaid a tenth of the amount. */
  lemma {:induction false} LoanRepaidInTenYears(amount: real, k: nat)
    requires k < 10
    ensures Amortise(Aged(amount, k)).kept == Aged(amount, k + 1)
    ensures Amortise(Aged(amount, k)).principal == amount / 10.0
    ensures Aged(amount, 0) == [NewLoan(amount)]
  {
    var l := Aged(amount, k)[0];
    assert Aged(amount, k) == [l];
    assert [l][..0] == [];
    assert Repay(l).amount == Outstanding(amount, 10 - (k + 1));
    assert Amortise([l]) ==
           Service(if k + 1 < 10 then [Repay(l)] else [], l.amount * l.interestRate, amount / (LoanTerm as real));
    if k + 1 < 10 {
      assert Repay(l) == Aged(amount, k + 1)[0];
    }
    OutstandingShare(amount, 10);
    assert Outstanding(amount, 10) == amount;
  }

  /** Gearing = debt / equity, infinite when equity is zero. */
  datatype GearingValue = Infinite | Ratio(value: real)

  /** A granted loan never leaves gearing above the cap. */
  lemma ApprovedGearing(equity: real, debt: real, amount: real)
    requires Approved(equity, debt, amount)
    ensures equity > 0.0 && (debt + amount) / equity <= GearingCap
  {
    var g := (debt + amount) / equity;
    assert g * equity == debt + amount;
  }
}
