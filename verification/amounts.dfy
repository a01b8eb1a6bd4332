/**
 * The `filter(status).reduce(sum + amount, 0)` pipeline that both the
 * admin dashboard (revenue, overdue amount) and the client payment
 * history (total overdue) run over payments.
 */
module Amounts {
  import opened Types
  import opened ArrayOps

  /**
   * `ps.reduce((sum, p) => sum + p.amount, 0)`: zero for no payments, and
   * never less than any single amount it adds up.
   */
  function SumAmounts(ps: seq<Payment>): (total: nat)
    ensures ps == [] ==> total == 0
    ensures forall i :: 0 <= i < |ps| ==> ps[i].amount <= total
  {
    if ps == [] then 0 else ps[0].amount + SumAmounts(ps[1..])
  }

  /** The callback `p => p.status === st`. */
  function HasStatus(st: PaymentStatus): Payment -> bool
  {
    (p: Payment) => p.status == st
  }

  /**
   * Sum of `amount` over the payments whose status is `st`: zero for no
   * payments, never more than the sum of all amounts.
   */
  function AmountWithStatus(ps: seq<Payment>, st: PaymentStatus): (total: nat)
    ensures ps == [] ==> total == 0
    ensures total <= SumAmounts(ps)
  {
    SumFilterBound(ps, HasStatus(st));
    SumAmounts(Filter(ps, HasStatus(st)))
  }

  /** Dropping payments never increases the sum. */
  lemma {:induction false} SumFilterBound(ps: seq<Payment>, keep: Payment -> bool)
    ensures SumAmounts(Filter(ps, keep)) <= SumAmounts(ps)
  {
    if ps != [] {
      SumFilterBound(ps[1..], keep);
    }
  }

  lemma {:induction false} SumAmountsAppend(a: seq<Payment>, b: seq<Payment>)
    ensures SumAmounts(a + b) == SumAmounts(a) + SumAmounts(b)
  {
    if a == [] {
      assert a + b == b;
    } else {
      assert (a + b)[1..] == a[1..] + b;
      SumAmountsAppend(a[1..], b);
    }
  }

  /**
   * The status total over a payment list, unfolded one payment at a time:
   * no payments sum to zero, and the first payment adds its amount exactly
   * when it has the status.
   */
  lemma AmountWithStatusCons(ps: seq<Payment>, st: PaymentStatus)
    ensures ps == [] ==> AmountWithStatus(ps, st) == 0
    ensures ps != [] ==>
              AmountWithStatus(ps, st) ==
              (if ps[0].status == st then ps[0].amount else 0) + AmountWithStatus(ps[1..], st)
  {
  }

  /** A status total over two lists joined is the sum of their totals. */
  lemma AmountWithStatusAppend(a: seq<Payment>, b: seq<Payment>, st: PaymentStatus)
    ensures AmountWithStatus(a + b, st) == AmountWithStatus(a, st) + AmountWithStatus(b, st)
  {
    FilterAppend(a, b, HasStatus(st));
    SumAmountsAppend(Filter(a, HasStatus(st)), Filter(b, HasStatus(st)));
  }

  /**
   * Every payment is counted in exactly one status total: paid, pending
   * and overdue together make up the whole amount, so a pending payment
   * adds to neither the paid nor the overdue total.
   */
  lemma {:induction false} StatusTotalsPartition(ps: seq<Payment>)
    ensures AmountWithStatus(ps, Paid) + AmountWithStatus(ps, Pending) +
            AmountWithStatus(ps, Overdue) == SumAmounts(ps)
  {
    if ps != [] {
      AmountWithStatusCons(ps, Paid);
      AmountWithStatusCons(ps, Pending);
      AmountWithStatusCons(ps, Overdue);
      StatusTotalsPartition(ps[1..]);
    }
  }

  /**
   * A status total is positive exactly when some payment with that status
   * has a positive amount (amounts are never negative).
   */
  lemma {:induction false} AmountWithStatusPositive(ps: seq<Payment>, st: PaymentStatus)
    ensures AmountWithStatus(ps, st) > 0 <==>
            exists i :: 0 <= i < |ps| && ps[i].status == st && ps[i].amount > 0
  {
    if ps != [] {
      AmountWithStatusCons(ps, st);
      AmountWithStatusPositive(ps[1..], st);
      if exists i :: 0 <= i < |ps[1..]| && ps[1..][i].status == st && ps[1..][i].amount > 0 {
        var i :| 0 <= i < |ps[1..]| && ps[1..][i].status == st && ps[1..][i].amount > 0;
        assert ps[i + 1] == ps[1..][i];
      }
      if exists i :: 0 <= i < |ps| && ps[i].status == st && ps[i].amount > 0 {
        var i :| 0 <= i < |ps| && ps[i].status == st && ps[i].amount > 0;
        if i > 0 {
          assert ps[1..][i - 1] == ps[i];
        }
      }
    }
  }
}
