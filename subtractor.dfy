// The reconciler's settle step: a second copy of the batch update that turns
// every hold into a balance reduction. The loop that calls it on a timer is
// not modelled.

module Subtractor {
  import opened Store

  /** subtract: one transaction running
      `UPDATE client SET balance = balance - hold, hold = 0` on every row. */
  method Subtract(ledger: Ledger)
    requires ledger.Valid()
    modifies ledger
    ensures ledger.Valid()
    ensures ledger.rows == SettleAll(old(ledger.rows))
    ensures ledger.rows.Keys == old(ledger.rows).Keys
    ensures forall k :: k in old(ledger.rows) ==>
              && ledger.rows[k].balance == old(ledger.rows)[k].balance - old(ledger.rows)[k].hold
              && ledger.rows[k].hold == 0
              && ledger.rows[k].isOpen == old(ledger.rows)[k].isOpen
  {
    ledger.rows := map k | k in ledger.rows :: ledger.rows[k].(balance := ledger.rows[k].balance - ledger.rows[k].hold, hold := 0);
  }
}
