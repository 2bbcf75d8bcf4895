// The `client` table shared by the request handlers and the reconciler:
// one row per account, keyed by its id.

module Store {

  /** The uuid of a client in its canonical text form (lower case, hyphenated),
      as the uuid codec hands it out; ids are compared as exact strings. */
  type Id = string

  /** One row of the `client` table. Amounts are in kopecks. */
  datatype Account = Account(id: Id, name: string, balance: int, hold: int, isOpen: bool)
  {
    /** The money that may still be held: `balance - hold`. */
    function Available(): int { balance - hold }
  }

  type Table = map<Id, Account>

  /** Every row is stored under its own id (the primary key). */
  predicate WellKeyed(t: Table)
  {
    forall k :: k in t ==> t[k].id == k
  }

  /** No row holds a negative amount. */
  predicate HoldsNonNegative(t: Table)
  {
    forall k :: k in t ==> t[k].hold >= 0
  }

  /** No row has held more than its balance. */
  predicate NoOverdraft(t: Table)
  {
    forall k :: k in t ==> t[k].Available() >= 0
  }

  /** Every hold has been settled. */
  predicate AllSettled(t: Table)
  {
    forall k :: k in t ==> t[k].hold == 0
  }

  /** SQL `GREATEST(a, b)`. */
  function Greatest(a: int, b: int): (r: int)
    ensures r >= a && r >= b
    ensures r == a || r == b
  {
    if a >= b then a else b
  }

  /** `UPDATE client SET balance = balance - hold, hold = 0` with no WHERE clause:
      every row, open or closed, has its hold turned into a balance reduction. */
  function SettleAll(t: Table): (r: Table)
    ensures r.Keys == t.Keys
    ensures AllSettled(r)
    ensures forall k :: k in t ==>
              && r[k].Available() == t[k].Available()
              && r[k].id == t[k].id
              && r[k].name == t[k].name
              && r[k].isOpen == t[k].isOpen
  {
    map k | k in t :: t[k].(balance := t[k].balance - t[k].hold, hold := 0)
  }

  /** A second settle right after the first finds every hold at 0 and changes nothing. */
  lemma SettleAllIdempotent(t: Table)
    ensures SettleAll(SettleAll(t)) == SettleAll(t)
  {
    SettledTableIsFixedPoint(SettleAll(t));
  }

  /** Settling a table whose holds are all 0 leaves it exactly as it was. */
  lemma SettledTableIsFixedPoint(t: Table)
    requires AllSettled(t)
    ensures SettleAll(t) == t
  {
    var s := SettleAll(t);
    forall k | k in t
      ensures s[k] == t[k]
    {
      assert s[k].balance == t[k].balance - t[k].hold;
    }
  }

  /** Settling keeps the primary key intact and can only lower or keep a balance
      when holds are non-negative. */
  lemma SettleAllKeepsInvariants(t: Table)
    ensures WellKeyed(t) ==> WellKeyed(SettleAll(t))
    ensures HoldsNonNegative(SettleAll(t))
    ensures NoOverdraft(t) ==> NoOverdraft(SettleAll(t))
    ensures HoldsNonNegative(t) ==> forall k :: k in t ==> SettleAll(t)[k].balance <= t[k].balance
  {
  }

  /** The store the handlers and the reconciler both work on. */
  class Ledger {
    var rows: Table

    ghost predicate Valid()
      reads this
    {
      WellKeyed(rows)
    }

    constructor (rows: Table)
      requires WellKeyed(rows)
      ensures Valid() && this.rows == rows
    {
      this.rows := rows;
    }
  }
}
