// What the current queries keep true of the table over any run of requests
// interleaved with settles. Each query commits or rolls back as a whole and
// the store serialises them, so a run is a sequence of single steps.

module History {
  import opened Store
  import Queries

  datatype Op =
    | Add(id: Id, howMuch: int)
    | Subtract(id: Id, howMuch: int)
    | Status(id: Id)
    | UnholdAll

  /** The table after one committed or rolled-back query. */
  function Apply(t: Table, op: Op): Table
  {
    match op
    case Add(id, howMuch) => Queries.Add(t, id, howMuch).after
    case Subtract(id, howMuch) => Queries.Subtract(t, id, howMuch).after
    case Status(_) => t
    case UnholdAll => SettleAll(t)
  }

  function Run(t: Table, ops: seq<Op>): Table
    decreases |ops|
  {
    if ops == [] then t else Run(Apply(t, ops[0]), ops[1..])
  }

  /** One step keeps every account and every row's primary key. */
  lemma ApplyKeepsAccounts(t: Table, op: Op)
    ensures Apply(t, op).Keys == t.Keys
    ensures WellKeyed(t) ==> WellKeyed(Apply(t, op))
  {
  }

  /** Accounts are neither created nor dropped, and stay under their ids. */
  lemma {:induction false} RunKeepsAccounts(t: Table, ops: seq<Op>)
    ensures Run(t, ops).Keys == t.Keys
    ensures WellKeyed(t) ==> WellKeyed(Run(t, ops))
    decreases |ops|
  {
    if ops != [] {
      ApplyKeepsAccounts(t, ops[0]);
      RunKeepsAccounts(Apply(t, ops[0]), ops[1..]);
    }
  }

  /** Holds only grow by clamped amounts and are reset to 0 by a settle. */
  lemma {:induction false} RunKeepsHoldsNonNegative(t: Table, ops: seq<Op>)
    requires HoldsNonNegative(t)
    ensures HoldsNonNegative(Run(t, ops))
    decreases |ops|
  {
    if ops != [] {
      var next := Apply(t, ops[0]);
      assert HoldsNonNegative(next) by {
        if ops[0].UnholdAll? { SettleAllKeepsInvariants(t); }
      }
      RunKeepsHoldsNonNegative(next, ops[1..]);
    }
  }

  /** A table in which no account has held more than its balance stays so:
      a top-up raises the balance, a hold is refused past the balance, and a
      settle keeps `balance - hold`. */
  lemma {:induction false} RunKeepsNoOverdraft(t: Table, ops: seq<Op>)
    requires NoOverdraft(t)
    ensures NoOverdraft(Run(t, ops))
    decreases |ops|
  {
    if ops != [] {
      var next := Apply(t, ops[0]);
      assert NoOverdraft(next) by {
        if ops[0].UnholdAll? { SettleAllKeepsInvariants(t); }
      }
      RunKeepsNoOverdraft(next, ops[1..]);
    }
  }

  /** Between two settles, a closed account does not change at all. */
  lemma {:induction false} ClosedAccountUnchangedWithoutSettle(t: Table, ops: seq<Op>, k: Id)
    requires k in t && !t[k].isOpen
    requires forall i :: 0 <= i < |ops| ==> !ops[i].UnholdAll?
    ensures k in Run(t, ops) && Run(t, ops)[k] == t[k]
    decreases |ops|
  {
    if ops != [] {
      var next := Apply(t, ops[0]);
      Queries.ClosedAccountIsFrozen(t, ops[0].id, if ops[0].Status? then 0 else ops[0].howMuch, k);
      assert next[k] == t[k];
      ClosedAccountUnchangedWithoutSettle(next, ops[1..], k);
    }
  }

  /** Without a settle, no balance ever goes down: only a settle realises holds. */
  lemma {:induction false} BalancesOnlyFallAtSettle(t: Table, ops: seq<Op>, k: Id)
    requires k in t
    requires forall i :: 0 <= i < |ops| ==> !ops[i].UnholdAll?
    ensures k in Run(t, ops) && Run(t, ops)[k].balance >= t[k].balance
    decreases |ops|
  {
    if ops != [] {
      var next := Apply(t, ops[0]);
      BalancesOnlyFallAtSettle(next, ops[1..], k);
    }
  }
}
