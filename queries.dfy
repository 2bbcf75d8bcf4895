// The ledger queries the current request handlers run, each in its own
// transaction: top up a balance, put money on hold, read a row, and settle
// every hold into its balance.

module Queries {
  import opened Store

  /** What a query hands back: the row as RETURNING * gives it, no row at all
      (the account is missing or closed), or NotEnoughMoneyError. */
  datatype Reply = Found(row: Account) | NotFound | NotEnoughMoney

  /** A reply together with the table as the transaction leaves it. */
  datatype Step = Step(reply: Reply, after: Table)

  /** query_add: `balance = balance + GREATEST(0, how_much)` on the open row with this id. */
  function Add(t: Table, id: Id, howMuch: int): (s: Step)
    ensures s.after.Keys == t.Keys
    ensures s.reply.Found? <==> id in t && t[id].isOpen
    ensures !s.reply.Found? ==> s.reply == NotFound && s.after == t
    ensures s.reply.Found? ==>
              && s.after[id] == s.reply.row
              && s.reply.row.balance == t[id].balance + (if howMuch > 0 then howMuch else 0)
              && s.reply.row.hold == t[id].hold
              && s.reply.row.id == t[id].id
              && s.reply.row.name == t[id].name
              && s.reply.row.isOpen
    ensures forall k :: k in t && k != id ==> s.after[k] == t[k]
  {
    if id in t && t[id].isOpen then
      var row := t[id].(balance := t[id].balance + Greatest(0, howMuch));
      Step(Found(row), t[id := row])
    else
      Step(NotFound, t)
  }

  /** query_subtract: `hold = hold + GREATEST(0, how_much)` on the open row with this id;
      if the updated row has `balance - hold < 0` the error unwinds the transaction. */
  function Subtract(t: Table, id: Id, howMuch: int): (s: Step)
    ensures s.after.Keys == t.Keys
    ensures s.reply == NotFound <==> !(id in t && t[id].isOpen)
    ensures s.reply == NotEnoughMoney <==>
              id in t && t[id].isOpen && t[id].balance - (t[id].hold + (if howMuch > 0 then howMuch else 0)) < 0
    ensures !s.reply.Found? ==> s.after == t
    ensures s.reply.Found? ==>
              && id in t
              && s.after[id] == s.reply.row
              && s.reply.row.balance == t[id].balance
              && s.reply.row.hold == t[id].hold + (if howMuch > 0 then howMuch else 0)
              && s.reply.row.Available() >= 0
              && s.reply.row.id == t[id].id
              && s.reply.row.name == t[id].name
              && s.reply.row.isOpen
    ensures forall k :: k in t && k != id ==> s.after[k] == t[k]
  {
    if id in t && t[id].isOpen then
      var row := t[id].(hold := t[id].hold + Greatest(0, howMuch));
      if row.balance - row.hold < 0 then Step(NotEnoughMoney, t)
      else Step(Found(row), t[id := row])
    else
      Step(NotFound, t)
  }

  /** query_status: `SELECT * FROM client WHERE id = $1`, open or closed. */
  function Status(t: Table, id: Id): (r: Reply)
    ensures r.Found? <==> id in t
    ensures r.Found? ==> r.row == t[id]
    ensures !r.Found? ==> r == NotFound
  {
    if id in t then Found(t[id]) else NotFound
  }

  method QueryAdd(ledger: Ledger, id: Id, howMuch: int) returns (r: Reply)
    requires ledger.Valid()
    modifies ledger
    ensures ledger.Valid()
    ensures Step(r, ledger.rows) == Add(old(ledger.rows), id, howMuch)
    ensures r.Found? ==> r.row.id == id
  {
    if id in ledger.rows && ledger.rows[id].isOpen {
      var row := ledger.rows[id];
      row := row.(balance := row.balance + Greatest(0, howMuch));
      ledger.rows := ledger.rows[id := row];
      r := Found(row);
    } else {
      r := NotFound;
    }
  }

  method QuerySubtract(ledger: Ledger, id: Id, howMuch: int) returns (r: Reply)
    requires ledger.Valid()
    modifies ledger
    ensures ledger.Valid()
    ensures Step(r, ledger.rows) == Subtract(old(ledger.rows), id, howMuch)
    ensures r.Found? ==> r.row.id == id
    ensures !r.Found? ==> ledger.rows == old(ledger.rows)
  {
    var before := ledger.rows;
    if id in ledger.rows && ledger.rows[id].isOpen {
      var row := ledger.rows[id];
      row := row.(hold := row.hold + Greatest(0, howMuch));
      ledger.rows := ledger.rows[id := row];
      if row.balance - row.hold < 0 {
        // NotEnoughMoneyError leaves the transaction block: roll back
        ledger.rows := before;
        r := NotEnoughMoney;
      } else {
        r := Found(row);
      }
    } else {
      r := NotFound;
    }
  }

  method QueryStatus(ledger: Ledger, id: Id) returns (r: Reply)
    requires ledger.Valid()
    ensures r == Status(ledger.rows, id)
    ensures r.Found? ==> r.row.id == id
  {
    if id in ledger.rows {
      r := Found(ledger.rows[id]);
    } else {
      r := NotFound;
    }
  }

  method QueryUnholdAll(ledger: Ledger)
    requires ledger.Valid()
    modifies ledger
    ensures ledger.Valid()
    ensures ledger.rows == SettleAll(old(ledger.rows))
  {
    ledger.rows := map k | k in ledger.rows :: ledger.rows[k].(balance := ledger.rows[k].balance - ledger.rows[k].hold, hold := 0);
  }

  /** A zero or negative amount is clamped away: the table stays as it was, and
      an open account still gets its row back. */
  lemma NonPositiveAmountIsNoOp(t: Table, id: Id, howMuch: int)
    requires howMuch <= 0
    ensures Add(t, id, howMuch).after == t
    ensures Subtract(t, id, howMuch).after == t
    ensures Add(t, id, howMuch) == Add(t, id, 0)
    ensures Subtract(t, id, howMuch) == Subtract(t, id, 0)
    ensures id in t && t[id].isOpen ==> Add(t, id, howMuch).reply == Found(t[id])
  {
    if id in t && t[id].isOpen {
      assert t[id := t[id]] == t;
    }
  }

  /** The sufficiency check looks at the row after the update, not at the
      amount: an open account already holding more than its balance refuses
      even a zero hold. */
  lemma OverHeldAccountRefusesEveryHold(t: Table, id: Id, howMuch: int)
    requires id in t && t[id].isOpen && t[id].Available() < 0
    ensures Subtract(t, id, howMuch).reply == NotEnoughMoney
    ensures Subtract(t, id, howMuch).after == t
  {
  }

  /** Closed accounts are never written by Add or Subtract. */
  lemma ClosedAccountIsFrozen(t: Table, id: Id, howMuch: int, k: Id)
    requires k in t && !t[k].isOpen
    ensures Add(t, id, howMuch).after[k] == t[k]
    ensures Subtract(t, id, howMuch).after[k] == t[k]
  {
  }

  /** A hold is a deferred charge: the next settle takes exactly the held amount
      off the balance, on top of what the settle would have taken anyway. A
      top-up reaches the settled balance unchanged. */
  lemma SettleChargesWhatWasHeld(t: Table, id: Id, howMuch: int)
    requires id in t && t[id].isOpen
    ensures Subtract(t, id, howMuch).reply.Found? ==>
              SettleAll(Subtract(t, id, howMuch).after)[id].balance
                == SettleAll(t)[id].balance - Greatest(0, howMuch)
    ensures SettleAll(Add(t, id, howMuch).after)[id].balance
              == SettleAll(t)[id].balance + Greatest(0, howMuch)
  {
  }
}
