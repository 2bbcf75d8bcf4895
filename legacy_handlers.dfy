// The earlier request handlers, which run their own UPDATEs against the
// `client` table: an unclamped top-up with no open check, and a subtract that
// moves money from the balance to the hold at once.

module LegacyHandlers {
  import opened Store

  /** What the handler answers: the row as JSON, HTTPNotFound (404) or
      HTTPPaymentRequired (402). */
  datatype Response = Ok(row: Account) | HttpNotFound | HttpPaymentRequired

  datatype Step = Step(response: Response, after: Table)

  /** add: `balance = balance + how_much` on the row with this id, open or closed. */
  function Add(t: Table, id: Id, howMuch: int): (s: Step)
    ensures s.after.Keys == t.Keys
    ensures s.response.Ok? <==> id in t
    ensures !s.response.Ok? ==> s.response == HttpNotFound && s.after == t
    ensures s.response.Ok? ==>
              && s.after[id] == s.response.row
              && s.response.row.balance - t[id].balance == howMuch
              && s.response.row.hold == t[id].hold
              && s.response.row.id == t[id].id
              && s.response.row.name == t[id].name
              && s.response.row.isOpen == t[id].isOpen
    ensures forall k :: k in t && k != id ==> s.after[k] == t[k]
  {
    if id in t then
      var row := t[id].(balance := t[id].balance + howMuch);
      Step(Ok(row), t[id := row])
    else
      Step(HttpNotFound, t)
  }

  /** subtract: `balance = balance - how_much, hold = hold + how_much` on the row
      with this id; a negative resulting balance raises HTTPPaymentRequired, which
      unwinds the transaction. */
  function Subtract(t: Table, id: Id, howMuch: int): (s: Step)
    ensures s.after.Keys == t.Keys
    ensures s.response == HttpNotFound <==> id !in t
    ensures s.response == HttpPaymentRequired <==> id in t && t[id].balance < howMuch
    ensures !s.response.Ok? ==> s.after == t
    ensures s.response.Ok? ==>
              && id in t
              && s.after[id] == s.response.row
              && s.response.row.balance >= 0
              && t[id].balance - s.response.row.balance == howMuch
              && s.response.row.hold - t[id].hold == howMuch
              && s.response.row.balance + s.response.row.hold == t[id].balance + t[id].hold
              && s.response.row.id == t[id].id
              && s.response.row.name == t[id].name
              && s.response.row.isOpen == t[id].isOpen
    ensures forall k :: k in t && k != id ==> s.after[k] == t[k]
  {
    if id in t then
      var row := t[id].(balance := t[id].balance - howMuch, hold := t[id].hold + howMuch);
      if row.balance < 0 then Step(HttpPaymentRequired, t)
      else Step(Ok(row), t[id := row])
    else
      Step(HttpNotFound, t)
  }

  /** status: the row with this id or HTTPNotFound. */
  function Status(t: Table, id: Id): (r: Response)
    ensures r.Ok? <==> id in t
    ensures r.Ok? ==> r.row == t[id]
    ensures !r.Ok? ==> r == HttpNotFound
  {
    if id in t then Ok(t[id]) else HttpNotFound
  }

  method HandleAdd(ledger: Ledger, id: Id, howMuch: int) returns (r: Response)
    requires ledger.Valid()
    modifies ledger
    ensures ledger.Valid()
    ensures Step(r, ledger.rows) == Add(old(ledger.rows), id, howMuch)
    ensures r.Ok? ==> r.row.id == id
  {
    if id !in ledger.rows {
      return HttpNotFound;
    }
    var row := ledger.rows[id];
    row := row.(balance := row.balance + howMuch);
    ledger.rows := ledger.rows[id := row];
    r := Ok(row);
  }

  method HandleSubtract(ledger: Ledger, id: Id, howMuch: int) returns (r: Response)
    requires ledger.Valid()
    modifies ledger
    ensures ledger.Valid()
    ensures Step(r, ledger.rows) == Subtract(old(ledger.rows), id, howMuch)
    ensures r.Ok? ==> r.row.id == id
    ensures !r.Ok? ==> ledger.rows == old(ledger.rows)
  {
    if id !in ledger.rows {
      return HttpNotFound;
    }
    var before := ledger.rows;
    var row := ledger.rows[id];
    row := row.(balance := row.balance - howMuch, hold := row.hold + howMuch);
    ledger.rows := ledger.rows[id := row];
    if row.balance < 0 {
      // HTTPPaymentRequired leaves the transaction block: roll back
      ledger.rows := before;
      return HttpPaymentRequired;
    }
    r := Ok(row);
  }

  method HandleStatus(ledger: Ledger, id: Id) returns (r: Response)
    requires ledger.Valid()
    ensures r == Status(ledger.rows, id)
    ensures r.Ok? ==> r.row.id == id
  {
    if id !in ledger.rows {
      return HttpNotFound;
    }
    r := Ok(ledger.rows[id]);
  }

  /** Without the clamp, a negative amount passes the balance check and lowers the
      hold: starting from a zero hold it leaves the hold negative. */
  lemma NegativeSubtractLowersHold(t: Table, id: Id, howMuch: int)
    requires id in t && howMuch < 0 && t[id].balance >= 0
    ensures Subtract(t, id, howMuch).response.Ok?
    ensures Subtract(t, id, howMuch).after[id].hold < t[id].hold
    ensures t[id].hold == 0 ==> Subtract(t, id, howMuch).after[id].hold < 0
  {
  }

  /** Without the open check, a closed account takes top-ups and holds alike. */
  lemma ClosedAccountIsWritable(t: Table, id: Id, howMuch: int)
    requires id in t && !t[id].isOpen && howMuch != 0
    ensures Add(t, id, howMuch).after[id] != t[id]
    ensures t[id].balance >= howMuch ==> Subtract(t, id, howMuch).after[id] != t[id]
  {
  }
}
