// The fixture of the ledger query tests, replayed on the model: four seed
// accounts, the last one closed.

module Scenarios {
  import opened Store
  import Queries

  const Petrov: Id := "26c940a1-7228-4ea2-a3bc-e6460b172040"
  const Kazitsky: Id := "7badc8f8-65bc-449a-8cde-855234ac63e1"
  const Parkhomenko: Id := "5597cc3d-c948-48a0-b711-393edf20d9c0"
  const Petechkin: Id := "867f0924-a917-4711-939b-90b179a96392"
  const Nobody: Id := "00000000-0000-0000-0000-000000000000"

  /** The rows the test fixture inserts; the last account is closed. */
  function Seed(): (t: Table)
    ensures WellKeyed(t) && HoldsNonNegative(t)
  {
    map[
      Petrov := Account(Petrov, "Петров Иван Сергеевич", 1700, 300, true),
      Kazitsky := Account(Kazitsky, "Kazitsky Jason", 200, 200, true),
      Parkhomenko := Account(Parkhomenko, "Пархоменко Антон Александрович", 10, 300, true),
      Petechkin := Account(Petechkin, "Петечкин Петр Измаилович", 1000000, 1, false)
    ]
  }

  lemma StatusOnSeed()
    ensures Queries.Status(Seed(), Nobody) == Queries.NotFound
    ensures Queries.Status(Seed(), Petrov) == Queries.Found(Account(Petrov, "Петров Иван Сергеевич", 1700, 300, true))
  {
  }

  lemma AddOnSeed()
    ensures Queries.Add(Seed(), Nobody, 1000).reply == Queries.NotFound
    ensures Queries.Add(Seed(), Petrov, 0).reply == Queries.Found(Seed()[Petrov])
    ensures Queries.Add(Seed(), Petrov, -1000).reply == Queries.Found(Seed()[Petrov])
    ensures Queries.Add(Seed(), Petrov, 1000).reply.row.balance == 2700
    ensures Queries.Add(Seed(), Petrov, 1000).reply.row.hold == 300
    ensures Queries.Add(Seed(), Petechkin, 1000) == Queries.Step(Queries.NotFound, Seed())
  {
  }

  lemma SubtractOnSeed()
    ensures Queries.Subtract(Seed(), Nobody, 1000).reply == Queries.NotFound
    ensures Queries.Subtract(Seed(), Petrov, 0).reply == Queries.Found(Seed()[Petrov])
    ensures Queries.Subtract(Seed(), Petrov, -1000).reply == Queries.Found(Seed()[Petrov])
    ensures Queries.Subtract(Seed(), Petrov, 2000) == Queries.Step(Queries.NotEnoughMoney, Seed())
    ensures Queries.Subtract(Seed(), Petrov, 100).reply.row.balance == 1700
    ensures Queries.Subtract(Seed(), Petrov, 100).reply.row.hold == 400
    ensures Queries.Subtract(Seed(), Petechkin, 1000) == Queries.Step(Queries.NotFound, Seed())
  {
  }

  /** A settle of the seed rows, closed account included; one balance goes negative. */
  lemma UnholdAllOnSeed()
    ensures SettleAll(Seed())[Petrov].balance == 1400
    ensures SettleAll(Seed())[Kazitsky].balance == 0
    ensures SettleAll(Seed())[Parkhomenko].balance == -290
    ensures SettleAll(Seed())[Petechkin].balance == 999999
    ensures AllSettled(SettleAll(Seed()))
  {
    var t := Seed();
    assert t[Petrov].Available() == 1400;
    assert t[Kazitsky].Available() == 0;
    assert t[Parkhomenko].Available() == -290;
    assert t[Petechkin].Available() == 999999;
  }
}
