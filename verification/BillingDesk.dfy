/** The billing endpoints in the shape of the source: rows are added, subscription fields and settings assigned. */
module BillingDeskClass {
  import opened Wrappers
  import opened CreditLedger

  class BillingDesk {
    var ledger: seq<Entry>
    var subs: seq<Subscription>
    var settings: map<nat, string>

    function Snapshot(): State
      reads this
    {
      State(ledger, subs, settings)
    }

    constructor ()
      ensures Snapshot() == Run([])
    {
      ledger, subs, settings := [], [], map[];
    }

    method AppendCreditEntry(a: Account, amount: int, reason: Reason)
      modifies this`ledger
      ensures ledger == Append(old(ledger), a, amount, reason)
    {
      var balance := Balance(ledger, a);
      ledger := ledger + [Entry(a, amount, balance + amount, reason)];
    }

    method EnsureSubscription(a: Account) returns (sub: nat)
      modifies this
      ensures Snapshot() == Ensure(old(Snapshot()), a)
      ensures SubOf(subs, a) == Some(sub)
    {
      var current := SubOf(subs, a);
      if current.Some? {
        return current.value;
      }
      var plan := PlanOf(settings, a.user);
      subs := subs + [Subscription(a, plan)];
      sub := |subs| - 1;
      if Balance(ledger, a) == 0 {
        AppendCreditEntry(a, Credits(plan), InitialAllowance);
      }
    }

    method UpdateSubscription(a: Account, plan: Plan)
      modifies this
      ensures Snapshot() == Step(old(Snapshot()), Update(a, plan)).0
    {
      var i := EnsureSubscription(a);
      var oldPlan := subs[i].plan;
      subs := subs[i := subs[i].(plan := plan)];
      settings := settings[a.user := PlanText(plan)];
      if oldPlan != plan {
        AppendCreditEntry(a, Credits(plan), PlanAllowance);
      }
    }

    method ConsumeCredits(a: Account, amount: int, reason: string) returns (answer: Answer)
      modifies this
      ensures (Snapshot(), answer) == Step(old(Snapshot()), Consume(a, amount, reason))
    {
      if !(0 < amount <= 100000 && 1 <= |reason| <= 80) {
        return Rejected;
      }
      var _ := EnsureSubscription(a);
      var balance := Balance(ledger, a);
      if balance < amount {
        return Insufficient;
      }
      AppendCreditEntry(a, 0 - amount, Given(reason));
      answer := Done;
    }

    method PurchaseSkill(user: nat, price: nat) returns (answer: Answer)
      modifies this
      ensures (Snapshot(), answer) == Step(old(Snapshot()), Purchase(user, price))
    {
      var a := Account(user, None);
      var _ := EnsureSubscription(a);
      var balance := Balance(ledger, a);
      if balance < price {
        return Insufficient;
      }
      if price != 0 {
        AppendCreditEntry(a, 0 - price, SkillPurchase);
      }
      answer := Done;
    }
  }
}
