/** Credits: one append-only ledger shared by every account, where an account is a user in one workspace or in none. */
module CreditLedger {
  import opened Wrappers

  datatype Account = Account(user: nat, workspace: Option<nat>)

  datatype Plan = Free | Pro | Team | Enterprise

  /** Who wrote a row and why. The row stores the text alone. */
  datatype Reason = InitialAllowance | PlanAllowance | SkillPurchase | Given(text: string)

  function ReasonText(r: Reason): string {
    match r
    case InitialAllowance => "initial_plan_allowance"
    case PlanAllowance => "plan_allowance"
    case SkillPurchase => "skill_marketplace_purchase"
    case Given(text) => text
  }

  datatype Entry = Entry(account: Account, amount: int, balanceAfter: int, reason: Reason)

  datatype Subscription = Subscription(account: Account, plan: Plan)

  /** `settings` holds the plan text in a user's settings, which is shared by all the user's workspaces. */
  datatype State = State(ledger: seq<Entry>, subs: seq<Subscription>, settings: map<nat, string>)

  datatype Op =
    | View(account: Account)
    | Update(account: Account, plan: Plan)
    | Consume(account: Account, amount: int, reason: string)
    | Purchase(user: nat, price: nat)
    | WriteSettings(user: nat, text: string)

  datatype Answer = Done | Rejected | Insufficient

  function Credits(plan: Plan): nat {
    match plan
    case Free => 100
    case Pro => 1000
    case Team => 5000
    case Enterprise => 20000
  }

  function PlanText(plan: Plan): string {
    match plan
    case Free => "free"
    case Pro => "pro"
    case Team => "team"
    case Enterprise => "enterprise"
  }

  /** A missing, empty or unknown plan counts as the free one. */
  function PlanOf(settings: map<nat, string>, user: nat): Plan {
    if user !in settings then Free
    else
      var t := settings[user];
      if t == "pro" then Pro else if t == "team" then Team else if t == "enterprise" then Enterprise else Free
  }

  function Sum(es: seq<Entry>): int {
    if es == [] then 0 else Sum(es[..|es| - 1]) + es[|es| - 1].amount
  }

  /** The rows of one account. */
  function Of(ledger: seq<Entry>, a: Account): seq<Entry> {
    if ledger == [] then []
    else
      var last := ledger[|ledger| - 1];
      Of(ledger[..|ledger| - 1], a) + if last.account == a then [last] else []
  }

  function Balance(ledger: seq<Entry>, a: Account): int { Sum(Of(ledger, a)) }

  function Row(ledger: seq<Entry>, a: Account, amount: int, reason: Reason): Entry {
    Entry(a, amount, Balance(ledger, a) + amount, reason)
  }

  function Append(ledger: seq<Entry>, a: Account, amount: int, reason: Reason): seq<Entry> {
    ledger + [Row(ledger, a, amount, reason)]
  }

  /** The account's subscription row, if it has one. */
  function SubOf(subs: seq<Subscription>, a: Account): Option<nat>
    ensures var r := SubOf(subs, a); if r.Some? then r.value < |subs| && subs[r.value].account == a else forall k :: 0 <= k < |subs| ==> subs[k].account != a
  {
    if subs == [] then None
    else if subs[|subs| - 1].account == a then Some(|subs| - 1)
    else SubOf(subs[..|subs| - 1], a)
  }

  function Ensure(s: State, a: Account): (r: State)
    ensures SubOf(r.subs, a).Some?
  {
    if SubOf(s.subs, a).Some? then s
    else
      var plan := PlanOf(s.settings, a.user);
      var subs := s.subs + [Subscription(a, plan)];
      s.(subs := subs, ledger := if Balance(s.ledger, a) == 0 then Append(s.ledger, a, Credits(plan), InitialAllowance) else s.ledger)
  }

  function Switch(s: State, a: Account, plan: Plan): State
    requires SubOf(s.subs, a).Some?
  {
    var i := SubOf(s.subs, a).value;
    s.(subs := s.subs[i := Subscription(a, plan)], settings := s.settings[a.user := PlanText(plan)],
       ledger := if s.subs[i].plan != plan then Append(s.ledger, a, Credits(plan), PlanAllowance) else s.ledger)
  }

  function ChangePlan(s: State, a: Account, plan: Plan): State { Switch(Ensure(s, a), a, plan) }

  function Charge(s: State, a: Account, amount: nat, reason: Reason): (State, Answer) {
    if Balance(s.ledger, a) < amount then (s, Insufficient)
    else (if amount == 0 then s else s.(ledger := Append(s.ledger, a, 0 - amount, reason)), Done)
  }

  function Spend(s: State, a: Account, amount: nat, reason: Reason): (State, Answer) { Charge(Ensure(s, a), a, amount, reason) }

  function Step(s: State, op: Op): (State, Answer) {
    match op
    case View(a) => (Ensure(s, a), Done)
    case Update(a, plan) => (ChangePlan(s, a, plan), Done)
    case Consume(a, amount, reason) =>
      if 0 < amount <= 100000 && 1 <= |reason| <= 80 then Spend(s, a, amount, Given(reason)) else (s, Rejected)
    case Purchase(user, price) => Spend(s, Account(user, None), price, SkillPurchase)
    case WriteSettings(user, text) => (s.(settings := s.settings[user := text]), Done)
  }

  function Run(ops: seq<Op>): State {
    if ops == [] then State([], [], map[]) else Step(Run(ops[..|ops| - 1]), ops[|ops| - 1]).0
  }

  function Target(op: Op): Option<Account> {
    match op
    case View(a) => Some(a)
    case Update(a, _) => Some(a)
    case Consume(a, _, _) => Some(a)
    case Purchase(user, _) => Some(Account(user, None))
    case WriteSettings(_, _) => None
  }

  // ----- One account's rows -----

  /** The kind of row that its reason makes it. */
  predicate Fits(e: Entry) {
    match e.reason
    case InitialAllowance => e.amount > 0
    case PlanAllowance => e.amount > 0
    case _ => e.amount < 0
  }

  /** Every row carries the sum so far, which is never negative; the first row, and no other, is the initial allowance. */
  predicate GoodRows(es: seq<Entry>) {
    es == []
    || (var n := |es| - 1;
        GoodRows(es[..n]) && es[n].balanceAfter == Sum(es) >= 0 && Fits(es[n]) && (es[n].reason.InitialAllowance? <==> n == 0))
  }

  lemma {:induction false} GoodRowsMean(es: seq<Entry>, k: nat)
    requires GoodRows(es) && k < |es|
    ensures es[k].balanceAfter == Sum(es[..k + 1]) >= 0 && Fits(es[k]) && (es[k].reason.InitialAllowance? <==> k == 0)
  {
    var n := |es| - 1;
    if k < n {
      GoodRowsMean(es[..n], k);
      assert es[..n][..k + 1] == es[..k + 1];
    } else {
      assert es[..k + 1] == es;
    }
  }

  predicate GoodAccount(s: State, a: Account) {
    GoodRows(Of(s.ledger, a)) && (SubOf(s.subs, a).Some? <==> Of(s.ledger, a) != [])
  }

  ghost predicate OneEach(s: State) {
    forall i, j :: 0 <= i < j < |s.subs| ==> s.subs[i].account != s.subs[j].account
  }

  ghost predicate Inv(s: State) {
    OneEach(s) && forall a :: GoodAccount(s, a)
  }

  lemma AppendRows(ledger: seq<Entry>, a: Account, amount: int, reason: Reason, b: Account)
    ensures Of(Append(ledger, a, amount, reason), b)
            == if a == b then Of(ledger, a) + [Row(ledger, a, amount, reason)] else Of(ledger, b)
  {
  }

  lemma AppendGood(es: seq<Entry>, e: Entry)
    requires GoodRows(es) && e.balanceAfter == Sum(es) + e.amount >= 0 && Fits(e) && (e.reason.InitialAllowance? <==> es == [])
    ensures GoodRows(es + [e])
  {
  }

  lemma {:induction false} SubReplaced(subs: seq<Subscription>, i: nat, sub: Subscription, b: Account)
    requires i < |subs| && subs[i].account == sub.account
    ensures SubOf(subs[i := sub], b) == SubOf(subs, b)
  {
    var n := |subs| - 1;
    if i < n {
      assert subs[i := sub][..n] == subs[..n][i := sub];
      SubReplaced(subs[..n], i, sub, b);
    } else {
      assert subs[i := sub][..n] == subs[..n];
    }
  }

  lemma EnsureGood(s: State, a: Account, b: Account)
    requires GoodAccount(s, a) && GoodAccount(s, b)
    ensures GoodAccount(Ensure(s, a), b)
  {
    if SubOf(s.subs, a).None? {
      var plan := PlanOf(s.settings, a.user);
      assert Balance(s.ledger, a) == 0;
      AppendRows(s.ledger, a, Credits(plan), InitialAllowance, b);
      AppendGood(Of(s.ledger, a), Row(s.ledger, a, Credits(plan), InitialAllowance));
    }
  }

  /** Adding a row that is no initial allowance and does not overdraw keeps every account good. */
  lemma AppendKeeps(s: State, a: Account, amount: int, reason: Reason, b: Account)
    requires GoodAccount(s, a) && GoodAccount(s, b) && SubOf(s.subs, a).Some?
    requires Balance(s.ledger, a) + amount >= 0 && !reason.InitialAllowance? && if reason.PlanAllowance? then amount > 0 else amount < 0
    ensures GoodAccount(s.(ledger := Append(s.ledger, a, amount, reason)), b)
  {
    AppendRows(s.ledger, a, amount, reason, b);
    AppendGood(Of(s.ledger, a), Row(s.ledger, a, amount, reason));
  }

  lemma ChangePlanGood(s: State, a: Account, plan: Plan, b: Account)
    requires GoodAccount(s, a) && GoodAccount(s, b)
    ensures GoodAccount(ChangePlan(s, a, plan), b)
  {
    EnsureGood(s, a, a);
    EnsureGood(s, a, b);
    SwitchGood(Ensure(s, a), a, plan, b);
  }

  lemma SwitchGood(s: State, a: Account, plan: Plan, b: Account)
    requires GoodAccount(s, a) && GoodAccount(s, b) && SubOf(s.subs, a).Some?
    ensures GoodAccount(Switch(s, a, plan), b)
  {
    PlanSwitchGood(s, a, Subscription(a, plan), b);
    if s.subs[SubOf(s.subs, a).value].plan != plan {
      AppendKeeps(s, a, Credits(plan), PlanAllowance, b);
    }
  }

  lemma PlanSwitchGood(s: State, a: Account, sub: Subscription, b: Account)
    requires SubOf(s.subs, a).Some? && sub.account == a
    ensures SubOf(s.subs[SubOf(s.subs, a).value := sub], b) == SubOf(s.subs, b)
  {
    SubReplaced(s.subs, SubOf(s.subs, a).value, sub, b);
  }

  lemma SpendGood(s: State, a: Account, amount: nat, reason: Reason, b: Account)
    requires reason.Given? || reason.SkillPurchase?
    requires GoodAccount(s, a) && GoodAccount(s, b)
    ensures GoodAccount(Spend(s, a, amount, reason).0, b)
  {
    EnsureGood(s, a, a);
    EnsureGood(s, a, b);
    ChargeGood(Ensure(s, a), a, amount, reason, b);
  }

  lemma ChargeGood(s: State, a: Account, amount: nat, reason: Reason, b: Account)
    requires reason.Given? || reason.SkillPurchase?
    requires GoodAccount(s, a) && GoodAccount(s, b) && SubOf(s.subs, a).Some?
    ensures GoodAccount(Charge(s, a, amount, reason).0, b)
  {
    if 0 < amount <= Balance(s.ledger, a) {
      AppendKeeps(s, a, 0 - amount, reason, b);
    }
  }

  lemma StepKeepsAccount(s: State, op: Op, b: Account)
    requires Inv(s)
    ensures GoodAccount(Step(s, op).0, b)
  {
    assert GoodAccount(s, b);
    if Target(op).Some? {
      var a := Target(op).value;
      assert GoodAccount(s, a);
      match op
      case View(_) => EnsureGood(s, a, b);
      case Update(_, plan) => ChangePlanGood(s, a, plan, b);
      case Consume(_, amount, reason) =>
        if Step(s, op).1 != Rejected {
          SpendGood(s, a, amount, Given(reason), b);
        }
      case Purchase(_, price) => SpendGood(s, a, price, SkillPurchase, b);
    }
  }

  lemma StepKeepsInv(s: State, op: Op)
    requires Inv(s)
    ensures Inv(Step(s, op).0)
  {
    forall b ensures GoodAccount(Step(s, op).0, b) {
      StepKeepsAccount(s, op, b);
    }
    StepKeepsOneEach(s, op);
  }

  lemma StepKeepsOneEach(s: State, op: Op)
    requires OneEach(s)
    ensures OneEach(Step(s, op).0)
  {
    if Target(op).Some? {
      EnsureOneEach(s, Target(op).value);
    }
  }

  lemma EnsureOneEach(s: State, a: Account)
    requires OneEach(s)
    ensures OneEach(Ensure(s, a))
  {
  }

  lemma {:induction false} RunKeepsInv(ops: seq<Op>)
    ensures Inv(Run(ops))
  {
    if ops != [] {
      RunKeepsInv(ops[..|ops| - 1]);
      StepKeepsInv(Run(ops[..|ops| - 1]), ops[|ops| - 1]);
    }
  }

  // ----- What follows for every run -----

  /** The k-th row of an account carries the sum of its first k amounts, and no account is ever overdrawn. */
  lemma BalancesAreRunningSums(ops: seq<Op>, a: Account, k: nat)
    requires k < |Of(Run(ops).ledger, a)|
    ensures var es := Of(Run(ops).ledger, a); es[k].balanceAfter == Sum(es[..k + 1]) >= 0
  {
    RunKeepsInv(ops);
    assert GoodAccount(Run(ops), a);
    GoodRowsMean(Of(Run(ops).ledger, a), k);
  }

  /** What the stored row shows of an initial allowance: its text, on an amount that is gained. */
  predicate ShowsInitial(e: Entry) { ReasonText(e.reason) == "initial_plan_allowance" && e.amount > 0 }

  /** An account with a subscription has one initial allowance, and it is its first row; one without has no rows. */
  lemma OneInitialAllowance(ops: seq<Op>, a: Account)
    ensures var es := Of(Run(ops).ledger, a);
      && (SubOf(Run(ops).subs, a).Some? <==> es != [])
      && forall k :: 0 <= k < |es| ==> (ShowsInitial(es[k]) <==> k == 0)
  {
    RunKeepsInv(ops);
    assert GoodAccount(Run(ops), a);
    var es := Of(Run(ops).ledger, a);
    forall k | 0 <= k < |es| ensures ShowsInitial(es[k]) <==> k == 0 {
      GoodRowsMean(es, k);
    }
  }

  /** The other account's rows and subscription are as they were, and no row is rewritten. */
  predicate Untouched(s: State, s': State, b: Account) {
    Of(s'.ledger, b) == Of(s.ledger, b) && SubOf(s'.subs, b) == SubOf(s.subs, b) && s.ledger <= s'.ledger
  }

  /** A request on one account changes no other. */
  lemma OthersUntouched(s: State, op: Op, b: Account)
    requires Target(op) != Some(b)
    ensures Untouched(s, Step(s, op).0, b)
  {
    match op
    case View(a) => EnsureUntouched(s, a, b);
    case Update(a, plan) => ChangeUntouched(s, a, plan, b);
    case Consume(a, amount, reason) =>
      if Step(s, op).1 != Rejected {
        SpendUntouched(s, a, amount, Given(reason), b);
      }
    case Purchase(user, price) => SpendUntouched(s, Account(user, None), price, SkillPurchase, b);
    case WriteSettings(_, _) =>
  }

  lemma ChangeUntouched(s: State, a: Account, plan: Plan, b: Account)
    requires a != b
    ensures Untouched(s, ChangePlan(s, a, plan), b)
  {
    var s1 := Ensure(s, a);
    EnsureUntouched(s, a, b);
    PlanSwitchGood(s1, a, Subscription(a, plan), b);
    AppendUntouched(s1, a, Credits(plan), PlanAllowance, b);
  }

  lemma SpendUntouched(s: State, a: Account, amount: nat, reason: Reason, b: Account)
    requires a != b
    ensures Untouched(s, Spend(s, a, amount, reason).0, b)
  {
    EnsureUntouched(s, a, b);
    AppendRows(Ensure(s, a).ledger, a, 0 - amount, reason, b);
  }

  lemma AppendUntouched(s: State, a: Account, amount: int, reason: Reason, b: Account)
    requires a != b
    ensures Untouched(s, s.(ledger := Append(s.ledger, a, amount, reason)), b)
  {
  }

  lemma EnsureUntouched(s: State, a: Account, b: Account)
    requires a != b
    ensures Untouched(s, Ensure(s, a), b)
  {
    if SubOf(s.subs, a).None? {
      var plan := PlanOf(s.settings, a.user);
      AppendUntouched(s, a, Credits(plan), InitialAllowance, b);
    }
  }

  /** What an account has to spend: its balance, or the initial allowance it is about to get. */
  function Available(s: State, a: Account): int {
    if SubOf(s.subs, a).Some? then Balance(s.ledger, a) else Credits(PlanOf(s.settings, a.user))
  }

  lemma EnsureAvailable(s: State, a: Account)
    requires GoodAccount(s, a)
    ensures Balance(Ensure(s, a).ledger, a) == Available(s, a)
  {
    var plan := PlanOf(s.settings, a.user);
    AppendRows(s.ledger, a, Credits(plan), InitialAllowance, a);
  }

  /** A payment goes through exactly when what is available covers it; otherwise nothing is charged. */
  lemma PaymentIff(ops: seq<Op>, a: Account, amount: nat, reason: Reason)
    ensures var s := Run(ops); var (s', answer) := Spend(s, a, amount, reason);
      && (answer.Done? <==> Available(s, a) >= amount)
      && Balance(s'.ledger, a) == Available(s, a) - if answer.Done? then amount else 0
  {
    RunKeepsInv(ops);
    assert GoodAccount(Run(ops), a);
    EnsureAvailable(Run(ops), a);
    ChargeRows(Ensure(Run(ops), a), a, amount, reason);
  }

  /** A charge that goes through adds its row to the account. */
  lemma ChargeRows(s: State, a: Account, amount: nat, reason: Reason)
    ensures var (s', answer) := Charge(s, a, amount, reason);
      && (answer.Done? <==> Balance(s.ledger, a) >= amount)
      && Of(s'.ledger, a) == Of(s.ledger, a) + (if answer.Done? && amount > 0 then [Row(s.ledger, a, 0 - amount, reason)] else [])
      && Balance(s'.ledger, a) == Balance(s.ledger, a) - if answer.Done? then amount else 0
  {
    AppendRows(s.ledger, a, 0 - amount, reason, a);
  }

  // ----- What each request does, in plain terms -----

  /** One more row of the account and of no other: this amount for this reason, with the balance that results. */
  predicate OneMoreRow(s: State, s': State, a: Account, amount: int, reason: Reason) {
    && |s'.ledger| == |s.ledger| + 1 && s.ledger <= s'.ledger
    && var e := s'.ledger[|s.ledger|];
       e.account == a && e.amount == amount && e.reason == reason && e.balanceAfter == Balance(s.ledger, a) + amount
  }

  /** What any request finds on its account: the rows as they are, or the initial allowance in front if there was no subscription. */
  predicate Prepared(s: State, s1: State, a: Account) {
    if SubOf(s.subs, a).Some? then s1 == s
    else
      && s1.subs == s.subs + [Subscription(a, PlanOf(s.settings, a.user))] && s1.settings == s.settings
      && OneMoreRow(s, s1, a, AllowanceOf(PlanOf(s.settings, a.user)), InitialAllowance)
  }

  /** The monthly credits of the catalogue. */
  function AllowanceOf(plan: Plan): nat {
    if plan == Free then 100 else if plan == Pro then 1000 else if plan == Team then 5000 else 20000
  }

  lemma EnsurePrepares(s: State, a: Account)
    requires GoodAccount(s, a)
    ensures Prepared(s, Ensure(s, a), a)
    ensures Balance(Ensure(s, a).ledger, a) == if SubOf(s.subs, a).Some? then Balance(s.ledger, a) else AllowanceOf(PlanOf(s.settings, a.user))
  {
    EnsureAvailable(s, a);
  }

  /** From an account prepared as s1: refused or free of charge, a payment leaves it so; any other adds its row and lowers the balance. */
  predicate PaidFrom(s1: State, s': State, answer: Answer, a: Account, amount: nat, reason: Reason) {
    && (answer == Done <==> Balance(s1.ledger, a) >= amount) && (answer != Done ==> answer == Insufficient)
    && s'.subs == s1.subs && s'.settings == s1.settings
    && (if answer == Done && amount > 0 then OneMoreRow(s1, s', a, 0 - amount, reason) else s'.ledger == s1.ledger)
    && Balance(s'.ledger, a) == Balance(s1.ledger, a) - if answer == Done then amount else 0
  }

  /** The new state and the answer are those of a payment. */
  ghost predicate Paid(s: State, r: (State, Answer), a: Account, amount: nat, reason: Reason) {
    exists s1 :: Prepared(s, s1, a) && PaidFrom(s1, r.0, r.1, a, amount, reason)
  }

  lemma ChargePays(s: State, a: Account, amount: nat, reason: Reason)
    ensures PaidFrom(s, Charge(s, a, amount, reason).0, Charge(s, a, amount, reason).1, a, amount, reason)
  {
    ChargeRows(s, a, amount, reason);
  }

  lemma SpendPays(s: State, a: Account, amount: nat, reason: Reason, r: (State, Answer))
    requires GoodAccount(s, a) && r == Spend(s, a, amount, reason)
    ensures Paid(s, r, a, amount, reason)
  {
    EnsurePrepares(s, a);
    ChargePays(Ensure(s, a), a, amount, reason);
  }

  lemma AccountIsGood(ops: seq<Op>, a: Account)
    ensures GoodAccount(Run(ops), a)
  {
    RunKeepsInv(ops);
  }

  /** The bounds of a consuming request. */
  predicate InBounds(amount: int, reason: string) { 1 <= amount <= 100000 && 1 <= |reason| <= 80 }

  /**
   Consuming credits: an amount outside 1 to 100000 or a reason outside 1 to 80 characters is rejected and changes nothing;
   any other request is a payment of that amount under that reason.
   */
  lemma ConsumePays(ops: seq<Op>, s: State, a: Account, amount: int, reason: string, r: (State, Answer))
    requires s == Run(ops) && r == Step(s, Consume(a, amount, reason))
    ensures if InBounds(amount, reason) then Paid(s, r, a, amount, Given(reason)) else r == (s, Rejected)
  {
    AccountIsGood(ops, a);
    if InBounds(amount, reason) {
      ConsumeSpends(s, a, amount, reason);
      SpendPays(s, a, amount, Given(reason), r);
    }
  }

  lemma ConsumeSpends(s: State, a: Account, amount: nat, reason: string)
    requires InBounds(amount, reason)
    ensures Step(s, Consume(a, amount, reason)) == Spend(s, a, amount, Given(reason))
  {
  }

  /** Buying a skill pays its price from the user's own account. */
  lemma PurchasePays(ops: seq<Op>, s: State, user: nat, price: nat, r: (State, Answer))
    requires s == Run(ops) && r == Step(s, Purchase(user, price))
    ensures Paid(s, r, Account(user, None), price, SkillPurchase)
  {
    AccountIsGood(ops, Account(user, None));
    PurchaseSpends(s, user, price);
    SpendPays(s, Account(user, None), price, SkillPurchase, r);
  }

  lemma PurchaseSpends(s: State, user: nat, price: nat)
    ensures Step(s, Purchase(user, price)) == Spend(s, Account(user, None), price, SkillPurchase)
  {
  }

  function TextOf(plan: Plan): string {
    if plan == Free then "free" else if plan == Pro then "pro" else if plan == Team then "team" else "enterprise"
  }

  /** A plan other than the free one is in force in the settings exactly if its text is stored there. */
  lemma PlanIsStored(settings: map<nat, string>, user: nat, plan: Plan)
    requires plan != Free
    ensures PlanOf(settings, user) == plan <==> user in settings && settings[user] == TextOf(plan)
  {
    assert "pro"[0] != "team"[0] && "pro"[0] != "enterprise"[0] && "team"[0] != "enterprise"[0];
  }

  /** From an account prepared as s1: subscription k, which is the account's, gets the plan, and all others stay; so do the settings' other users. */
  ghost predicate SwitchedFrom(s1: State, s': State, a: Account, plan: Plan, k: nat) {
    && k < |s1.subs| && s1.subs[k].account == a && s'.subs == s1.subs[k := Subscription(a, plan)]
    && s'.settings == s1.settings[a.user := TextOf(plan)]
    && if s1.subs[k].plan == plan then s'.ledger == s1.ledger else OneMoreRow(s1, s', a, AllowanceOf(plan), PlanAllowance)
  }

  ghost predicate Switched(s: State, s': State, a: Account, plan: Plan) {
    exists s1, k :: Prepared(s, s1, a) && SwitchedFrom(s1, s', a, plan, k)
  }

  lemma SwitchIs(s: State, a: Account, plan: Plan)
    requires GoodAccount(s, a)
    ensures Switched(s, ChangePlan(s, a, plan), a, plan)
  {
    EnsurePrepares(s, a);
    SwitchSwitches(Ensure(s, a), a, plan);
  }

  lemma SwitchSwitches(s: State, a: Account, plan: Plan)
    requires SubOf(s.subs, a).Some?
    ensures SwitchedFrom(s, Switch(s, a, plan), a, plan, SubOf(s.subs, a).value)
  {
  }

  /** A change of plan sets it in subscription and settings, and gives that plan's allowance exactly if the plan was another one. */
  lemma UpdateSwitches(ops: seq<Op>, a: Account, plan: Plan)
    ensures var r := Step(Run(ops), Update(a, plan)); r.1 == Done && Switched(Run(ops), r.0, a, plan)
  {
    RunKeepsInv(ops);
    assert GoodAccount(Run(ops), a);
    SwitchIs(Run(ops), a, plan);
  }

  /** Looking at the subscription does no more than what every request does first. */
  lemma ViewPrepares(ops: seq<Op>, a: Account)
    ensures var r := Step(Run(ops), View(a)); r.1 == Done && Prepared(Run(ops), r.0, a)
  {
    RunKeepsInv(ops);
    assert GoodAccount(Run(ops), a);
    EnsurePrepares(Run(ops), a);
  }

  /** The text alone does not tell an allowance: a charge may carry the same one. */
  lemma TextAloneIsNotEnough(ops: seq<Op>, a: Account, amount: nat, reason: Reason)
    requires 0 < amount && Available(Run(ops), a) >= amount && reason == Given(ReasonText(InitialAllowance))
    ensures var es := Of(Spend(Run(ops), a, amount, reason).0.ledger, a);
      es != [] && ReasonText(es[|es| - 1].reason) == ReasonText(InitialAllowance) && !ShowsInitial(es[|es| - 1])
  {
    RunKeepsInv(ops);
    assert GoodAccount(Run(ops), a);
    EnsureAvailable(Run(ops), a);
    ChargeRows(Ensure(Run(ops), a), a, amount, reason);
  }
}
