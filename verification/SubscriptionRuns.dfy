/** Paid plans and paid periods in every run. */
module SubscriptionRuns {
  import opened Wrappers
  import opened Schema
  import opened QuotaWindow
  import opened Ledger
  import opened Payments
  import opened PromoCodes
  import opened Subscriptions
  import opened VacancyCache
  import opened Generation
  import opened GenerationProofs
  import opened System
  import opened Books
  import opened PromoRuns

  // ---------- Steps that are not about subscriptions ----------

  /** Periods, and the role and plan of `v`, are as before; a new user is regular and free, or an administrator. */
  ghost predicate KeepsPlans(a: Tables, b: Tables, v: Id) {
    && b.subscriptions == a.subscriptions
    && (v in a.users ==> v in b.users && SamePlan(a.users[v], b.users[v]))
    && (v in b.users && v !in a.users ==> b.users[v].plan == Free || b.users[v].role == Admin)
  }

  predicate SamePlan(a: User, b: User) {
    b.role == a.role && b.plan == a.plan
  }

  lemma PostKeepsPlans(db: Tables, mid: Tables, u: Id, kind: TransactionType, amount: int, requestId: Option<Id>,
                       intentId: Option<Id>, promo: Option<string>, v: Id)
    requires u in mid.users && KeepsPlans(db, mid, v)
    ensures KeepsPlans(db, Post(mid, u, kind, amount, requestId, intentId, promo), v)
  {
  }

  lemma SamePlansKept(a: Tables, b: Tables, v: Id)
    requires b.users == a.users && b.subscriptions == a.subscriptions
    ensures KeepsPlans(a, b, v)
  {
  }

  lemma RegisterKeepsPlans(db: Tables, contact: Contact, bonus: int, v: Id)
    requires db.nextId !in db.users
    ensures KeepsPlans(db, Register(db, contact, bonus).db, v)
  {
    hide Registered, Post;
    if !Registered(db.users, contact) && bonus > 0 {
      PostKeepsPlans(db, CreateUser(db, NewUser(contact, Regular, Free, 0)), db.nextId, WelcomeBonus, bonus, None, None,
                     None, v);
    }
  }

  lemma SeedAdminKeepsPlans(db: Tables, address: string, v: Id)
    requires db.nextId !in db.users
    ensures KeepsPlans(db, SeedAdmin(db, address), v)
  {
    hide Registered;
  }

  lemma AdjustKeepsPlans(db: Tables, u: Id, amount: int, v: Id)
    ensures KeepsPlans(db, AdjustBalance(db, u, amount).db, v)
  {
    hide Post;
    if u in db.users {
      PostKeepsPlans(db, db, u, Adjustment, amount, None, None, None, v);
    }
  }

  lemma CreationKeepsPlans(db: Tables, u: Id, credits: int, price: nat, now: Instant, v: Id)
    ensures KeepsPlans(db, CreatePayment(db, u, credits, price, now).db, v)
  {
    hide Discounted;
  }

  lemma TopUpKeepsPlans(db: Tables, u: Id, credits: int, price: nat, v: Id)
    ensures KeepsPlans(db, BotTopUp(db, u, credits, price).db, v)
  {
    hide Discounted, Post;
    if u in db.users {
      PostKeepsPlans(db, BotIntent(db, u, credits, price), u, TopUp, credits, None, Some(|db.intents|), None, v);
    }
  }

  lemma ConfirmKeepsPlans(db: Tables, i: Id, v: Id)
    ensures KeepsPlans(db, ConfirmPayment(db, i).db, v)
  {
    hide Post;
    if i < |db.intents| && db.intents[i].userId in db.users {
      var intent := db.intents[i];
      var marked := SetStatus(SetUser(db, intent.userId, WithoutDiscount(db.users[intent.userId])), i, Succeeded);
      PostKeepsPlans(db, marked, intent.userId, TopUp, intent.creditsAmount, None, Some(i), None, v);
    }
  }

  lemma CloseKeepsPlans(db: Tables, i: Id, status: PaymentStatus, v: Id)
    ensures KeepsPlans(db, ClosePending(db, i, status).db, v)
  {
    hide KeepsPlans, ClosePending;
    ClosePendingFrame(db, i, status);
    SamePlansKept(db, ClosePending(db, i, status).db, v);
  }

  lemma RefundKeepsPlans(db: Tables, i: Id, v: Id)
    ensures KeepsPlans(db, RefundPayment(db, i).db, v)
  {
    hide Post;
    if i < |db.intents| && db.intents[i].userId in db.users {
      var intent := db.intents[i];
      PostKeepsPlans(db, SetStatus(db, i, Refunded), intent.userId, TransactionType.Refund, -intent.creditsAmount, None,
                     Some(i), None, v);
    }
  }

  lemma GrantKeepsPlans(db: Tables, u: Id, code: string, discount: User, v: Id)
    requires code in db.promos && u in db.users && SamePlan(db.users[u], discount)
    ensures KeepsPlans(db, Grant(db, u, code, discount).db, v)
  {
    hide Post;
    PostKeepsPlans(db, Activated(db, u, code), u, TransactionType.Promo, db.promos[code].value, None, None, Some(code),
                   v);
  }

  lemma RedeemKeepsPlans(db: Tables, u: Id, code: string, now: Instant, v: Id)
    ensures KeepsPlans(db, ApiRedeem(db, u, code, now).db, v)
    ensures KeepsPlans(db, BotRedeem(db, u, code).db, v)
  {
    hide Grant, Redeemable, KeepsPlans;
    SamePlansKept(db, db, v);
    if code in db.promos && u in db.users {
      var promo := db.promos[code];
      GrantKeepsPlans(db, u, code, db.users[u].(discountPercent := promo.value), v);
      GrantKeepsPlans(db, u, code,
                      db.users[u].(discountPercent := promo.value, discountValidUntil := Some(promo.validUntil),
                                   discountPromo := Some(code)), v);
    }
  }

  lemma CreatePromoKeepsPlans(db: Tables, code: string, kind: PromoKind, value: int, validUntil: Instant,
                              maxActivations: int, v: Id)
    ensures KeepsPlans(db, CreatePromo(db, code, kind, value, validUntil, maxActivations).db, v)
  {
    hide KeepsPlans;
    SamePlansKept(db, CreatePromo(db, code, kind, value, validUntil, maxActivations).db, v);
  }

  lemma ProfileKeepsPlans(db: Tables, u: Id, text: string, v: Id)
    ensures KeepsPlans(db, StoreProfile(db, u, text), v)
  {
    hide KeepsPlans;
    SamePlansKept(db, StoreProfile(db, u, text), v);
  }

  lemma PlainStepsKeepPlans(cfg: Settings, db: Tables, step: Step, v: Id)
    requires !TouchesQueue(step) && !IsSubscription(step) && db.nextId !in db.users
    ensures KeepsPlans(db, OnTables(cfg, db, step), v)
  {
    hide KeepsPlans, Register, SeedAdmin, StoreProfile, AdjustBalance, CreatePayment, BotTopUp, ConfirmPayment,
      ClosePending, RefundPayment, CreatePromo, ApiRedeem, BotRedeem;
    match step
    case RegisterByApi(address) => RegisterKeepsPlans(db, Email(address), cfg.bonus, v);
    case StartTelegram(telegramId) => RegisterKeepsPlans(db, Telegram(telegramId), cfg.bonus, v);
    case SeedAdministrator(address) => SeedAdminKeepsPlans(db, address, v);
    case SaveProfile(u, text) => ProfileKeepsPlans(db, u, text, v);
    case CreateIntent(u, credits, now) => CreationKeepsPlans(db, u, credits, cfg.price, now, v);
    case ConfirmIntent(i) => ConfirmKeepsPlans(db, i, v);
    case FailIntent(i) => CloseKeepsPlans(db, i, Failed, v);
    case CancelIntent(i) => CloseKeepsPlans(db, i, Canceled, v);
    case Refund(i) => RefundKeepsPlans(db, i, v);
    case TopUpByBot(u, credits) => TopUpKeepsPlans(db, u, credits, cfg.price, v);
    case NewPromo(code, kind, value, validUntil, maxActivations) =>
      CreatePromoKeepsPlans(db, code, kind, value, validUntil, maxActivations, v);
    case RedeemByApi(u, code, now) => RedeemKeepsPlans(db, u, code, now, v);
    case RedeemByBot(u, code) => RedeemKeepsPlans(db, u, code, 0, v);
    case Adjust(u, amount) => AdjustKeepsPlans(db, u, amount, v);
  }

  lemma DeliveryKeepsPlans(db: Tables, job: Job, w: World, v: Id)
    ensures KeepsPlans(db, RunJob(db, job, w).db, v)
  {
    hide RunJob, Generate, FromSnapshot, NewRequest, Post, KeepsPlans;
    DeliveryCases(db, job, w);
    var r := RunJob(db, job, w);
    if r.outcome.Returned? {
      var g := Generate(db, job, w);
      SamePlansKept(db, g.db, v);
      if job.charge && job.cost > 0 {
        PostKeepsPlans(db, g.db, job.userId, Spend, -job.cost, Some(g.outcome.value.letter.requestId), None, None, v);
      }
    } else {
      SamePlansKept(db, r.db, v);
    }
  }

  lemma OtherStepsKeepPlans(cfg: Settings, s: State, step: Step, v: Id)
    requires !IsSubscription(step) && s.db.nextId !in s.db.users
    ensures KeepsPlans(s.db, Apply(cfg, s, step).db, v)
  {
    hide KeepsPlans;
    if !TouchesQueue(step) {
      hide OnTables;
      PlainStepsKeepPlans(cfg, s.db, step, v);
    } else if step.DeliverJob? {
      hide RunJob, Heard;
      SamePlansKept(s.db, s.db, v);
      if step.job < |s.jobs| {
        DeliveryKeepsPlans(s.db, s.jobs[step.job], step.w, v);
      }
    } else {
      hide Apply;
      QueueStepFrame(cfg, s, step);
      SamePlansKept(s.db, Apply(cfg, s, step).db, v);
    }
  }

  // ---------- Every period has its user ----------

  ghost predicate PeriodsOwned(db: Tables) {
    forall i | 0 <= i < |db.subscriptions| :: db.subscriptions[i].userId in db.users
  }

  lemma SubscriptionStepsKeepOwners(cfg: Settings, db: Tables, step: Step)
    requires IsSubscription(step) && PeriodsOwned(db)
    ensures PeriodsOwned(OnTables(cfg, db, step)) && OnTables(cfg, db, step).users.Keys == db.users.Keys
  {
    hide LatestActive, PAID_PERIOD;
  }

  lemma StepKeepsOwners(cfg: Settings, s: State, step: Step)
    requires PeriodsOwned(s.db) && s.db.nextId !in s.db.users
    ensures PeriodsOwned(Apply(cfg, s, step).db)
  {
    if IsSubscription(step) {
      hide OnTables;
      SubscriptionStepsKeepOwners(cfg, s.db, step);
    } else {
      hide Apply;
      OtherStepsKeepPlans(cfg, s, step, 0);
      forall i | 0 <= i < |s.db.subscriptions| ensures s.db.subscriptions[i].userId in Apply(cfg, s, step).db.users {
        OtherStepsKeepPlans(cfg, s, step, s.db.subscriptions[i].userId);
      }
    }
  }

  // ---------- Paid plans ----------

  ghost predicate BackedIfUser(db: Tables, u: Id) {
    u in db.users ==> Backed(db, u)
  }

  lemma StepBacks(cfg: Settings, s: State, step: Step, u: Id)
    requires BackedIfUser(s.db, u) && s.db.nextId !in s.db.users && PeriodsOwned(s.db)
    ensures BackedIfUser(Apply(cfg, s, step).db, u)
  {
    if IsSubscription(step) {
      SubscriptionStepBacks(cfg, s.db, step, u);
    } else {
      hide Apply;
      OtherStepsKeepPlans(cfg, s, step, u);
    }
  }

  lemma SubscriptionStepBacks(cfg: Settings, db: Tables, step: Step, u: Id)
    requires BackedIfUser(db, u) && IsSubscription(step) && PeriodsOwned(db)
    ensures BackedIfUser(OnTables(cfg, db, step), u)
  {
    if u in db.users {
      hide Backed, ActivateSubscription, Sweep, AdminExpire;
      match step
      case Subscribe(v, plan, now) => ActivationBacks(db, v, plan, now, u);
      case SweepExpired(now) => SweepBacks(db, now, u);
      case EndSubscription(v) => AdminExpireBacks(db, v, u);
    } else {
      hide OnTables, Backed;
      SubscriptionStepsKeepOwners(cfg, db, step);
    }
  }

  lemma KeysAreFresh(db: Tables)
    requires BooksKept(db)
    ensures db.nextId !in db.users
  {
    hide Balanced, PromosBalanced;
  }

  lemma {:induction false} PeriodsOwnedInEveryRun(cfg: Settings, steps: seq<Step>)
    ensures PeriodsOwned(Run(cfg, steps).db)
  {
    hide Apply, BooksKept;
    if steps != [] {
      var init := steps[..|steps| - 1];
      PeriodsOwnedInEveryRun(cfg, init);
      BooksAlwaysKept(cfg, init);
      KeysAreFresh(Run(cfg, init).db);
      StepKeepsOwners(cfg, Run(cfg, init), steps[|steps| - 1]);
    }
  }

  lemma {:induction false} BackedInEveryRun(cfg: Settings, steps: seq<Step>, u: Id)
    ensures BackedIfUser(Run(cfg, steps).db, u)
  {
    if steps != [] {
      hide Apply, BooksKept, Backed, PeriodsOwned;
      var init := steps[..|steps| - 1];
      BackedInEveryRun(cfg, init, u);
      PeriodsOwnedInEveryRun(cfg, init);
      BooksAlwaysKept(cfg, init);
      KeysAreFresh(Run(cfg, init).db);
      StepBacks(cfg, Run(cfg, init), steps[|steps| - 1], u);
    }
  }

  /** In every run, whoever is on a paid plan, the administrator apart, has an active period of that plan. */
  lemma PaidPlanHasPeriod(cfg: Settings, steps: seq<Step>, u: Id)
    requires var db := Run(cfg, steps).db; u in db.users && db.users[u].role == Regular && db.users[u].plan != Free
    ensures var db := Run(cfg, steps).db;
      exists i | 0 <= i < |db.subscriptions| ::
        ActiveOf(db.subscriptions[i], u) && db.subscriptions[i].plan == db.users[u].plan
  {
    hide Run;
    BackedInEveryRun(cfg, steps, u);
  }

  // ---------- Paid periods ----------

  /** Whether `u` has the paid plan that an active period calls for after this step, told before it. */
  ghost predicate ServesAfter(db: Tables, step: Step, u: Id)
    requires u in db.users
  {
    match step
    case Subscribe(v, plan, _) => (u == v && plan != Free) || Served(db, u)
    case SweepExpired(now) =>
      || !StillPaid(db.subscriptions, u, now)
      || (db.users[u].plan != Free && !LosesPeriod(db.subscriptions, u, now))
    case EndSubscription(v) => if u == v then !HasSpare(db.subscriptions, u) else Served(db, u)
    case _ => Served(db, u)
  }

  lemma SweepServesAfter(db: Tables, cutoff: Instant, u: Id)
    requires u in db.users
    ensures u in Sweep(db, cutoff).users
    ensures Served(Sweep(db, cutoff), u) <==>
            || !StillPaid(db.subscriptions, u, cutoff)
            || (db.users[u].plan != Free && !LosesPeriod(db.subscriptions, u, cutoff))
  {
    var after := Sweep(db, cutoff);
    if StillPaid(db.subscriptions, u, cutoff) {
      var i :| 0 <= i < |db.subscriptions| && ActiveOf(db.subscriptions[i], u)
               && cutoff <= db.subscriptions[i].expiresAt;
      assert ActiveOf(after.subscriptions[i], u);
    } else {
      forall i | 0 <= i < |after.subscriptions| ensures !ActiveOf(after.subscriptions[i], u) {
        assert ActiveOf(db.subscriptions[i], u) ==> Due(db.subscriptions[i], cutoff);
      }
    }
  }

  lemma SubscriptionStepServesIff(cfg: Settings, db: Tables, step: Step, u: Id)
    requires u in db.users && IsSubscription(step)
    ensures u in OnTables(cfg, db, step).users
    ensures Served(OnTables(cfg, db, step), u) <==> ServesAfter(db, step, u)
  {
    hide HasSpare, StillPaid, LosesPeriod, Served, ActivateSubscription, Sweep, AdminExpire;
    match step
    case Subscribe(v, plan, now) => ActivationServesIff(db, v, plan, now, u);
    case SweepExpired(now) => SweepServesAfter(db, now, u);
    case EndSubscription(v) =>
      if u == v {
        AdminExpireServesIff(db, u);
      } else {
        OtherAdminExpireServes(db, v, u);
      }
  }

  /** Every step, exactly. */
  lemma StepServesIff(cfg: Settings, s: State, step: Step, u: Id)
    requires u in s.db.users && s.db.nextId !in s.db.users
    ensures u in Apply(cfg, s, step).db.users
    ensures Served(Apply(cfg, s, step).db, u) <==> ServesAfter(s.db, step, u)
  {
    if IsSubscription(step) {
      hide OnTables, Served, ServesAfter;
      SubscriptionStepServesIff(cfg, s.db, step, u);
    } else {
      hide Apply;
      OtherStepsKeepPlans(cfg, s, step, u);
    }
  }

  /** The two steps that take a paid plan away while a paid period is still running. */
  ghost function NeverLoses(u: Id): (State, Step) -> bool {
    (s: State, step: Step) =>
      && !(step.SweepExpired? && LosesPeriod(s.db.subscriptions, u, step.now)
           && StillPaid(s.db.subscriptions, u, step.now))
      && !(step == EndSubscription(u) && HasSpare(s.db.subscriptions, u))
  }

  ghost predicate ServedIfUser(db: Tables, u: Id) {
    u in db.users ==> Served(db, u)
  }

  /** From a served user, exactly those two steps lead to one who is not. */
  lemma LosesIff(cfg: Settings, s: State, step: Step, u: Id)
    requires u in s.db.users && s.db.nextId !in s.db.users && Served(s.db, u)
    ensures u in Apply(cfg, s, step).db.users
    ensures Served(Apply(cfg, s, step).db, u) <==> NeverLoses(u)(s, step)
  {
    hide Apply, HasSpare;
    StepServesIff(cfg, s, step, u);
    if step.SweepExpired? && StillPaid(s.db.subscriptions, u, step.now) {
      var i :| 0 <= i < |s.db.subscriptions| && ActiveOf(s.db.subscriptions[i], u)
               && step.now <= s.db.subscriptions[i].expiresAt;
      assert s.db.users[u].plan != Free;
    }
  }

  lemma NewUserIsServed(cfg: Settings, s: State, step: Step, u: Id)
    requires u !in s.db.users && s.db.nextId !in s.db.users && PeriodsOwned(s.db)
    ensures ServedIfUser(Apply(cfg, s, step).db, u)
  {
    if IsSubscription(step) {
      hide OnTables;
      SubscriptionStepsKeepOwners(cfg, s.db, step);
    } else {
      hide Apply;
      OtherStepsKeepPlans(cfg, s, step, u);
    }
  }

  /**
   Whoever has an active period is on a paid plan, in every run in which no sweep ends one of the user's periods while
   another is running, and no administrator ends one of several.
   */
  lemma {:induction false} ServedUnlessLost(cfg: Settings, steps: seq<Step>, u: Id)
    requires Along(cfg, steps, NeverLoses(u))
    ensures ServedIfUser(Run(cfg, steps).db, u)
  {
    if steps != [] {
      hide Apply, BooksKept, Served, PeriodsOwned, NeverLoses;
      var init := steps[..|steps| - 1];
      var s := Run(cfg, init);
      ServedUnlessLost(cfg, init, u);
      PeriodsOwnedInEveryRun(cfg, init);
      BooksAlwaysKept(cfg, init);
      KeysAreFresh(s.db);
      if u in s.db.users {
        LosesIff(cfg, s, steps[|steps| - 1], u);
      } else {
        NewUserIsServed(cfg, s, steps[|steps| - 1], u);
      }
    }
  }
}
