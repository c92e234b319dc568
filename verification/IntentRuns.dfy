/** What every run leaves of a payment intent. */
module IntentRuns {
  import opened Wrappers
  import opened Schema
  import opened QuotaWindow
  import opened Ledger
  import opened Payments
  import opened PromoCodes
  import opened Subscriptions
  import opened VacancyCache
  import opened Generation
  import opened GenerationProofs
  import opened System
  import opened Books

  /** How often the success webhook met intent `i` in manual review. */
  ghost function ReviewConfirms(cfg: Settings, steps: seq<Step>, i: Id): nat {
    if steps == [] then 0 else
      var init, last := steps[..|steps| - 1], steps[|steps| - 1];
      ReviewConfirms(cfg, init, i) + if MeetsReview(Run(cfg, init), last, i) then 1 else 0
  }

  ghost predicate MeetsReview(s: State, step: Step, i: Id) {
    step == ConfirmIntent(i) && i < |s.db.intents| && s.db.intents[i].status == RefundManualReview
  }

  /** The success webhook of intent `i` comes back after its refund was made or attempted. */
  ghost predicate IsLate(db: Tables, step: Step, i: Id) {
    step == ConfirmIntent(i) && i < |db.intents| && db.intents[i].status in {Refunded, RefundManualReview}
  }

  ghost function NoLateOf(i: Id): (State, Step) -> bool {
    (s: State, step: Step) => !IsLate(s.db, step, i)
  }

  /** Intents are as before and no row for one was added. */
  ghost predicate KeepsIntents(a: Tables, b: Tables) {
    && b.intents == a.intents
    && (b.transactions == a.transactions
        || (b.transactions != [] && b.transactions[..|b.transactions| - 1] == a.transactions
            && b.transactions[|b.transactions| - 1].intentId == None))
  }

  lemma KeptIntents(a: Tables, b: Tables, j: Id, extra: int)
    requires KeepsIntents(a, b) && j < |a.intents|
    ensures NetIs(a, j, extra) ==> NetIs(b, j, extra)
    ensures OncePerKind(a, j) ==> OncePerKind(b, j)
  {
    if b.transactions != a.transactions {
      var t := b.transactions[|b.transactions| - 1];
      assert b.transactions == a.transactions + [t];
      TotalAppend(a.transactions, t, OfIntent(j));
      TotalAppend(a.transactions, t, TopUpOf(j));
      TotalAppend(a.transactions, t, RefundOf(j));
    }
  }

  lemma PostLeavesIntents(db: Tables, mid: Tables, u: Id, kind: TransactionType, amount: int, requestId: Option<Id>,
        promo: Option<string>)
    requires u in mid.users && mid.transactions == db.transactions && mid.intents == db.intents
    ensures KeepsIntents(db, Post(mid, u, kind, amount, requestId, None, promo))
  {
    var after := Post(mid, u, kind, amount, requestId, None, promo);
    assert after.transactions[..|after.transactions| - 1] == db.transactions;
  }

  lemma GrantLeavesIntents(db: Tables, u: Id, code: string, discount: User)
    requires code in db.promos && u in db.users
    ensures KeepsIntents(db, Grant(db, u, code, discount).db)
  {
    hide Post;
    PostLeavesIntents(db, Activated(db, u, code), u, TransactionType.Promo, db.promos[code].value, None, Some(code));
  }

  lemma RegisterLeavesIntents(db: Tables, contact: Contact, bonus: int)
    ensures KeepsIntents(db, Register(db, contact, bonus).db)
  {
    hide Registered, Post;
    PostLeavesIntents(db, CreateUser(db, NewUser(contact, Regular, Free, 0)), db.nextId, WelcomeBonus, bonus, None,
        None);
  }

  lemma AdjustLeavesIntents(db: Tables, u: Id, amount: int)
    ensures KeepsIntents(db, AdjustBalance(db, u, amount).db)
  {
    hide Post;
    if u in db.users {
      PostLeavesIntents(db, db, u, Adjustment, amount, None, None);
    }
  }

  lemma RedeemLeavesIntents(db: Tables, u: Id, code: string, now: Instant)
    ensures KeepsIntents(db, ApiRedeem(db, u, code, now).db)
    ensures KeepsIntents(db, BotRedeem(db, u, code).db)
  {
    hide KeepsIntents, Grant, Redeemable;
    SameIsKept(db);
    if code in db.promos && u in db.users {
      var promo := db.promos[code];
      GrantLeavesIntents(db, u, code, db.users[u].(discountPercent := promo.value));
      GrantLeavesIntents(db, u, code,
        db.users[u].(discountPercent := promo.value, discountValidUntil := Some(promo.validUntil),
            discountPromo := Some(code)));
    }
  }

  lemma SameIsKept(db: Tables)
    ensures KeepsIntents(db, db)
  {
  }

  lemma SeedAdminFrame(db: Tables, address: string)
    ensures var after := SeedAdmin(db, address); after == db.(users := after.users, nextId := after.nextId)
  {
    hide Registered;
  }

  lemma RestLeavesIntents(cfg: Settings, db: Tables, step: Step)
    requires step.SeedAdministrator? || step.SaveProfile? || step.NewPromo? || step.Subscribe? || step.SweepExpired?
        || step.EndSubscription?
    ensures KeepsIntents(db, OnTables(cfg, db, step))
  {
    hide KeepsIntents, SeedAdmin, StoreProfile, CreatePromo, ActivateSubscription, Sweep, AdminExpire;
    match step {
      case SeedAdministrator(address) => SeedAdminFrame(db, address);
      case SaveProfile(u, text) => ProfileFrame(db, u, text);
      case NewPromo(code, kind, value, validUntil, maxActivations) =>
        CreatePromoFrame(db, code, kind, value, validUntil, maxActivations);
      case Subscribe(u, plan, now) => ActivationChangesPlans(db, u, plan, now);
      case SweepExpired(now) => SweepChangesPlans(db, now);
      case EndSubscription(u) => AdminExpireChangesPlans(db, u);
    }
    SameIntentsKept(db, OnTables(cfg, db, step));
  }

  lemma DeliveryLeavesIntents(db: Tables, job: Job, w: World)
    ensures KeepsIntents(db, RunJob(db, job, w).db)
  {
    hide RunJob, Generate, Post, FromSnapshot, NewRequest, KeepsIntents;
    DeliveryCases(db, job, w);
    SameIsKept(db);
    var r := RunJob(db, job, w);
    if r.outcome.Returned? {
      var g := Generate(db, job, w);
      if job.charge && job.cost > 0 {
        PostLeavesIntents(db, g.db, job.userId, Spend, -job.cost, Some(g.outcome.value.letter.requestId), None);
      } else {
        SameIntentsKept(db, r.db);
      }
    } else {
      SameIntentsKept(db, r.db);
    }
  }

  lemma SameIntentsKept(a: Tables, b: Tables)
    requires b.intents == a.intents && b.transactions == a.transactions
    ensures KeepsIntents(a, b)
  {
  }

  lemma OtherStepsLeaveIntents(cfg: Settings, s: State, step: Step)
    requires !TouchesIntents(step)
    ensures KeepsIntents(s.db, Apply(cfg, s, step).db)
  {
    if !TouchesQueue(step) {
      hide OnTables, KeepsIntents;
      PlainStepsLeaveIntents(cfg, s.db, step);
    } else if step.DeliverJob? {
      hide RunJob, Heard, KeepsIntents;
      SameIsKept(s.db);
      if step.job < |s.jobs| {
        DeliveryLeavesIntents(s.db, s.jobs[step.job], step.w);
      }
    } else {
      hide Apply;
      QueueStepFrame(cfg, s, step);
    }
  }

  lemma PlainStepsLeaveIntents(cfg: Settings, db: Tables, step: Step)
    requires !TouchesIntents(step) && !TouchesQueue(step)
    ensures KeepsIntents(db, OnTables(cfg, db, step))
  {
    hide KeepsIntents, Register, AdjustBalance, ApiRedeem, BotRedeem, SeedAdmin, StoreProfile, CreatePromo,
      ActivateSubscription, Sweep, AdminExpire;
    match step {
      case RegisterByApi(address) => RegisterLeavesIntents(db, Email(address), cfg.bonus);
      case StartTelegram(telegramId) => RegisterLeavesIntents(db, Telegram(telegramId), cfg.bonus);
      case Adjust(u, amount) => AdjustLeavesIntents(db, u, amount);
      case RedeemByApi(u, code, now) => RedeemLeavesIntents(db, u, code, now);
      case RedeemByBot(u, code) => RedeemLeavesIntents(db, u, code, 0);
      case _ => RestLeavesIntents(cfg, db, step);
    }
  }

  /** Intents are never deleted, and each step keeps the rows of every intent in line with its status. */
  lemma StepNet(cfg: Settings, s: State, step: Step, j: Id, extra: int)
    requires BooksKept(s.db) && j < |s.db.intents|
    ensures |s.db.intents| <= |Apply(cfg, s, step).db.intents|
    ensures NetIs(s.db, j, extra) ==>
              NetIs(Apply(cfg, s, step).db, j, extra + if MeetsReview(s, step, j) then 1 else 0)
    ensures OncePerKind(s.db, j) ==> (OncePerKind(Apply(cfg, s, step).db, j) <==> !IsLate(s.db, step, j))
  {
    if TouchesIntents(step) {
      PaymentStepNet(cfg, s.db, step, j, extra);
    } else {
      hide Apply;
      OtherStepsLeaveIntents(cfg, s, step);
      KeptIntents(s.db, Apply(cfg, s, step).db, j, extra);
    }
  }

  lemma PaymentStepNet(cfg: Settings, db: Tables, step: Step, j: Id, extra: int)
    requires BooksKept(db) && j < |db.intents| && TouchesIntents(step)
    ensures var after := OnTables(cfg, db, step);
      var review := step == ConfirmIntent(j) && db.intents[j].status == RefundManualReview;
      && |db.intents| <= |after.intents|
      && (NetIs(db, j, extra) ==> NetIs(after, j, extra + if review then 1 else 0))
      && (OncePerKind(db, j) ==> (OncePerKind(after, j) <==> !IsLate(db, step, j)))
  {
    hide BooksKept, NetIs, OncePerKind, CreatePayment, BotTopUp, ConfirmPayment, ClosePending, RefundPayment;
    BooksOwnIntents(db);
    match step
    case CreateIntent(u, credits, now) => OldIntentNet(db, u, credits, cfg.price, now, j, extra);
    case TopUpByBot(u, credits) => OldIntentNet(db, u, credits, cfg.price, 0, j, extra);
    case ConfirmIntent(i) => ConfirmStepNet(db, i, j, extra);
    case FailIntent(i) => CloseStepNet(db, i, Failed, j, extra);
    case CancelIntent(i) => CloseStepNet(db, i, Canceled, j, extra);
    case Refund(i) => RefundStepNet(db, i, j, extra);
  }

  lemma ConfirmStepNet(db: Tables, i: Id, j: Id, extra: int)
    requires IntentsOwned(db) && j < |db.intents|
    ensures var after := ConfirmPayment(db, i).db;
      && |db.intents| == |after.intents|
      && (NetIs(db, j, extra) ==>
            NetIs(after, j, extra + if i == j && db.intents[j].status == RefundManualReview then 1 else 0))
      && (OncePerKind(db, j) ==> (OncePerKind(after, j) <==> !IsLate(db, ConfirmIntent(i), j)))
  {
    ConfirmKeepsLength(db, i);
    if i < |db.intents| {
      hide ConfirmPayment, NetIs, OncePerKind;
      if NetIs(db, j, extra) { ConfirmNet(db, i, j, extra); }
      if OncePerKind(db, j) { ConfirmOnceIff(db, i, j); }
    }
  }

  lemma CloseStepNet(db: Tables, i: Id, status: PaymentStatus, j: Id, extra: int)
    requires j < |db.intents| && status in {Failed, Canceled}
    ensures var after := ClosePending(db, i, status).db;
      && |db.intents| == |after.intents|
      && (NetIs(db, j, extra) ==> NetIs(after, j, extra))
      && (OncePerKind(db, j) ==> OncePerKind(after, j))
  {
    hide NetIs, OncePerKind;
    if NetIs(db, j, extra) { ClosePendingNet(db, i, status, j, extra); }
    if OncePerKind(db, j) { ClosePendingOnce(db, i, status, j); }
  }

  lemma RefundStepNet(db: Tables, i: Id, j: Id, extra: int)
    requires IntentsOwned(db) && j < |db.intents|
    ensures var after := RefundPayment(db, i).db;
      && |db.intents| == |after.intents|
      && (NetIs(db, j, extra) ==> NetIs(after, j, extra))
      && (OncePerKind(db, j) ==> OncePerKind(after, j))
  {
    RefundKeepsLength(db, i);
    hide RefundPayment, NetIs, OncePerKind;
    if NetIs(db, j, extra) { RefundNet(db, i, j, extra); }
    if OncePerKind(db, j) { RefundOnce(db, i, j); }
  }

  lemma ConfirmKeepsLength(db: Tables, i: Id)
    ensures |db.intents| == |ConfirmPayment(db, i).db.intents|
  {
  }

  lemma RefundKeepsLength(db: Tables, i: Id)
    ensures |db.intents| == |RefundPayment(db, i).db.intents|
  {
  }

  /** An intent that a step creates starts in line with its status. */
  lemma FreshIntentNet(cfg: Settings, s: State, step: Step, j: Id)
    requires BooksKept(s.db) && |s.db.intents| <= j < |Apply(cfg, s, step).db.intents|
    ensures NetIs(Apply(cfg, s, step).db, j, 0) && OncePerKind(Apply(cfg, s, step).db, j)
  {
    hide NetIs, OncePerKind, PromosBalanced, Conserved;
    if TouchesIntents(step) {
      FreshIntentNetPlain(cfg, s.db, step, j);
    } else {
      hide Apply;
      OtherStepsLeaveIntents(cfg, s, step);
    }
  }

  lemma FreshIntentNetPlain(cfg: Settings, db: Tables, step: Step, j: Id)
    requires IntentRowsExist(db) && TouchesIntents(step) && |db.intents| <= j < |OnTables(cfg, db, step).intents|
    ensures NetIs(OnTables(cfg, db, step), j, 0) && OncePerKind(OnTables(cfg, db, step), j)
  {
    hide NetIs, OncePerKind, Discounted;
    match step
    case CreateIntent(u, credits, now) => NewIntentNet(db, u, credits, cfg.price, now);
    case TopUpByBot(u, credits) => NewIntentNet(db, u, credits, cfg.price, 0);
    case ConfirmIntent(i) =>
      ConfirmKeepsLength(db, i);
      assert false;
    case FailIntent(i) => assert false;
    case CancelIntent(i) => assert false;
    case Refund(i) =>
      RefundKeepsLength(db, i);
      assert false;
  }

  lemma {:induction false} NoReviewBeforeExistence(cfg: Settings, steps: seq<Step>, i: Id)
    requires |Run(cfg, steps).db.intents| <= i
    ensures ReviewConfirms(cfg, steps, i) == 0
  {
    hide Apply;
    if steps != [] {
      var init, last := steps[..|steps| - 1], steps[|steps| - 1];
      IntentsGrow(cfg, Run(cfg, init), last);
      NoReviewBeforeExistence(cfg, init, i);
    }
  }

  lemma IntentsGrow(cfg: Settings, s: State, step: Step)
    ensures |s.db.intents| <= |Apply(cfg, s, step).db.intents|
  {
    if TouchesIntents(step) {
      PaymentsGrow(cfg, s.db, step);
    } else {
      hide Apply;
      OtherStepsLeaveIntents(cfg, s, step);
    }
  }

  lemma PaymentsGrow(cfg: Settings, db: Tables, step: Step)
    requires TouchesIntents(step)
    ensures |db.intents| <= |OnTables(cfg, db, step).intents|
  {
    hide CreatePayment, BotTopUp, ConfirmPayment, RefundPayment;
    match step
    case CreateIntent(u, credits, now) => IntentsAreKept(db, u, credits, cfg.price, now);
    case TopUpByBot(u, credits) => IntentsAreKept(db, u, credits, cfg.price, 0);
    case ConfirmIntent(i) => ConfirmKeepsLength(db, i);
    case Refund(i) => RefundKeepsLength(db, i);
    case _ =>
  }

  /**
   In every run, the rows of an intent add up to its credits while they are due and to nothing otherwise, plus
   its credits once more for every success webhook that met it in manual review.
   */
  lemma {:induction false} NetInEveryRun(cfg: Settings, steps: seq<Step>, i: Id)
    requires i < |Run(cfg, steps).db.intents|
    ensures NetIs(Run(cfg, steps).db, i, ReviewConfirms(cfg, steps, i))
  {
    hide Apply, NetIs, MeetsReview;
    assert steps != [];
    var init, last := steps[..|steps| - 1], steps[|steps| - 1];
    var s := Run(cfg, init);
    BooksAlwaysKept(cfg, init);
    if i < |s.db.intents| {
      NetInEveryRun(cfg, init, i);
      StepNet(cfg, s, last, i, ReviewConfirms(cfg, init, i));
    } else {
      NoReviewBeforeExistence(cfg, init, i);
      FreshIntentNet(cfg, s, last, i);
      NotInReview(s, last, i);
    }
  }

  lemma NotInReview(s: State, step: Step, i: Id)
    requires |s.db.intents| <= i
    ensures !MeetsReview(s, step, i)
  {
  }

  /** The promised net holds exactly in the runs where that never happened. */
  lemma PromisedNetInRunIff(cfg: Settings, steps: seq<Step>, i: Id)
    requires i < |Run(cfg, steps).db.intents|
    ensures NetIs(Run(cfg, steps).db, i, 0) <==> ReviewConfirms(cfg, steps, i) == 0
  {
    hide Run, NetIs, ReviewConfirms;
    NetInEveryRun(cfg, steps, i);
    BooksAlwaysKept(cfg, steps);
    BooksOwnIntents(Run(cfg, steps).db);
    PromisedNetIff(Run(cfg, steps).db, i, ReviewConfirms(cfg, steps, i));
  }

  lemma {:induction false} NothingLateBeforeExistence(cfg: Settings, steps: seq<Step>, i: Id)
    requires |Run(cfg, steps).db.intents| <= i
    ensures Along(cfg, steps, NoLateOf(i))
  {
    hide Apply;
    if steps != [] {
      var init, last := steps[..|steps| - 1], steps[|steps| - 1];
      IntentsGrow(cfg, Run(cfg, init), last);
      NothingLateBeforeExistence(cfg, init, i);
    }
  }

  /** No step takes a ledger row away. */
  lemma RowsOnlyGrow(cfg: Settings, s: State, step: Step, which: Transaction -> bool)
    ensures Count(Apply(cfg, s, step).db.transactions, which) >= Count(s.db.transactions, which)
  {
    hide OnTables, RunJob, Generate, FromSnapshot, Reserve, BotMayEnqueue, PlaceholderFits, Heard, Count;
    if !TouchesQueue(step) {
      PlainStepsKeepGeneration(cfg, s.db, step);
      OneRowMore(s.db.transactions, OnTables(cfg, s.db, step).transactions, which);
    } else if step.DeliverJob? && step.job < |s.jobs| {
      var job := s.jobs[step.job];
      DeliveryCases(s.db, job, step.w);
      if RunJob(s.db, job, step.w).outcome.Returned? && job.charge && job.cost > 0 {
        var after := RunJob(s.db, job, step.w).db.transactions;
        TotalAppend(s.db.transactions, after[|after| - 1], which);
      }
    }
  }

  lemma OneRowMore(a: seq<Transaction>, b: seq<Transaction>, which: Transaction -> bool)
    requires AtMostOneRow(a, b)
    ensures Count(b, which) >= Count(a, which)
  {
    if b != a {
      assert b == a + [b[|a|]];
      TotalAppend(a, b[|a|], which);
    }
  }

  /** What a late success webhook does stays done. */
  lemma {:induction false} LateIsForGood(cfg: Settings, steps: seq<Step>, i: Id)
    requires i < |Run(cfg, steps).db.intents|
    ensures if Along(cfg, steps, NoLateOf(i)) then OncePerKind(Run(cfg, steps).db, i)
            else Count(Run(cfg, steps).db.transactions, TopUpOf(i)) >= 2
  {
    hide Apply, OncePerKind, IsLate, Count;
    assert steps != [];
    var init, last := steps[..|steps| - 1], steps[|steps| - 1];
    var s := Run(cfg, init);
    BooksAlwaysKept(cfg, init);
    if i < |s.db.intents| {
      LateIsForGood(cfg, init, i);
      StepNet(cfg, s, last, i, 0);
      RowsOnlyGrow(cfg, s, last, TopUpOf(i));
      if Along(cfg, init, NoLateOf(i)) && IsLate(s.db, last, i) {
        LateStep(cfg, s, last, i);
      }
    } else {
      NothingLateBeforeExistence(cfg, init, i);
      FreshIntentNet(cfg, s, last, i);
      NotLateYet(s.db, last, i);
    }
  }

  lemma LateStep(cfg: Settings, s: State, step: Step, i: Id)
    requires BooksKept(s.db) && IsLate(s.db, step, i) && OncePerKind(s.db, i)
    ensures Count(Apply(cfg, s, step).db.transactions, TopUpOf(i)) == 2
  {
    hide BooksKept, OncePerKind, ConfirmPayment;
    BooksOwnIntents(s.db);
    LateConfirmPaysTwice(s.db, i);
  }

  lemma NotLateYet(db: Tables, step: Step, i: Id)
    requires |db.intents| <= i
    ensures !IsLate(db, step, i)
  {
  }

  /**
   An intent is credited at most once and refunded at most once exactly in the runs where its own success webhook
   never comes back after a refund was made or attempted.
   */
  lemma CreditedOnceIff(cfg: Settings, steps: seq<Step>, i: Id)
    requires i < |Run(cfg, steps).db.intents|
    ensures OncePerKind(Run(cfg, steps).db, i) <==> Along(cfg, steps, NoLateOf(i))
  {
    hide Run, Along;
    LateIsForGood(cfg, steps, i);
  }

  /** The status of an intent after a success, a failure, a cancellation and a refund. */
  lemma SettledStatus(db: Tables, i: Id)
    requires IntentsOwned(db) && i < |db.intents|
    ensures var intent := db.intents[i];
      var paid, failed := ConfirmPayment(db, i).db.intents, ClosePending(db, i, Failed).db.intents;
      var canceled, refunded := ClosePending(db, i, Canceled).db.intents, RefundPayment(db, i).db.intents;
      && intent.userId in db.users && |paid| == |failed| == |canceled| == |refunded| == |db.intents|
      && paid[i].status == Succeeded
      && failed[i].status == (if intent.status == Pending then Failed else intent.status)
      && canceled[i].status == (if intent.status == Pending then Canceled else intent.status)
      && refunded[i].status ==
         if intent.status != Succeeded then intent.status
         else if db.users[intent.userId].credits >= intent.creditsAmount then Refunded
         else RefundManualReview
  {
    hide ConfirmPayment, ClosePending, RefundPayment;
    ConfirmEffect(db, i);
    CloseIff(db, i, Failed);
    CloseIff(db, i, Canceled);
    RefundIff(db, i);
  }

  lemma SettlingSteps(cfg: Settings, s: State, i: Id)
    ensures Apply(cfg, s, ConfirmIntent(i)).db == ConfirmPayment(s.db, i).db
    ensures Apply(cfg, s, FailIntent(i)).db == ClosePending(s.db, i, Failed).db
    ensures Apply(cfg, s, CancelIntent(i)).db == ClosePending(s.db, i, Canceled).db
    ensures Apply(cfg, s, Step.Refund(i)).db == RefundPayment(s.db, i).db
  {
    hide ConfirmPayment, ClosePending, RefundPayment;
  }

  /** After any run, the webhooks and the refund take an intent to the status they are named for. */
  lemma StepSettles(cfg: Settings, steps: seq<Step>, i: Id)
    requires i < |Run(cfg, steps).db.intents|
    ensures var db := Run(cfg, steps).db;
      var intent := db.intents[i];
      var paid, failed := Run(cfg, steps + [ConfirmIntent(i)]).db.intents, Run(cfg, steps + [FailIntent(i)]).db.intents;
      var canceled, refunded :=
        Run(cfg, steps + [CancelIntent(i)]).db.intents, Run(cfg, steps + [Step.Refund(i)]).db.intents;
      && intent.userId in db.users && |paid| == |failed| == |canceled| == |refunded| == |db.intents|
      && paid[i].status == Succeeded
      && failed[i].status == (if intent.status == Pending then Failed else intent.status)
      && canceled[i].status == (if intent.status == Pending then Canceled else intent.status)
      && refunded[i].status ==
         if intent.status != Succeeded then intent.status
         else if db.users[intent.userId].credits >= intent.creditsAmount then Refunded
         else RefundManualReview
  {
    hide Run, Apply, ConfirmPayment, ClosePending, RefundPayment, BooksKept;
    BooksAlwaysKept(cfg, steps);
    BooksOwnIntents(Run(cfg, steps).db);
    SettlingSteps(cfg, Run(cfg, steps), i);
    SettledStatus(Run(cfg, steps).db, i);
    RunThen(cfg, steps, ConfirmIntent(i));
    RunThen(cfg, steps, FailIntent(i));
    RunThen(cfg, steps, CancelIntent(i));
    RunThen(cfg, steps, Step.Refund(i));
  }
}
