/** The activation limit of promo codes in every run. */
module PromoRuns {
  import opened Wrappers
  import opened Schema
  import opened QuotaWindow
  import opened Ledger
  import opened Payments
  import opened PromoCodes
  import opened Subscriptions
  import opened VacancyCache
  import opened Generation
  import opened GenerationProofs
  import opened System

  predicate TouchesPromos(step: Step) {
    step.NewPromo? || step.RedeemByApi? || step.RedeemByBot?
  }

  predicate IsSubscription(step: Step) {
    step.Subscribe? || step.SweepExpired? || step.EndSubscription?
  }

  /** Codes and redemptions are as before, and the pending discount of `v` is, or it is gone. */
  ghost predicate LeavesPromos(a: Tables, b: Tables, v: Id) {
    && b.promos == a.promos && b.redemptions == a.redemptions
    && KeepsDiscount(a, b, v)
  }

  ghost predicate KeepsDiscount(a: Tables, b: Tables, v: Id) {
    v in b.users ==>
      || b.users[v].discountPercent == 0
      || (v in a.users && SameDiscount(a.users[v], b.users[v]))
  }

  predicate SameDiscount(a: User, b: User) {
    b.discountPercent == a.discountPercent && b.discountValidUntil == a.discountValidUntil
  }

  lemma PostLeavesPromos(db: Tables, mid: Tables, u: Id, kind: TransactionType, amount: int, requestId: Option<Id>,
                         intentId: Option<Id>, v: Id)
    requires u in mid.users && LeavesPromos(db, mid, v)
    ensures LeavesPromos(db, Post(mid, u, kind, amount, requestId, intentId, None), v)
  {
  }

  lemma CreationLeavesPromos(db: Tables, u: Id, credits: int, price: nat, now: Instant, v: Id)
    ensures LeavesPromos(db, CreatePayment(db, u, credits, price, now).db, v)
  {
    hide Discounted;
  }

  lemma TopUpLeavesPromos(db: Tables, u: Id, credits: int, price: nat, v: Id)
    ensures LeavesPromos(db, BotTopUp(db, u, credits, price).db, v)
  {
    hide Discounted, Post;
    if u in db.users {
      PostLeavesPromos(db, BotIntent(db, u, credits, price), u, TopUp, credits, None, Some(|db.intents|), v);
    }
  }

  lemma ConfirmLeavesPromos(db: Tables, i: Id, v: Id)
    ensures LeavesPromos(db, ConfirmPayment(db, i).db, v)
  {
    hide Post;
    if i < |db.intents| && db.intents[i].userId in db.users {
      var intent := db.intents[i];
      var marked := SetStatus(SetUser(db, intent.userId, WithoutDiscount(db.users[intent.userId])), i, Succeeded);
      PostLeavesPromos(db, marked, intent.userId, TopUp, intent.creditsAmount, None, Some(i), v);
    }
  }

  lemma CloseLeavesPromos(db: Tables, i: Id, status: PaymentStatus, v: Id)
    ensures LeavesPromos(db, ClosePending(db, i, status).db, v)
  {
    hide LeavesPromos, ClosePending;
    ClosePendingFrame(db, i, status);
    SamePromosLeft(db, ClosePending(db, i, status).db, v);
  }

  lemma RefundLeavesPromos(db: Tables, i: Id, v: Id)
    ensures LeavesPromos(db, RefundPayment(db, i).db, v)
  {
    hide Post;
    if i < |db.intents| && db.intents[i].userId in db.users {
      var intent := db.intents[i];
      PostLeavesPromos(db, SetStatus(db, i, Refunded), intent.userId, TransactionType.Refund, -intent.creditsAmount,
                       None, Some(i), v);
    }
  }

  lemma PaymentsLeavePromos(cfg: Settings, db: Tables, step: Step, v: Id)
    requires TouchesIntents(step)
    ensures LeavesPromos(db, OnTables(cfg, db, step), v)
  {
    hide CreatePayment, BotTopUp, ConfirmPayment, ClosePending, RefundPayment, LeavesPromos;
    match step
    case CreateIntent(u, credits, now) => CreationLeavesPromos(db, u, credits, cfg.price, now, v);
    case TopUpByBot(u, credits) => TopUpLeavesPromos(db, u, credits, cfg.price, v);
    case ConfirmIntent(i) => ConfirmLeavesPromos(db, i, v);
    case FailIntent(i) => CloseLeavesPromos(db, i, Failed, v);
    case CancelIntent(i) => CloseLeavesPromos(db, i, Canceled, v);
    case Refund(i) => RefundLeavesPromos(db, i, v);
  }

  lemma PlansLeavePromos(db: Tables, u: Id, plan: Plan, now: Instant, v: Id)
    ensures LeavesPromos(db, ActivateSubscription(db, u, plan, now).db, v)
    ensures LeavesPromos(db, AdminExpire(db, u).db, v)
  {
    hide LatestActive, PAID_PERIOD, Expire;
  }

  lemma SweepLeavesPromos(db: Tables, cutoff: Instant, v: Id)
    ensures LeavesPromos(db, Sweep(db, cutoff), v)
  {
    hide SweepRows, LosesPeriod;
  }

  lemma SubscriptionsLeavePromos(cfg: Settings, db: Tables, step: Step, v: Id)
    requires IsSubscription(step)
    ensures LeavesPromos(db, OnTables(cfg, db, step), v)
  {
    hide ActivateSubscription, AdminExpire, Sweep, LeavesPromos;
    match step
    case Subscribe(u, plan, now) => PlansLeavePromos(db, u, plan, now, v);
    case SweepExpired(now) => SweepLeavesPromos(db, now, v);
    case EndSubscription(u) => PlansLeavePromos(db, u, Free, 0, v);
  }

  lemma RegisterLeavesPromos(db: Tables, contact: Contact, bonus: int, v: Id)
    ensures LeavesPromos(db, Register(db, contact, bonus).db, v)
  {
    hide Registered, Post;
    if !Registered(db.users, contact) && bonus > 0 {
      PostLeavesPromos(db, CreateUser(db, NewUser(contact, Regular, Free, 0)), db.nextId, WelcomeBonus, bonus, None,
                       None, v);
    }
  }

  lemma AdjustLeavesPromos(db: Tables, u: Id, amount: int, v: Id)
    ensures LeavesPromos(db, AdjustBalance(db, u, amount).db, v)
  {
    hide Post;
    if u in db.users {
      PostLeavesPromos(db, db, u, Adjustment, amount, None, None, v);
    }
  }

  lemma SeedAdminLeavesPromos(db: Tables, address: string, v: Id)
    ensures LeavesPromos(db, SeedAdmin(db, address), v)
  {
    hide Registered;
  }

  lemma ProfileLeavesPromos(db: Tables, u: Id, text: string, v: Id)
    ensures LeavesPromos(db, StoreProfile(db, u, text), v)
  {
    hide LeavesPromos;
    SamePromosLeft(db, StoreProfile(db, u, text), v);
  }

  lemma AccountsLeavePromos(cfg: Settings, db: Tables, step: Step, v: Id)
    requires !TouchesQueue(step) && !TouchesPromos(step) && !TouchesIntents(step) && !IsSubscription(step)
    ensures LeavesPromos(db, OnTables(cfg, db, step), v)
  {
    hide Register, AdjustBalance, SeedAdmin, StoreProfile, LeavesPromos;
    match step
    case RegisterByApi(address) => RegisterLeavesPromos(db, Email(address), cfg.bonus, v);
    case StartTelegram(telegramId) => RegisterLeavesPromos(db, Telegram(telegramId), cfg.bonus, v);
    case SeedAdministrator(address) => SeedAdminLeavesPromos(db, address, v);
    case SaveProfile(u, text) => ProfileLeavesPromos(db, u, text, v);
    case Adjust(u, amount) => AdjustLeavesPromos(db, u, amount, v);
  }

  lemma DeliveryLeavesPromos(db: Tables, job: Job, w: World, v: Id)
    ensures LeavesPromos(db, RunJob(db, job, w).db, v)
  {
    hide RunJob, Generate, FromSnapshot, NewRequest;
    DeliveryCases(db, job, w);
  }

  lemma SamePromosLeft(a: Tables, b: Tables, v: Id)
    requires b.promos == a.promos && b.redemptions == a.redemptions && b.users == a.users
    ensures LeavesPromos(a, b, v)
  {
  }

  lemma OtherStepsLeavePromos(cfg: Settings, s: State, step: Step, v: Id)
    requires !TouchesPromos(step)
    ensures LeavesPromos(s.db, Apply(cfg, s, step).db, v)
  {
    hide LeavesPromos;
    if step.DeliverJob? {
      hide RunJob, Heard;
      SamePromosLeft(s.db, s.db, v);
      if step.job < |s.jobs| {
        DeliveryLeavesPromos(s.db, s.jobs[step.job], step.w, v);
      }
    } else if !TouchesQueue(step) {
      hide OnTables;
      if TouchesIntents(step) {
        PaymentsLeavePromos(cfg, s.db, step, v);
      } else if IsSubscription(step) {
        SubscriptionsLeavePromos(cfg, s.db, step, v);
      } else {
        AccountsLeavePromos(cfg, s.db, step, v);
      }
    } else {
      hide Apply;
      QueueStepFrame(cfg, s, step);
      SamePromosLeft(s.db, Apply(cfg, s, step).db, v);
    }
  }

  /** The bot does not pay `code` out while no activation is left. */
  ghost function BotRespects(code: string): (State, Step) -> bool {
    (s: State, step: Step) =>
      !(step.RedeemByBot? && step.code == code && BotPays(s.db, step.u, code)
        && s.db.promos[code].activations >= s.db.promos[code].maxActivations)
  }

  ghost predicate NoBotRedemption(s: State, step: Step) {
    !step.RedeemByBot?
  }

  /** Codes stay, nothing about them changes but the activations, and these only grow. */
  ghost predicate CodeGrows(a: Tables, b: Tables, code: string)
    requires code in a.promos
  {
    && code in b.promos
    && b.promos[code] == a.promos[code].(activations := b.promos[code].activations)
    && b.promos[code].activations >= a.promos[code].activations
  }

  lemma ApiGrows(db: Tables, u: Id, code: string, now: Instant, c: string)
    requires c in db.promos
    ensures CodeGrows(db, ApiRedeem(db, u, code, now).db, c)
  {
  }

  lemma BotGrows(db: Tables, u: Id, code: string, c: string)
    requires c in db.promos
    ensures CodeGrows(db, BotRedeem(db, u, code).db, c)
  {
  }

  /** What one step does to a code that is there. */
  ghost predicate GrowsLawfully(cfg: Settings, s: State, step: Step, code: string)
    requires code in s.db.promos
  {
    var after := Apply(cfg, s, step);
    && CodeGrows(s.db, after.db, code)
    && (WithinLimit(s.db, code) ==> (WithinLimit(after.db, code) <==> BotRespects(code)(s, step)))
  }

  lemma RedemptionGrows(cfg: Settings, s: State, step: Step, code: string)
    requires code in s.db.promos && (step.RedeemByApi? || step.RedeemByBot?)
    ensures GrowsLawfully(cfg, s, step, code)
  {
    hide ApiRedeem, BotRedeem, BotPays;
    if step.RedeemByApi? {
      ApiGrows(s.db, step.u, step.code, step.now, code);
      if WithinLimit(s.db, code) { ApiKeepsLimit(s.db, step.u, step.code, step.now, code); }
    } else {
      BotGrows(s.db, step.u, step.code, code);
      if WithinLimit(s.db, code) { BotKeepsLimitIff(s.db, step.u, step.code, code); }
    }
  }

  lemma NewPromoGrows(cfg: Settings, s: State, step: Step, code: string)
    requires code in s.db.promos && step.NewPromo?
    ensures GrowsLawfully(cfg, s, step, code)
  {
  }

  lemma StepGrows(cfg: Settings, s: State, step: Step, code: string)
    requires code in s.db.promos
    ensures GrowsLawfully(cfg, s, step, code)
  {
    if step.RedeemByApi? || step.RedeemByBot? {
      hide GrowsLawfully;
      RedemptionGrows(cfg, s, step, code);
    } else if step.NewPromo? {
      hide GrowsLawfully;
      NewPromoGrows(cfg, s, step, code);
    } else {
      hide Apply;
      OtherStepsLeavePromos(cfg, s, step, 0);
    }
  }

  lemma RedemptionsKeepCodes(db: Tables, u: Id, code: string, now: Instant)
    ensures ApiRedeem(db, u, code, now).db.promos.Keys == db.promos.Keys
    ensures BotRedeem(db, u, code).db.promos.Keys == db.promos.Keys
  {
  }

  lemma NewCodeIsUnused(cfg: Settings, s: State, step: Step, code: string)
    requires code !in s.db.promos && code in Apply(cfg, s, step).db.promos
    ensures WithinLimit(Apply(cfg, s, step).db, code) && BotRespects(code)(s, step)
  {
    if step.NewPromo? {
      NewPromoIsUnused(cfg, s, step, code);
      hide Apply;
    } else {
      hide Apply;
      OtherIsNoNewCode(cfg, s, step, code);
    }
  }

  lemma NewPromoIsUnused(cfg: Settings, s: State, step: Step, code: string)
    requires code !in s.db.promos && code in Apply(cfg, s, step).db.promos && step.NewPromo?
    ensures WithinLimit(Apply(cfg, s, step).db, code) && BotRespects(code)(s, step)
  {
  }

  lemma RedeemedIsNoNewCode(cfg: Settings, s: State, step: Step)
    requires step.RedeemByApi? || step.RedeemByBot?
    ensures Apply(cfg, s, step).db.promos.Keys == s.db.promos.Keys
  {
    hide ApiRedeem, BotRedeem;
    if step.RedeemByApi? {
      RedemptionsKeepCodes(s.db, step.u, step.code, step.now);
    } else {
      RedemptionsKeepCodes(s.db, step.u, step.code, 0);
    }
  }

  lemma OtherIsNoNewCode(cfg: Settings, s: State, step: Step, code: string)
    requires code !in s.db.promos && !step.NewPromo?
    ensures code !in Apply(cfg, s, step).db.promos
  {
    hide Apply;
    if TouchesPromos(step) {
      RedeemedIsNoNewCode(cfg, s, step);
    } else {
      OtherStepsLeavePromos(cfg, s, step, 0);
    }
  }

  lemma {:induction false} NothingBeforeTheCode(cfg: Settings, steps: seq<Step>, code: string)
    requires code !in Run(cfg, steps).db.promos
    ensures Along(cfg, steps, BotRespects(code))
  {
    hide Apply;
    if steps != [] {
      var init, last := steps[..|steps| - 1], steps[|steps| - 1];
      if code in Run(cfg, init).db.promos {
        StepGrows(cfg, Run(cfg, init), last, code);
      }
      NothingBeforeTheCode(cfg, init, code);
    }
  }

  /** A code is within its limit exactly in the runs where the bot never paid it out with no activation left. */
  lemma {:induction false} LimitKeptIff(cfg: Settings, steps: seq<Step>, code: string)
    requires code in Run(cfg, steps).db.promos
    ensures WithinLimit(Run(cfg, steps).db, code) <==> Along(cfg, steps, BotRespects(code))
  {
    hide Apply, BotRespects;
    assert steps != [];
    var init, last := steps[..|steps| - 1], steps[|steps| - 1];
    if code in Run(cfg, init).db.promos {
      LimitKeptIff(cfg, init, code);
      StepGrows(cfg, Run(cfg, init), last, code);
    } else {
      NothingBeforeTheCode(cfg, init, code);
      NewCodeIsUnused(cfg, Run(cfg, init), last, code);
    }
  }

  /** If codes are only redeemed through the API, no code is ever activated more often than it may be. */
  lemma LimitsKeptWithoutBot(cfg: Settings, steps: seq<Step>, code: string)
    requires Along(cfg, steps, NoBotRedemption) && code in Run(cfg, steps).db.promos
    ensures WithinLimit(Run(cfg, steps).db, code)
  {
    hide Run, WithinLimit;
    AlongWeakens(cfg, steps, NoBotRedemption, BotRespects(code));
    LimitKeptIff(cfg, steps, code);
  }
}
