/**
 The books of the whole service: contacts, balances, ledger, intents and promo codes. Every step keeps them, so
 they hold in every reachable state.
 */
module Books {
  import opened Wrappers
  import opened Schema
  import opened QuotaWindow
  import opened Ledger
  import opened Payments
  import opened PromoCodes
  import opened Subscriptions
  import opened VacancyCache
  import opened Generation
  import opened GenerationProofs
  import opened System

  ghost predicate BooksKept(db: Tables) {
    && UniqueContacts(db.users)
    && Conserved(db)
    && IntentsOwned(db)
    && IntentRowsExist(db)
    && PromosBalanced(db)
    && DiscountsInRange(db.users)
  }

  /** Nothing the books speak of changed, except for well-formed new intents. */
  ghost predicate SameBooks(a: Tables, b: Tables) {
    && SameLedger(a, b)
    && (forall u | u in a.users :: b.users[u].contact == a.users[u].contact)
    && (forall u | u in a.users :: b.users[u].discountPercent in {0, a.users[u].discountPercent})
    && |a.intents| <= |b.intents|
    && IntentsOwned(b)
    && b.promos == a.promos && b.redemptions == a.redemptions
  }

  lemma SameBooksKeeps(a: Tables, b: Tables)
    requires BooksKept(a) && SameBooks(a, b)
    ensures BooksKept(b)
  {
    hide Conserved, PromosBalanced;
    SameLedgerConserves(a, b);
    OtherRowsKeepPromos(a, b);
  }

  /** One posting that is not a promo grant. */
  lemma PostKeepsBooks(db: Tables, u: Id, kind: TransactionType, amount: int, requestId: Option<Id>,
        intentId: Option<Id>)
    requires BooksKept(db) && u in db.users && kind != WelcomeBonus && db.users[u].credits + amount >= 0
    requires intentId.Some? ==> intentId.value < |db.intents|
    ensures BooksKept(Post(db, u, kind, amount, requestId, intentId, None))
  {
    hide Conserved, PromosBalanced, Balanced;
    var after := Post(db, u, kind, amount, requestId, intentId, None);
    PostConserves(db, u, kind, amount, requestId, intentId, None);
    OtherRowsKeepPromos(db, after);
  }

  lemma CreditsKept(db: Tables, u: Id)
    requires BooksKept(db) && u in db.users
    ensures db.users[u].credits >= 0
  {
    hide Balanced;
    NeverNegative(db, u);
  }

  lemma RegisterKeepsBooks(db: Tables, contact: Contact, bonus: int)
    requires BooksKept(db)
    ensures BooksKept(Register(db, contact, bonus).db)
  {
    hide Conserved, PromosBalanced, UniqueContacts, Register;
    RegisterConserves(db, contact, bonus);
    RegisterJoins(db, contact, bonus);
    OtherRowsKeepPromos(db, Register(db, contact, bonus).db);
  }

  /** What registration leaves alone, and what it adds: a user without a discount, a row for no intent and no code. */
  ghost predicate Joins(a: Tables, b: Tables) {
    && SamePromos(a, b) && b.intents == a.intents
    && (forall u | u in a.users :: u in b.users)
    && (IntentRowsExist(a) ==> IntentRowsExist(b))
    && (DiscountsInRange(a.users) ==> DiscountsInRange(b.users))
  }

  lemma RegisterJoins(db: Tables, contact: Contact, bonus: int)
    ensures Joins(db, Register(db, contact, bonus).db)
  {
    hide Registered, CreateUser, Post, Joins;
    CreatedFrame(db, NewUser(contact, Regular, Free, 0));
    BonusJoins(db, CreateUser(db, NewUser(contact, Regular, Free, 0)), db.nextId, bonus);
    SameJoins(db, CreateUser(db, NewUser(contact, Regular, Free, 0)).nextId);
  }

  lemma SameJoins(db: Tables, nextId: Id)
    ensures Joins(db, db) && Joins(db, db.(nextId := nextId))
  {
  }

  lemma CreatedFrame(db: Tables, user: User)
    requires user.discountPercent == 0
    ensures var after := CreateUser(db, user);
      && after == db.(users := after.users, nextId := after.nextId) && db.nextId in after.users
      && (forall u | u in db.users :: u in after.users)
      && (DiscountsInRange(db.users) ==> DiscountsInRange(after.users))
  {
  }

  lemma BonusJoins(db: Tables, mid: Tables, u: Id, bonus: int)
    requires mid == db.(users := mid.users, nextId := mid.nextId) && u in mid.users
    requires forall v | v in db.users :: v in mid.users
    requires DiscountsInRange(db.users) ==> DiscountsInRange(mid.users)
    ensures Joins(db, Post(mid, u, WelcomeBonus, bonus, None, None, None))
  {
  }

  lemma SeedAdminKeepsBooks(db: Tables, address: string)
    requires BooksKept(db)
    ensures BooksKept(SeedAdmin(db, address))
  {
    hide Conserved, PromosBalanced, Registered;
    SeedAdminConserves(db, address);
    OtherRowsKeepPromos(db, SeedAdmin(db, address));
  }

  lemma AdjustKeepsBooks(db: Tables, u: Id, amount: int)
    requires BooksKept(db)
    ensures BooksKept(AdjustBalance(db, u, amount).db)
  {
    hide BooksKept, Post;
    if u in db.users && db.users[u].credits + amount >= 0 {
      PostKeepsBooks(db, u, Adjustment, amount, None, None);
    }
  }

  lemma BooksOwnIntents(db: Tables)
    requires BooksKept(db)
    ensures IntentsOwned(db)
  {
    hide Conserved, PromosBalanced;
  }

  lemma CreatePaymentKeepsBooks(db: Tables, u: Id, credits: int, price: nat, now: Instant)
    requires BooksKept(db)
    ensures BooksKept(CreatePayment(db, u, credits, price, now).db)
  {
    hide BooksKept, Discounted;
    BooksOwnIntents(db);
    if u in db.users && credits > 0 {
      SameBooksKeeps(db, CreatePayment(db, u, credits, price, now).db);
    }
  }

  lemma ConfirmKeepsBooks(db: Tables, i: Id)
    requires BooksKept(db)
    ensures BooksKept(ConfirmPayment(db, i).db)
  {
    hide BooksKept, Post;
    BooksOwnIntents(db);
    if i < |db.intents| && db.intents[i].status != Succeeded {
      var intent := db.intents[i];
      var marked := SetStatus(SetUser(db, intent.userId, WithoutDiscount(db.users[intent.userId])), i, Succeeded);
      SameBooksKeeps(db, marked);
      CreditsKept(db, intent.userId);
      PostKeepsBooks(marked, intent.userId, TopUp, intent.creditsAmount, None, Some(i));
    }
  }

  lemma ClosePendingKeepsBooks(db: Tables, i: Id, status: PaymentStatus)
    requires BooksKept(db)
    ensures BooksKept(ClosePending(db, i, status).db)
  {
    hide BooksKept;
    BooksOwnIntents(db);
    if i < |db.intents| && db.intents[i].status == Pending {
      SameBooksKeeps(db, SetStatus(db, i, status));
    }
  }

  lemma RefundKeepsBooks(db: Tables, i: Id)
    requires BooksKept(db)
    ensures BooksKept(RefundPayment(db, i).db)
  {
    hide BooksKept, Post;
    BooksOwnIntents(db);
    if i < |db.intents| && db.intents[i].status == Succeeded {
      var intent := db.intents[i];
      SameBooksKeeps(db, SetStatus(db, i, RefundManualReview));
      SameBooksKeeps(db, SetStatus(db, i, Refunded));
      if db.users[intent.userId].credits >= intent.creditsAmount {
        PostKeepsBooks(SetStatus(db, i, Refunded), intent.userId, TransactionType.Refund, -intent.creditsAmount,
                       None, Some(i));
      }
    }
  }

  lemma BotTopUpKeepsBooks(db: Tables, u: Id, credits: int, price: nat)
    requires BooksKept(db)
    ensures BooksKept(BotTopUp(db, u, credits, price).db)
  {
    hide BooksKept, Discounted, Post;
    BooksOwnIntents(db);
    if u in db.users && credits > 0 {
      SameBooksKeeps(db, BotIntent(db, u, credits, price));
      CreditsKept(db, u);
      PostKeepsBooks(BotIntent(db, u, credits, price), u, TopUp, credits, None, Some(|db.intents|));
    }
  }

  lemma CreatePromoKeepsBooks(db: Tables, code: string, kind: PromoKind, value: int, validUntil: Instant,
        maxActivations: int)
    requires BooksKept(db)
    ensures BooksKept(CreatePromo(db, code, kind, value, validUntil, maxActivations).db)
  {
    hide Conserved, PromosBalanced, CreatePromo;
    CreatePromoBalances(db, code, kind, value, validUntil, maxActivations);
    CreatePromoFrame(db, code, kind, value, validUntil, maxActivations);
    SameLedgerConserves(db, CreatePromo(db, code, kind, value, validUntil, maxActivations).db);
  }

  lemma CreatePromoFrame(db: Tables, code: string, kind: PromoKind, value: int, validUntil: Instant,
                         maxActivations: int)
    ensures var after := CreatePromo(db, code, kind, value, validUntil, maxActivations).db;
      after == db.(promos := after.promos)
  {
  }

  lemma GrantConserves(db: Tables, u: Id, code: string, discount: User)
    requires Conserved(db) && code in db.promos && u in db.users && db.promos[code].value > 0
    requires discount.credits == db.users[u].credits && discount.role == db.users[u].role
    ensures Conserved(Grant(db, u, code, discount).db)
  {
    hide Balanced, Conserved;
    var promo := db.promos[code];
    var activated := Activated(db, u, code);
    SameLedgerConserves(db, activated);
    if promo.kind == FixedCredits {
      NeverNegative(db, u);
      PostConserves(activated, u, TransactionType.Promo, promo.value, None, None, Some(code));
    } else {
      SameLedgerConserves(activated, activated.(users := activated.users[u := discount]));
    }
  }

  lemma PromoIsPositive(db: Tables, code: string)
    requires PromosBalanced(db) && code in db.promos
    ensures db.promos[code].value > 0
  {
    assert PromoBalanced(db, code);
  }

  lemma GrantKeepsBooks(db: Tables, u: Id, code: string, discount: User)
    requires BooksKept(db) && code in db.promos && u in db.users && Redemption(code, u) !in db.redemptions
    requires discount.credits == db.users[u].credits && discount.role == db.users[u].role
    requires discount.contact == db.users[u].contact && discount.discountPercent == db.promos[code].value
    ensures BooksKept(Grant(db, u, code, discount).db)
  {
    hide Conserved, PromosBalanced;
    PromoIsPositive(db, code);
    GrantConserves(db, u, code, discount);
    GrantBalances(db, u, code, discount);
  }

  lemma RedeemKeepsBooks(db: Tables, u: Id, code: string, now: Instant)
    requires BooksKept(db)
    ensures BooksKept(ApiRedeem(db, u, code, now).db)
    ensures BooksKept(BotRedeem(db, u, code).db)
  {
    hide BooksKept, Grant, Redeemable;
    if code in db.promos && u in db.users && Redemption(code, u) !in db.redemptions {
      var promo := db.promos[code];
      GrantKeepsBooks(db, u, code, db.users[u].(discountPercent := promo.value));
      GrantKeepsBooks(db, u, code,
                      db.users[u].(discountPercent := promo.value, discountValidUntil := Some(promo.validUntil),
                                   discountPromo := Some(code)));
    }
  }

  /** Only plans and subscriptions changed. */
  ghost predicate PlansOnly(a: Tables, b: Tables) {
    && b == a.(users := b.users, subscriptions := b.subscriptions)
    && b.users.Keys == a.users.Keys
    && (forall u | u in a.users :: b.users[u] == a.users[u].(plan := b.users[u].plan))
  }

  lemma PlansOnlyKeepsBooks(a: Tables, b: Tables)
    requires BooksKept(a) && PlansOnly(a, b)
    ensures BooksKept(b)
  {
    hide BooksKept;
    BooksOwnIntents(a);
    SameBooksKeeps(a, b);
  }

  lemma ActivationChangesPlans(db: Tables, u: Id, plan: Plan, now: Instant)
    ensures PlansOnly(db, ActivateSubscription(db, u, plan, now).db)
  {
    hide LatestActive, PAID_PERIOD, Expire;
  }

  lemma SweepChangesPlans(db: Tables, now: Instant)
    ensures PlansOnly(db, Sweep(db, now))
  {
    hide SweepRows, LosesPeriod;
  }

  lemma AdminExpireChangesPlans(db: Tables, u: Id)
    ensures PlansOnly(db, AdminExpire(db, u).db)
  {
    hide LatestActive, Expire;
  }

  lemma SubscriptionsKeepBooks(db: Tables, u: Id, plan: Plan, now: Instant)
    requires BooksKept(db)
    ensures BooksKept(ActivateSubscription(db, u, plan, now).db)
    ensures BooksKept(Sweep(db, now))
    ensures BooksKept(AdminExpire(db, u).db)
  {
    hide BooksKept, PlansOnly, ActivateSubscription, Sweep, AdminExpire;
    ActivationChangesPlans(db, u, plan, now);
    SweepChangesPlans(db, now);
    AdminExpireChangesPlans(db, u);
    PlansOnlyKeepsBooks(db, ActivateSubscription(db, u, plan, now).db);
    PlansOnlyKeepsBooks(db, Sweep(db, now));
    PlansOnlyKeepsBooks(db, AdminExpire(db, u).db);
  }

  lemma ProfileKeepsBooks(db: Tables, u: Id, text: string)
    requires BooksKept(db)
    ensures BooksKept(StoreProfile(db, u, text))
  {
    hide BooksKept, StoreProfile, SameBooks, IntentsOwned;
    BooksOwnIntents(db);
    ProfileFrame(db, u, text);
    SameTablesSameBooks(db, StoreProfile(db, u, text));
    SameBooksKeeps(db, StoreProfile(db, u, text));
  }

  lemma PlainStepsKeepBooks(cfg: Settings, db: Tables, step: Step)
    requires BooksKept(db) && !TouchesQueue(step)
    ensures BooksKept(OnTables(cfg, db, step))
  {
    hide BooksKept, Register, SeedAdmin, StoreProfile, AdjustBalance, CreatePayment, BotTopUp, ConfirmPayment,
      ClosePending, RefundPayment, ActivateSubscription, Sweep, AdminExpire, CreatePromo, ApiRedeem, BotRedeem;
    match step
    case RegisterByApi(address) => RegisterKeepsBooks(db, Email(address), cfg.bonus);
    case StartTelegram(telegramId) => RegisterKeepsBooks(db, Telegram(telegramId), cfg.bonus);
    case SeedAdministrator(address) => SeedAdminKeepsBooks(db, address);
    case SaveProfile(u, text) => ProfileKeepsBooks(db, u, text);
    case CreateIntent(u, credits, now) => CreatePaymentKeepsBooks(db, u, credits, cfg.price, now);
    case ConfirmIntent(i) => ConfirmKeepsBooks(db, i);
    case FailIntent(i) => ClosePendingKeepsBooks(db, i, Failed);
    case CancelIntent(i) => ClosePendingKeepsBooks(db, i, Canceled);
    case Refund(i) => RefundKeepsBooks(db, i);
    case TopUpByBot(u, credits) => BotTopUpKeepsBooks(db, u, credits, cfg.price);
    case NewPromo(code, kind, value, validUntil, maxActivations) =>
      CreatePromoKeepsBooks(db, code, kind, value, validUntil, maxActivations);
    case RedeemByApi(u, code, now) => RedeemKeepsBooks(db, u, code, now);
    case RedeemByBot(u, code) => RedeemKeepsBooks(db, u, code, 0);
    case Adjust(u, amount) => AdjustKeepsBooks(db, u, amount);
    case Subscribe(u, plan, now) => SubscriptionsKeepBooks(db, u, plan, now);
    case SweepExpired(now) => SubscriptionsKeepBooks(db, 0, Free, now);
    case EndSubscription(u) => SubscriptionsKeepBooks(db, u, Free, 0);
  }

  /** The part of a delivery before its debit is none of the books' business. */
  lemma WritingKeepsBooks(db: Tables, after: Tables, job: Job, w: World, saved: Saved)
    requires BooksKept(db) && Wrote(db, after, job, w, saved) && db.nextId <= after.nextId
    ensures BooksKept(after)
  {
    hide BooksKept, FromSnapshot, NewRequest;
    BooksOwnIntents(db);
    SameBooksKeeps(db, after);
  }

  lemma DeliveryKeepsBooks(db: Tables, job: Job, w: World)
    requires BooksKept(db)
    ensures BooksKept(RunJob(db, job, w).db)
  {
    hide BooksKept, RunJob, Wrote, Generate, Post;
    DeliveryCases(db, job, w);
    BooksOwnIntents(db);
    var r := RunJob(db, job, w);
    if r.outcome.Returned? {
      var g := Generate(db, job, w);
      GenerateAdvances(db, job, w);
      WritingKeepsBooks(db, g.db, job, w, g.outcome.value);
      if job.charge && job.cost > 0 {
        PostKeepsBooks(g.db, job.userId, Spend, -job.cost, Some(g.outcome.value.letter.requestId), None);
      }
    } else {
      RunFailsAlone(db, job, w);
      SameBooksKeeps(db, r.db);
    }
  }

  lemma QueueStepKeepsBooks(cfg: Settings, s: State, step: Step)
    requires BooksKept(s.db) && TouchesQueue(step) && !step.DeliverJob?
    ensures BooksKept(Apply(cfg, s, step).db)
  {
    hide BooksKept, Apply, IntentsOwned;
    QueueStepFrame(cfg, s, step);
    BooksOwnIntents(s.db);
    SameTablesSameBooks(s.db, Apply(cfg, s, step).db);
    SameBooksKeeps(s.db, Apply(cfg, s, step).db);
  }

  lemma SameTablesSameBooks(a: Tables, b: Tables)
    requires IntentsOwned(a) && b.users == a.users && b.transactions == a.transactions && b.intents == a.intents
    requires b.promos == a.promos && b.redemptions == a.redemptions && a.nextId <= b.nextId
    ensures SameBooks(a, b)
  {
  }

  lemma StepKeepsBooks(cfg: Settings, s: State, step: Step)
    requires BooksKept(s.db)
    ensures BooksKept(Apply(cfg, s, step).db)
  {
    hide BooksKept;
    if !TouchesQueue(step) {
      hide OnTables;
      PlainStepsKeepBooks(cfg, s.db, step);
    } else if step.DeliverJob? {
      hide RunJob, Heard;
      if step.job < |s.jobs| {
        DeliveryKeepsBooks(s.db, s.jobs[step.job], step.w);
      }
    } else {
      hide Apply;
      QueueStepKeepsBooks(cfg, s, step);
    }
  }

  /**
   In every reachable state, whatever the order of steps, redeliveries, crashes and open transactions: each
   balance is its opening balance plus the user's ledger rows and is never negative, each row shows the balance
   it led to, everyone but the seeded administrator got exactly one welcome bonus, and every promo code's
   activations, redemptions and grants agree.
   */
  lemma {:induction false} BooksAlwaysKept(cfg: Settings, steps: seq<Step>)
    ensures BooksKept(Run(cfg, steps).db)
  {
    hide Apply;
    if steps == [] {
      assert Conserved(EMPTY) && PromosBalanced(EMPTY);
    } else {
      BooksAlwaysKept(cfg, steps[..|steps| - 1]);
      StepKeepsBooks(cfg, Run(cfg, steps[..|steps| - 1]), steps[|steps| - 1]);
    }
  }
}
