/** Whose discount is pending, what is charged with it, and the prices of intents, in every run. */
module DiscountRuns {
  import opened Wrappers
  import opened Schema
  import opened Ledger
  import opened Payments
  import opened PromoCodes
  import opened System
  import opened Books
  import opened IntentRuns
  import opened PromoRuns

  // ---------- The price of an intent ----------

  /** Every intent costs its credits at the price of one, less its own discount. */
  ghost predicate IntentsPriced(intents: seq<Intent>, price: nat) {
    forall i | 0 <= i < |intents| ::
      && 0 <= intents[i].discountPercent <= 100
      && intents[i].amountRub == Discounted(intents[i].creditsAmount * price, intents[i].discountPercent)
  }

  lemma NewIntentsPriced(db: Tables, u: Id, credits: int, price: nat, now: Instant)
    requires IntentsPriced(db.intents, price) && DiscountsInRange(db.users)
    ensures IntentsPriced(CreatePayment(db, u, credits, price, now).db.intents, price)
    ensures IntentsPriced(BotTopUp(db, u, credits, price).db.intents, price)
  {
    hide Discounted;
  }

  lemma StatusKeepsPrices(db: Tables, i: Id, status: PaymentStatus, price: nat)
    requires IntentsPriced(db.intents, price) && i < |db.intents|
    ensures IntentsPriced(SetStatus(db, i, status).intents, price)
  {
    hide Discounted;
  }

  lemma ConfirmKeepsPrices(db: Tables, i: Id, price: nat)
    requires IntentsPriced(db.intents, price)
    ensures IntentsPriced(ConfirmPayment(db, i).db.intents, price)
  {
    hide IntentsPriced, Post, SetStatus;
    if i < |db.intents| && db.intents[i].userId in db.users {
      var intent := db.intents[i];
      var cleared := SetUser(db, intent.userId, WithoutDiscount(db.users[intent.userId]));
      StatusKeepsPrices(cleared, i, Succeeded, price);
      StatusKeepsUsers(cleared, i, Succeeded);
      PostKeepsIntents(SetStatus(cleared, i, Succeeded), intent.userId, TopUp, intent.creditsAmount, i);
    }
  }

  lemma StatusKeepsUsers(db: Tables, i: Id, status: PaymentStatus)
    requires i < |db.intents|
    ensures SetStatus(db, i, status).users == db.users
  {
  }

  lemma CloseKeepsPrices(db: Tables, i: Id, status: PaymentStatus, price: nat)
    requires IntentsPriced(db.intents, price)
    ensures IntentsPriced(ClosePending(db, i, status).db.intents, price)
  {
    hide IntentsPriced, SetStatus;
    if i < |db.intents| {
      StatusKeepsPrices(db, i, status, price);
    }
  }

  lemma RefundKeepsPrices(db: Tables, i: Id, price: nat)
    requires IntentsPriced(db.intents, price)
    ensures IntentsPriced(RefundPayment(db, i).db.intents, price)
  {
    hide IntentsPriced, Post, SetStatus;
    if i < |db.intents| && db.intents[i].userId in db.users {
      var intent := db.intents[i];
      StatusKeepsPrices(db, i, RefundManualReview, price);
      StatusKeepsPrices(db, i, Refunded, price);
      StatusKeepsUsers(db, i, Refunded);
      PostKeepsIntents(SetStatus(db, i, Refunded), intent.userId, TransactionType.Refund, -intent.creditsAmount, i);
    }
  }

  lemma StepKeepsPrices(cfg: Settings, s: State, step: Step)
    requires IntentsPriced(s.db.intents, cfg.price) && DiscountsInRange(s.db.users)
    ensures IntentsPriced(Apply(cfg, s, step).db.intents, cfg.price)
  {
    hide IntentsPriced, CreatePayment, BotTopUp, ConfirmPayment, ClosePending, RefundPayment;
    match step
    case CreateIntent(u, credits, now) => NewIntentsPriced(s.db, u, credits, cfg.price, now);
    case TopUpByBot(u, credits) => NewIntentsPriced(s.db, u, credits, cfg.price, 0);
    case ConfirmIntent(i) => ConfirmKeepsPrices(s.db, i, cfg.price);
    case FailIntent(i) => CloseKeepsPrices(s.db, i, Failed, cfg.price);
    case CancelIntent(i) => CloseKeepsPrices(s.db, i, Canceled, cfg.price);
    case Refund(i) => RefundKeepsPrices(s.db, i, cfg.price);
    case _ =>
      OtherStepsLeaveIntents(cfg, s, step);
      hide Apply;
  }

  lemma {:induction false} PricedInEveryRun(cfg: Settings, steps: seq<Step>)
    ensures IntentsPriced(Run(cfg, steps).db.intents, cfg.price)
  {
    hide Apply, Discounted;
    if steps != [] {
      var init := steps[..|steps| - 1];
      PricedInEveryRun(cfg, init);
      BooksAlwaysKept(cfg, init);
      RangeKept(Run(cfg, init).db);
      StepKeepsPrices(cfg, Run(cfg, init), steps[|steps| - 1]);
    }
  }

  lemma RangeKept(db: Tables)
    requires BooksKept(db)
    ensures DiscountsInRange(db.users) && IntentsOwned(db)
  {
    hide Conserved, PromosBalanced;
  }

  /**
   In every run, every intent costs its credits at the price of one less the discount it carries, rounded down to whole
   roubles: never less than nothing, never more than without a discount.
   */
  lemma PriceInEveryRun(cfg: Settings, steps: seq<Step>, i: Id)
    requires i < |Run(cfg, steps).db.intents|
    ensures var intent := Run(cfg, steps).db.intents[i];
      && 0 <= intent.amountRub <= intent.creditsAmount * cfg.price
      && 0 <= intent.discountPercent <= 100
      && 100 * intent.amountRub <= intent.creditsAmount * cfg.price * (100 - intent.discountPercent)
      && intent.creditsAmount * cfg.price * (100 - intent.discountPercent) < 100 * (intent.amountRub + 1)
  {
    hide Run, Discounted, BooksKept;
    PricedInEveryRun(cfg, steps);
    BooksAlwaysKept(cfg, steps);
    RangeKept(Run(cfg, steps).db);
    var intent := Run(cfg, steps).db.intents[i];
    NonNegativeProduct(intent.creditsAmount, cfg.price);
    DiscountedPrice(intent.creditsAmount * cfg.price, intent.discountPercent);
  }

  // ---------- Where a pending discount comes from ----------

  /** A pending discount is that of the discount code the user redeemed last. */
  ghost predicate DiscountKnown(db: Tables, u: Id) {
    u in db.users && db.users[u].discountPercent != 0 ==>
      var code := LastDiscount(db.redemptions, db.promos, u);
      code.Some? && db.users[u].discountPercent == db.promos[code.value].value
  }

  /** And the expiry on record is that code's own. */
  ghost predicate ExpiryKnown(db: Tables, u: Id) {
    u in db.users && db.users[u].discountPercent != 0 ==>
      var code := LastDiscount(db.redemptions, db.promos, u);
      code.Some? && db.users[u].discountValidUntil == Some(db.promos[code.value].validUntil)
  }

  lemma OthersKeepKnown(cfg: Settings, s: State, step: Step, u: Id)
    requires !TouchesPromos(step)
    ensures DiscountKnown(s.db, u) ==> DiscountKnown(Apply(cfg, s, step).db, u)
    ensures ExpiryKnown(s.db, u) ==> ExpiryKnown(Apply(cfg, s, step).db, u)
  {
    hide Apply, LastDiscount;
    OtherStepsLeavePromos(cfg, s, step, u);
  }

  lemma NewPromoKeepsKnown(db: Tables, code: string, kind: PromoKind, value: int, validUntil: Instant,
                           maxActivations: int, u: Id)
    requires forall i | 0 <= i < |db.redemptions| :: db.redemptions[i].code in db.promos
    ensures var after := CreatePromo(db, code, kind, value, validUntil, maxActivations).db;
      && (DiscountKnown(db, u) ==> DiscountKnown(after, u))
      && (ExpiryKnown(db, u) ==> ExpiryKnown(after, u))
  {
    hide LastDiscount;
    var after := CreatePromo(db, code, kind, value, validUntil, maxActivations).db;
    LastDiscountKept(db.redemptions, db.promos, after.promos, u);
  }

  /** A redemption either replaces the discount of its user, code included, or changes nobody's. */
  lemma GrantLastDiscount(db: Tables, u: Id, code: string, discount: User, v: Id)
    requires code in db.promos && u in db.users && Grant(db, u, code, discount).outcome.Returned?
    requires forall i | 0 <= i < |db.redemptions| :: db.redemptions[i].code in db.promos
    ensures var after := Grant(db, u, code, discount).db;
      LastDiscount(after.redemptions, after.promos, v) ==
      if u == v && db.promos[code].kind == TopUpDiscount then Some(code)
      else LastDiscount(db.redemptions, db.promos, v)
  {
    hide LastDiscount, Post;
    var after := Activated(db, u, code);
    LastDiscountKept(db.redemptions, db.promos, after.promos, v);
    LastDiscountAppend(db.redemptions, after.promos, Redemption(code, u), v);
    PostKeepsRedemptions(after, u, db.promos[code].value, code);
  }

  lemma PostKeepsRedemptions(db: Tables, u: Id, amount: int, code: string)
    requires u in db.users
    ensures var after := Post(db, u, TransactionType.Promo, amount, None, None, Some(code));
      after.redemptions == db.redemptions && after.promos == db.promos
  {
  }

  lemma GrantedUsers(db: Tables, u: Id, code: string, discount: User, v: Id)
    requires code in db.promos && u in db.users && Grant(db, u, code, discount).outcome.Returned? && v in db.users
    ensures var after := Grant(db, u, code, discount).db;
      && v in after.users
      && (if v == u && db.promos[code].kind == TopUpDiscount then after.users[v] == discount
          else SameDiscount(db.users[v], after.users[v]))
      && code in after.promos && after.promos[code].value == db.promos[code].value
      && after.promos[code].validUntil == db.promos[code].validUntil
  {
  }

  lemma GrantKeepsOther(db: Tables, u: Id, code: string, discount: User, v: Id, c: string)
    requires code in db.promos && u in db.users && Grant(db, u, code, discount).outcome.Returned? && c in db.promos
    ensures var after := Grant(db, u, code, discount).db;
      && c in after.promos && after.promos[c].value == db.promos[c].value
      && after.promos[c].validUntil == db.promos[c].validUntil && (v !in db.users ==> v !in after.users)
  {
  }

  lemma GrantKeepsKnown(db: Tables, u: Id, code: string, discount: User, v: Id)
    requires code in db.promos && u in db.users && discount.discountPercent == db.promos[code].value
    requires forall i | 0 <= i < |db.redemptions| :: db.redemptions[i].code in db.promos
    ensures var after := Grant(db, u, code, discount).db;
      && (DiscountKnown(db, v) ==> DiscountKnown(after, v))
      && (ExpiryKnown(db, v) && (u == v ==> discount.discountValidUntil == Some(db.promos[code].validUntil)) ==>
            ExpiryKnown(after, v))
  {
    if Grant(db, u, code, discount).outcome.Returned? {
      hide Grant, LastDiscount;
      GrantLastDiscount(db, u, code, discount, v);
      GrantKeepsOther(db, u, code, discount, v, code);
      if v in db.users {
        GrantedUsers(db, u, code, discount, v);
      }
      var last := LastDiscount(db.redemptions, db.promos, v);
      if last.Some? {
        GrantKeepsOther(db, u, code, discount, v, last.value);
      }
    }
  }

  lemma RedemptionKeepsKnown(db: Tables, u: Id, code: string, now: Instant, v: Id)
    requires forall i | 0 <= i < |db.redemptions| :: db.redemptions[i].code in db.promos
    ensures DiscountKnown(db, v) ==> DiscountKnown(ApiRedeem(db, u, code, now).db, v)
    ensures DiscountKnown(db, v) ==> DiscountKnown(BotRedeem(db, u, code).db, v)
    ensures ExpiryKnown(db, v) ==> ExpiryKnown(ApiRedeem(db, u, code, now).db, v)
    ensures ExpiryKnown(db, v) && u != v ==> ExpiryKnown(BotRedeem(db, u, code).db, v)
  {
    hide Grant, Redeemable, DiscountKnown, ExpiryKnown;
    if code in db.promos && u in db.users {
      var promo := db.promos[code];
      GrantKeepsKnown(db, u, code, db.users[u].(discountPercent := promo.value), v);
      GrantKeepsKnown(db, u, code,
                      db.users[u].(discountPercent := promo.value, discountValidUntil := Some(promo.validUntil),
                                   discountPromo := Some(code)), v);
    }
  }

  /** The user does not redeem through the bot. */
  ghost function OnlyApi(u: Id): (State, Step) -> bool {
    (s: State, step: Step) => !(step.RedeemByBot? && step.u == u)
  }

  lemma StepKeepsKnown(cfg: Settings, s: State, step: Step, u: Id)
    requires forall i | 0 <= i < |s.db.redemptions| :: s.db.redemptions[i].code in s.db.promos
    ensures DiscountKnown(s.db, u) ==> DiscountKnown(Apply(cfg, s, step).db, u)
    ensures ExpiryKnown(s.db, u) && OnlyApi(u)(s, step) ==> ExpiryKnown(Apply(cfg, s, step).db, u)
  {
    hide DiscountKnown, ExpiryKnown;
    if TouchesPromos(step) {
      hide ApiRedeem, BotRedeem, CreatePromo;
      match step
      case NewPromo(code, kind, value, validUntil, maxActivations) =>
        NewPromoKeepsKnown(s.db, code, kind, value, validUntil, maxActivations, u);
      case RedeemByApi(v, code, now) => RedemptionKeepsKnown(s.db, v, code, now, u);
      case RedeemByBot(v, code) => RedemptionKeepsKnown(s.db, v, code, 0, u);
    } else {
      hide Apply;
      OthersKeepKnown(cfg, s, step, u);
    }
  }

  lemma RedeemedCodesExist(db: Tables)
    requires BooksKept(db)
    ensures forall i | 0 <= i < |db.redemptions| :: db.redemptions[i].code in db.promos
  {
    hide Conserved, PromoBalanced;
  }

  lemma {:induction false} KnownInEveryRun(cfg: Settings, steps: seq<Step>, u: Id)
    ensures DiscountKnown(Run(cfg, steps).db, u)
    ensures Along(cfg, steps, OnlyApi(u)) ==> ExpiryKnown(Run(cfg, steps).db, u)
  {
    if steps == [] {
      NoUsersYet(u);
    } else {
      hide Apply, DiscountKnown, ExpiryKnown, OnlyApi;
      var init := steps[..|steps| - 1];
      KnownInEveryRun(cfg, init, u);
      BooksAlwaysKept(cfg, init);
      RedeemedCodesExist(Run(cfg, init).db);
      StepKeepsKnown(cfg, Run(cfg, init), steps[|steps| - 1], u);
    }
  }

  lemma NoUsersYet(u: Id)
    ensures DiscountKnown(EMPTY, u) && ExpiryKnown(EMPTY, u)
  {
  }

  // ---------- What is charged with it ----------

  /**
   In every run, whoever has a pending discount has it from the code redeemed last. A top-up through the API is charged
   as that code promises exactly if the expiry on record and the code's agree about now; one through the bot exactly
   if the code is still valid.
   */
  lemma ChargedAsPromisedIff(cfg: Settings, steps: seq<Step>, u: Id, credits: int, now: Instant)
    requires var db := Run(cfg, steps).db; u in db.users && db.users[u].discountPercent != 0 && credits > 0
    ensures var db := Run(cfg, steps).db;
      var code := LastDiscount(db.redemptions, db.promos, u);
      && code.Some?
      && var promo := db.promos[code.value];
        var byApi, byBot := CreatePayment(db, u, credits, cfg.price, now).db, BotTopUp(db, u, credits, cfg.price).db;
        && |byApi.intents| == |byBot.intents| == |db.intents| + 1
        && (ChargedAsPromised(promo, byApi.intents[|db.intents|], cfg.price, now) <==>
            cfg.price == 0 || (Lapsed(db.users[u].discountValidUntil, now) <==> promo.validUntil <= now))
        && (ChargedAsPromised(promo, byBot.intents[|db.intents|], cfg.price, now) <==>
            cfg.price == 0 || now < promo.validUntil)
  {
    hide Run, LastDiscount, CreatePayment, BotTopUp, BooksKept, ChargedAsPromised, Lapsed;
    var db := Run(cfg, steps).db;
    KnownInEveryRun(cfg, steps, u);
    BooksAlwaysKept(cfg, steps);
    RangeKept(db);
    var promo := db.promos[LastDiscount(db.redemptions, db.promos, u).value];
    OneMoreIntent(db, u, credits, cfg.price, now);
    ApiChargesAsPromisedIff(db, u, promo, credits, cfg.price, now);
    BotChargesAsPromisedIff(db, u, promo, credits, cfg.price, now);
  }

  lemma OneMoreIntent(db: Tables, u: Id, credits: int, price: nat, now: Instant)
    requires u in db.users && credits > 0
    ensures |CreatePayment(db, u, credits, price, now).db.intents| == |db.intents| + 1
    ensures |BotTopUp(db, u, credits, price).db.intents| == |db.intents| + 1
  {
    hide Discounted;
  }

  /** Whoever redeems through the API only is always charged as promised there. */
  lemma ApiUsersAreChargedAsPromised(cfg: Settings, steps: seq<Step>, u: Id, credits: int, now: Instant)
    requires Along(cfg, steps, OnlyApi(u)) && credits > 0
    requires var db := Run(cfg, steps).db; u in db.users && db.users[u].discountPercent != 0
    ensures var db := Run(cfg, steps).db;
      var code := LastDiscount(db.redemptions, db.promos, u);
      var after := CreatePayment(db, u, credits, cfg.price, now).db;
      && code.Some? && |after.intents| == |db.intents| + 1
      && ChargedAsPromised(db.promos[code.value], after.intents[|db.intents|], cfg.price, now)
  {
    hide Run, LastDiscount, CreatePayment, BotTopUp, ChargedAsPromised;
    KnownInEveryRun(cfg, steps, u);
    ChargedAsPromisedIff(cfg, steps, u, credits, now);
  }
}
