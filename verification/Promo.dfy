/**
 Promo codes: creation by an administrator and the two ways to redeem one, through the API and through the
 Telegram bot. Codes are given normalised (stripped and in upper case), as both paths look them up.
 */
module PromoCodes {
  import opened Wrappers
  import opened Schema
  import opened Ledger
  import opened Payments

  function OfPromo(code: string): Transaction -> bool {
    (t: Transaction) => t.promo == Some(code)
  }

  /** How often a code was redeemed. */
  function Redeemed(rows: seq<Redemption>, code: string): nat {
    if rows == [] then 0
    else Redeemed(rows[..|rows| - 1], code) + if rows[|rows| - 1].code == code then 1 else 0
  }

  function CreatePromo(db: Tables, code: string, kind: PromoKind, value: int, validUntil: Instant, maxActivations: int)
    : Finished<string>
  {
    if value <= 0 || maxActivations <= 0 then Finished(db, Raised(BadRequest))
    else if code in db.promos then Finished(db, Raised(Conflict))
    else Finished(db.(promos := db.promos[code := PromoCode(kind, value, validUntil, maxActivations, 0, true)]),
        Returned(code))
  }

  predicate Redeemable(promo: PromoCode, now: Instant) {
    promo.isActive && now <= promo.validUntil && promo.activations < promo.maxActivations
  }

  /** One more activation and its row. */
  function Activated(db: Tables, u: Id, code: string): Tables
    requires code in db.promos
  {
    var promo := db.promos[code];
    db.(promos := db.promos[code := promo.(activations := promo.activations + 1)],
        redemptions := db.redemptions + [Redemption(code, u)])
  }

  /** What both paths do with a code that passed their checks; `discount` is what a discount code changes. */
  function Grant(db: Tables, u: Id, code: string, discount: User): Finished<string>
    requires code in db.promos && u in db.users
  {
    var promo := db.promos[code];
    var activated := Activated(db, u, code);
    if promo.kind == FixedCredits then
      Finished(Post(activated, u, TransactionType.Promo, promo.value, None, None, Some(code)), Returned(code))
    else if discount.discountPercent > 100 then Finished(db, Raised(IntegrityError))
    else Finished(activated.(users := activated.users[u := discount]), Returned(code))
  }

  function ApiRedeem(db: Tables, u: Id, code: string, now: Instant): Finished<string> {
    if code !in db.promos then Finished(db, Raised(NotFound))
    else if Redemption(code, u) in db.redemptions then Finished(db, Raised(Conflict))
    else if !Redeemable(db.promos[code], now) then Finished(db, Raised(BadRequest))
    else if u !in db.users then Finished(db, Raised(NotFound))
    else
      var promo := db.promos[code];
      Grant(db, u, code,
            db.users[u].(discountPercent := promo.value, discountValidUntil := Some(promo.validUntil),
                discountPromo := Some(code)))
  }

  /** The bot does not validate the code, and of the discount it only sets the percentage. */
  function BotRedeem(db: Tables, u: Id, code: string): Finished<string> {
    if code !in db.promos then Finished(db, Raised(NotFound))
    else if Redemption(code, u) in db.redemptions then Finished(db, Raised(Conflict))
    else if u !in db.users then Finished(db, Raised(UserNotFound))
    else Grant(db, u, code, db.users[u].(discountPercent := db.promos[code].value))
  }

  // ---------- The handlers, step by step ----------

  method CreatePromoCode(db: Database, code: string, kind: PromoKind, value: int, validUntil: Instant,
        maxActivations: int)
      returns (r: Outcome<string, Error>)
    modifies db
    ensures Finished(db.Snapshot(), r) == CreatePromo(old(db.Snapshot()), code, kind, value, validUntil, maxActivations)
  {
    if value <= 0 || maxActivations <= 0 {
      return Raised(BadRequest);
    }
    if code in db.promos {
      return Raised(Conflict);
    }
    db.promos := db.promos[code := PromoCode(kind, value, validUntil, maxActivations, 0, true)];
    return Returned(code);
  }

  /** The check constraint on the discount, at the flush. */
  method FlushDiscount(db: Database, u: Id, before: Tables, code: string) returns (r: Outcome<string, Error>)
    requires u in db.users
    modifies db
    ensures db.Snapshot() == if old(db.users[u].discountPercent) > 100 then before.(nextId := old(db.nextId))
        else old(db.Snapshot())
    ensures r == if old(db.users[u].discountPercent) > 100 then Raised(IntegrityError) else Returned(code)
  {
    if db.users[u].discountPercent > 100 {
      db.Rollback(before);
      return Raised(IntegrityError);
    }
    return Returned(code);
  }

  method RedeemThroughApi(db: Database, u: Id, code: string, now: Instant) returns (r: Outcome<string, Error>)
    modifies db
    ensures Finished(db.Snapshot(), r) == ApiRedeem(old(db.Snapshot()), u, code, now)
  {
    var before := db.Snapshot();
    if code !in db.promos {
      return Raised(NotFound);
    }
    if Redemption(code, u) in db.redemptions {
      return Raised(Conflict);
    }
    var promo := db.promos[code];
    if !promo.isActive || promo.validUntil < now || promo.activations >= promo.maxActivations {
      return Raised(BadRequest);
    }
    if u !in db.users {
      return Raised(NotFound);
    }
    var locked := db.users[u];
    db.promos := db.promos[code := promo.(activations := promo.activations + 1)];
    db.redemptions := db.redemptions + [Redemption(code, u)];
    if promo.kind == FixedCredits {
      locked := locked.(credits := locked.credits + promo.value);
      db.users := db.users[u := locked];
      db.transactions := db.transactions +
        [Transaction(u, TransactionType.Promo, promo.value, locked.credits, None, None, Some(code))];
      return Returned(code);
    }
    locked := locked.(discountPercent := promo.value, discountValidUntil := Some(promo.validUntil),
        discountPromo := Some(code));
    db.users := db.users[u := locked];
    r := FlushDiscount(db, u, before, code);
  }

  method RedeemThroughBot(db: Database, u: Id, code: string) returns (r: Outcome<string, Error>)
    modifies db
    ensures Finished(db.Snapshot(), r) == BotRedeem(old(db.Snapshot()), u, code)
  {
    var before := db.Snapshot();
    if code !in db.promos {
      return Raised(NotFound);
    }
    if Redemption(code, u) in db.redemptions {
      return Raised(Conflict);
    }
    if u !in db.users {
      return Raised(UserNotFound);
    }
    var promo := db.promos[code];
    var user := db.users[u];
    db.promos := db.promos[code := promo.(activations := promo.activations + 1)];
    db.redemptions := db.redemptions + [Redemption(code, u)];
    if promo.kind == FixedCredits {
      user := user.(credits := user.credits + promo.value);
      db.users := db.users[u := user];
      db.transactions := db.transactions +
        [Transaction(u, TransactionType.Promo, promo.value, user.credits, None, None, Some(code))];
      return Returned(code);
    }
    db.users := db.users[u := user.(discountPercent := promo.value)];
    r := FlushDiscount(db, u, before, code);
  }

  // ---------- When a code is paid out, and what it pays ----------

  /** The API pays a code out exactly if nothing in its row, its redemptions and its user speaks against it. */
  lemma ApiPaysIff(db: Tables, u: Id, code: string, now: Instant)
    ensures ApiRedeem(db, u, code, now).outcome.Returned? <==>
            && code in db.promos && u in db.users
            && db.promos[code].isActive && now <= db.promos[code].validUntil
            && db.promos[code].activations < db.promos[code].maxActivations
            && (forall k | 0 <= k < |db.redemptions| :: db.redemptions[k] != Redemption(code, u))
            && (db.promos[code].kind == TopUpDiscount ==> db.promos[code].value <= 100)
  {
  }

  /** The answers to codes that are not paid out, which change nothing: what is asked first names the error. */
  lemma RedeemErrors(db: Tables, u: Id, code: string, now: Instant)
    ensures var api, bot, used := ApiRedeem(db, u, code, now), BotRedeem(db, u, code),
                                  Redemption(code, u) in db.redemptions;
      && (api.outcome.Raised? ==> api.db == db) && (bot.outcome.Raised? ==> bot.db == db)
      && (code !in db.promos ==> api.outcome == bot.outcome == Raised(NotFound))
      && (code in db.promos && used ==> api.outcome == bot.outcome == Raised(Conflict))
      && (code in db.promos && !used ==>
            var promo := db.promos[code];
            var payable := promo.isActive && now <= promo.validUntil && promo.activations < promo.maxActivations;
            && (!payable ==> api.outcome == Raised(BadRequest))
            && (payable && u !in db.users ==> api.outcome == Raised(NotFound))
            && (payable && api.outcome.Raised? && u in db.users ==> api.outcome == Raised(IntegrityError))
            && (bot.outcome.Raised? ==>
                  bot.outcome == Raised(if u in db.users then IntegrityError else UserNotFound)))
  {
  }

  /** What a paid code changes: one activation, one redemption, and either credits or the whole pending discount. */
  lemma ApiPays(db: Tables, u: Id, code: string, now: Instant)
    requires ApiRedeem(db, u, code, now).outcome.Returned?
    ensures code in db.promos && u in db.users
    ensures var after, promo, user := ApiRedeem(db, u, code, now).db, db.promos[code], db.users[u];
      && ApiRedeem(db, u, code, now).outcome == Returned(code)
      && PaidOut(db, after, u, code)
      && (promo.kind == FixedCredits ==>
            after.users == db.users[u := user.(credits := user.credits + promo.value)])
      && (promo.kind == TopUpDiscount ==>
            after.users == db.users[u := User(user.contact, user.role, user.plan, user.credits, promo.value,
                                              Some(promo.validUntil), Some(code))])
  {
  }

  /** The bot pays out the same, but records only the percentage of a discount. */
  lemma BotPaysOut(db: Tables, u: Id, code: string)
    requires BotRedeem(db, u, code).outcome.Returned?
    ensures code in db.promos && u in db.users
    ensures var after, promo, user := BotRedeem(db, u, code).db, db.promos[code], db.users[u];
      && BotRedeem(db, u, code).outcome == Returned(code)
      && PaidOut(db, after, u, code)
      && (promo.kind == FixedCredits ==>
            after.users == db.users[u := user.(credits := user.credits + promo.value)])
      && (promo.kind == TopUpDiscount ==>
            after.users == db.users[u := User(user.contact, user.role, user.plan, user.credits, promo.value,
                                              user.discountValidUntil, user.discountPromo)])
  {
  }

  /** One activation and one redemption; a row in the ledger for credits and none for a discount. */
  ghost predicate PaidOut(db: Tables, after: Tables, u: Id, code: string)
    requires code in db.promos
  {
    var promo := db.promos[code];
    && after.promos == db.promos[code := PromoCode(promo.kind, promo.value, promo.validUntil, promo.maxActivations,
                                                   promo.activations + 1, promo.isActive)]
    && after.redemptions == db.redemptions + [Redemption(code, u)]
    && |after.transactions| == |db.transactions| + if promo.kind == FixedCredits then 1 else 0
  }

  /** A new code starts unused and active. */
  lemma NewCodeIff(db: Tables, code: string, kind: PromoKind, value: int, validUntil: Instant, maxActivations: int)
    ensures var r := CreatePromo(db, code, kind, value, validUntil, maxActivations);
      && (r.outcome.Returned? <==> value > 0 && maxActivations > 0 && code !in db.promos)
      && (r.outcome == Raised(Conflict) <==> value > 0 && maxActivations > 0 && code in db.promos)
      && r.db == if r.outcome.Returned?
                 then db.(promos := db.promos[code := PromoCode(kind, value, validUntil, maxActivations, 0, true)])
                 else db
  {
  }

  // ---------- Accounting ----------

  /** Activations, redemption rows and ledger rows of a code tell the same story. */
  ghost predicate PromoBalanced(db: Tables, code: string)
    requires code in db.promos
  {
    var promo := db.promos[code];
    && promo.value > 0 && promo.maxActivations > 0
    && promo.activations == Redeemed(db.redemptions, code)
    && Total(db.transactions, OfPromo(code)) == if promo.kind == FixedCredits then promo.value * promo.activations
        else 0
  }

  ghost predicate PromosBalanced(db: Tables) {
    && (forall code | code in db.promos :: PromoBalanced(db, code))
    && (forall i | 0 <= i < |db.redemptions| :: db.redemptions[i].code in db.promos)
    && (forall i, j | 0 <= i < j < |db.redemptions| :: db.redemptions[i] != db.redemptions[j])
    && (forall k | 0 <= k < |db.transactions| ::
          db.transactions[k].promo.Some? ==> db.transactions[k].promo.value in db.promos)
  }

  ghost predicate SamePromos(a: Tables, b: Tables) {
    && b.promos == a.promos && b.redemptions == a.redemptions
    && (b.transactions == a.transactions
        || (|b.transactions| == |a.transactions| + 1
            && b.transactions[..|a.transactions|] == a.transactions
            && b.transactions[|a.transactions|].promo == None))
  }

  /** Steps that post a row for something else, or none, leave every code balanced. */
  lemma OtherRowsKeepPromos(a: Tables, b: Tables)
    requires PromosBalanced(a) && SamePromos(a, b)
    ensures PromosBalanced(b)
  {
    if b.transactions != a.transactions {
      var t := b.transactions[|a.transactions|];
      assert b.transactions == a.transactions + [t];
      forall code | code in b.promos ensures PromoBalanced(b, code) {
        assert PromoBalanced(a, code);
        TotalAppend(a.transactions, t, OfPromo(code));
      }
    } else {
      forall code | code in b.promos ensures PromoBalanced(b, code) {
        assert PromoBalanced(a, code);
      }
    }
  }

  lemma {:induction false} NeverRedeemed(rows: seq<Redemption>, code: string)
    requires forall i | 0 <= i < |rows| :: rows[i].code != code
    ensures Redeemed(rows, code) == 0
  {
    if rows != [] {
      NeverRedeemed(rows[..|rows| - 1], code);
    }
  }

  lemma CreatePromoBalances(db: Tables, code: string, kind: PromoKind, value: int, validUntil: Instant,
        maxActivations: int)
    requires PromosBalanced(db)
    ensures PromosBalanced(CreatePromo(db, code, kind, value, validUntil, maxActivations).db)
  {
    if value > 0 && maxActivations > 0 && code !in db.promos {
      var after := CreatePromo(db, code, kind, value, validUntil, maxActivations).db;
      NeverRedeemed(db.redemptions, code);
      NoneCounted(db.transactions, OfPromo(code));
      forall c | c in after.promos ensures PromoBalanced(after, c) {
        assert c != code ==> PromoBalanced(db, c);
      }
    }
  }

  lemma ActivateOne(db: Tables, u: Id, code: string, c: string)
    requires code in db.promos && c in db.promos && PromoBalanced(db, c)
    ensures var after := Activated(db, u, code);
      && after.promos[c].activations == Redeemed(after.redemptions, c)
      && after.promos[c] == db.promos[c].(activations := db.promos[c].activations + if c == code then 1 else 0)
  {
    hide Redeemed;
    RedeemedAppend(db.redemptions, Redemption(code, u), c);
  }

  lemma RedeemedAppend(rows: seq<Redemption>, r: Redemption, code: string)
    ensures Redeemed(rows + [r], code) == Redeemed(rows, code) + if r.code == code then 1 else 0
  {
    assert (rows + [r])[..|rows|] == rows;
  }

  lemma GrantBalances(db: Tables, u: Id, code: string, discount: User)
    requires PromosBalanced(db) && code in db.promos && u in db.users && Redemption(code, u) !in db.redemptions
    ensures PromosBalanced(Grant(db, u, code, discount).db)
  {
    hide PromoBalanced;
    var promo := db.promos[code];
    var after := Grant(db, u, code, discount).db;
    if promo.kind == FixedCredits || discount.discountPercent <= 100 {
      forall c | c in after.promos ensures PromoBalanced(after, c) {
        GrantBalancesOne(db, u, code, discount, c);
      }
    }
  }

  lemma GrantBalancesOne(db: Tables, u: Id, code: string, discount: User, c: string)
    requires PromosBalanced(db) && code in db.promos && c in db.promos && u in db.users
    ensures PromoBalanced(Grant(db, u, code, discount).db, c)
  {
    hide Redeemed, Total, Activated;
    var promo := db.promos[code];
    assert PromoBalanced(db, c);
    ActivateOne(db, u, code, c);
    ActivateFrame(db, u, code);
    if promo.kind == FixedCredits {
      var balance := db.users[u].credits + promo.value;
      var t := Transaction(u, TransactionType.Promo, promo.value, balance, None, None, Some(code));
      assert Grant(db, u, code, discount).db.transactions == db.transactions + [t];
      TotalAppend(db.transactions, t, OfPromo(c));
      OneMoreTime(promo.value, promo.activations);
    }
  }

  lemma ActivateFrame(db: Tables, u: Id, code: string)
    requires code in db.promos
    ensures var after := Activated(db, u, code);
      after == db.(promos := after.promos, redemptions := after.redemptions) && after.promos.Keys == db.promos.Keys
  {
  }

  lemma OneMoreTime(a: int, n: int)
    ensures a * (n + 1) == a * n + a
  {
  }

  lemma RedeemBalances(db: Tables, u: Id, code: string, now: Instant)
    requires PromosBalanced(db)
    ensures PromosBalanced(ApiRedeem(db, u, code, now).db)
    ensures PromosBalanced(BotRedeem(db, u, code).db)
  {
    hide PromosBalanced, Grant;
    if code in db.promos && u in db.users && Redemption(code, u) !in db.redemptions {
      var promo := db.promos[code];
      GrantBalances(db, u, code, db.users[u].(discountPercent := promo.value));
      GrantBalances(db, u, code,
                    db.users[u].(discountPercent := promo.value, discountValidUntil := Some(promo.validUntil),
                                 discountPromo := Some(code)));
    }
  }

  // ---------- Discounts that end ----------

  /** What the documentation asks: the price less the code's percentage until the code expires, the full price then. */
  predicate ChargedAsPromised(promo: PromoCode, intent: Intent, price: nat, now: Instant) {
    IsReduced(intent.amountRub, intent.creditsAmount * price, if promo.validUntil <= now then 0 else promo.value)
  }

  /** Whether a discount with this expiry on record still counts. */
  predicate Lapsed(until: Option<Instant>, now: Instant) {
    until.Some? && until.value <= now
  }

  /** An intent at one of the two percentages keeps the promise exactly if it is the promised one. */
  lemma PromiseShows(promo: PromoCode, intent: Intent, price: nat, now: Instant)
    requires promo.value > 0 && intent.creditsAmount > 0 && intent.discountPercent in {0, promo.value}
    requires IsReduced(intent.amountRub, intent.creditsAmount * price, intent.discountPercent)
    ensures ChargedAsPromised(promo, intent, price, now) <==>
            price == 0 || (intent.discountPercent == 0 <==> promo.validUntil <= now)
  {
    hide IsReduced;
    var amount := intent.creditsAmount * price;
    NonNegativeProduct(intent.creditsAmount, price);
    PercentShows(intent.amountRub, amount, promo.value);
    if price > 0 {
      PositiveProduct(intent.creditsAmount, price);
    } else {
      assert amount == 0;
      NothingToPay(intent.amountRub, intent.discountPercent, if promo.validUntil <= now then 0 else promo.value);
    }
  }

  lemma NothingToPay(rub: int, percent: int, other: int)
    ensures IsReduced(rub, 0, percent) == IsReduced(rub, 0, other)
  {
  }

  /** The API keeps the promise exactly if the expiry on record and that of the code agree about now. */
  lemma ApiChargesAsPromisedIff(db: Tables, u: Id, promo: PromoCode, credits: int, price: nat, now: Instant)
    requires u in db.users && credits > 0 && db.users[u].discountPercent == promo.value > 0
    ensures var after := CreatePayment(db, u, credits, price, now).db;
      ChargedAsPromised(promo, after.intents[|db.intents|], price, now) <==>
      price == 0 || (Lapsed(db.users[u].discountValidUntil, now) <==> promo.validUntil <= now)
  {
    hide CreatePayment, IsReduced, ChargedAsPromised;
    ApiPaymentTerms(db, u, credits, price, now);
    PromiseShows(promo, CreatePayment(db, u, credits, price, now).db.intents[|db.intents|], price, now);
  }

  /** The bot looks at no expiry: it keeps the promise exactly if the code is still valid. */
  lemma BotChargesAsPromisedIff(db: Tables, u: Id, promo: PromoCode, credits: int, price: nat, now: Instant)
    requires u in db.users && credits > 0 && db.users[u].discountPercent == promo.value > 0
    ensures var after := BotTopUp(db, u, credits, price).db;
      ChargedAsPromised(promo, after.intents[|db.intents|], price, now) <==> price == 0 || now < promo.validUntil
  {
    hide BotTopUp, IsReduced, ChargedAsPromised;
    BotPaymentTerms(db, u, credits, price);
    PromiseShows(promo, BotTopUp(db, u, credits, price).db.intents[|db.intents|], price, now);
  }

  /** The discount code that a user redeemed last. */
  function LastDiscount(rows: seq<Redemption>, promos: map<string, PromoCode>, u: Id): (r: Option<string>)
    ensures r.Some? ==> r.value in promos && promos[r.value].kind == TopUpDiscount
  {
    if rows == [] then None else
      var last := rows[|rows| - 1];
      if last.userId == u && last.code in promos && promos[last.code].kind == TopUpDiscount then Some(last.code)
      else LastDiscount(rows[..|rows| - 1], promos, u)
  }

  lemma LastDiscountAppend(rows: seq<Redemption>, promos: map<string, PromoCode>, r: Redemption, u: Id)
    ensures LastDiscount(rows + [r], promos, u) ==
            if r.userId == u && r.code in promos && promos[r.code].kind == TopUpDiscount then Some(r.code)
            else LastDiscount(rows, promos, u)
  {
    assert (rows + [r])[..|rows|] == rows;
  }

  /** Counting an activation, and creating a code nobody redeemed, change no user's last discount. */
  lemma {:induction false} LastDiscountKept(rows: seq<Redemption>, a: map<string, PromoCode>,
                                            b: map<string, PromoCode>, u: Id)
    requires forall code | code in a :: code in b && b[code].kind == a[code].kind
    requires forall i | 0 <= i < |rows| :: rows[i].code in a
    ensures LastDiscount(rows, b, u) == LastDiscount(rows, a, u)
  {
    if rows != [] {
      LastDiscountKept(rows[..|rows| - 1], a, b, u);
    }
  }

  // ---------- The activation limit ----------

  ghost predicate WithinLimit(db: Tables, code: string)
    requires code in db.promos
  {
    db.promos[code].activations <= db.promos[code].maxActivations
  }

  /** The API never exceeds the limit of any code. */
  lemma ApiKeepsLimit(db: Tables, u: Id, code: string, now: Instant, c: string)
    requires c in db.promos && WithinLimit(db, c)
    ensures WithinLimit(ApiRedeem(db, u, code, now).db, c)
  {
  }

  /** Everything the bot asks before it pays a code out. */
  predicate BotPays(db: Tables, u: Id, code: string) {
    && code in db.promos
    && Redemption(code, u) !in db.redemptions
    && u in db.users
    && (db.promos[code].kind == FixedCredits || db.promos[code].value <= 100)
  }

  /**
   The documentation promises that expired, disabled and exhausted codes are refused. The bot keeps the promise
   exactly if the code happens to be redeemable, or one of its own checks fails.
   */
  lemma BotRefusesIff(db: Tables, u: Id, code: string, now: Instant)
    requires code in db.promos
    ensures (BotRedeem(db, u, code).outcome.Returned? ==> Redeemable(db.promos[code], now)) <==>
            || Redeemable(db.promos[code], now)
            || Redemption(code, u) in db.redemptions
            || u !in db.users
            || (db.promos[code].kind == TopUpDiscount && db.promos[code].value > 100)
  {
  }

  /** The bot keeps the limit of a code exactly if it does not pay that code out while no activation is left. */
  lemma BotKeepsLimitIff(db: Tables, u: Id, code: string, c: string)
    requires c in db.promos && WithinLimit(db, c)
    ensures c in BotRedeem(db, u, code).db.promos
    ensures WithinLimit(BotRedeem(db, u, code).db, c) <==>
            !(c == code && BotPays(db, u, code) && db.promos[c].activations == db.promos[c].maxActivations)
  {
  }
}
