/**
 Payment intents and their webhooks. An intent is looked up by its external id; which row that finds is the
 argument of the operations here, because the Telegram top-up gives the same external id to several rows.
 */
module Payments {
  import opened Wrappers
  import opened Schema
  import opened Ledger

  function OfIntent(i: Id): Transaction -> bool {
    (t: Transaction) => t.intentId == Some(i)
  }

  function TopUpOf(i: Id): Transaction -> bool {
    (t: Transaction) => t.intentId == Some(i) && t.kind == TopUp
  }

  function RefundOf(i: Id): Transaction -> bool {
    (t: Transaction) => t.intentId == Some(i) && t.kind == TransactionType.Refund
  }

  predicate DiscountExpired(validUntil: Option<Instant>, now: Instant) {
    validUntil.Some? && validUntil.value <= now
  }

  function WithoutDiscount(user: User): User {
    user.(discountPercent := 0, discountValidUntil := None, discountPromo := None)
  }

  function SetUser(db: Tables, u: Id, user: User): Tables {
    db.(users := db.users[u := user])
  }

  function SetStatus(db: Tables, i: Id, status: PaymentStatus): Tables
    requires i < |db.intents|
  {
    db.(intents := db.intents[i := db.intents[i].(status := status)])
  }

  /** `amount * (100 - discount) // 100` on the undiscounted amount. */
  function Discounted(amount: int, percent: int): int {
    amount * (100 - percent) / 100
  }

  function CreatePayment(db: Tables, u: Id, credits: int, price: nat, now: Instant): Finished<Id> {
    if u !in db.users then Finished(db, Raised(UserNotFound))
    else if credits <= 0 then Finished(db, Raised(BadRequest))
    else
      var user := if DiscountExpired(db.users[u].discountValidUntil, now) then WithoutDiscount(db.users[u])
          else db.users[u];
      var intent := Intent(u, credits, Discounted(credits * price, user.discountPercent), user.discountPercent,
          Pending);
      Finished(SetUser(db, u, user).(intents := db.intents + [intent]), Returned(|db.intents|))
  }

  function ConfirmPayment(db: Tables, i: Id): Finished<PaymentStatus> {
    if i >= |db.intents| then Finished(db, Raised(NotFound))
    else
      var intent := db.intents[i];
      if intent.status == Succeeded then Finished(db, Returned(Succeeded))
      else if intent.userId !in db.users then Finished(db, Raised(NotFound))
      else
        var cleared := SetUser(db, intent.userId, WithoutDiscount(db.users[intent.userId]));
        var marked := SetStatus(cleared, i, Succeeded);
        Finished(Post(marked, intent.userId, TopUp, intent.creditsAmount, None, Some(i), None), Returned(Succeeded))
  }

  /** Failing and canceling differ only in the status they set. */
  function ClosePending(db: Tables, i: Id, status: PaymentStatus): Finished<PaymentStatus> {
    if i >= |db.intents| then Finished(db, Raised(NotFound))
    else if db.intents[i].status == Pending then Finished(SetStatus(db, i, status), Returned(status))
    else Finished(db, Returned(db.intents[i].status))
  }

  function RefundPayment(db: Tables, i: Id): Finished<PaymentStatus> {
    if i >= |db.intents| then Finished(db, Raised(NotFound))
    else
      var intent := db.intents[i];
      if intent.status !in {Succeeded, Refunded, RefundManualReview} then Finished(db, Raised(Conflict))
      else if intent.status != Succeeded then Finished(db, Returned(intent.status))
      else if intent.userId !in db.users then Finished(db, Raised(NotFound))
      else if db.users[intent.userId].credits < intent.creditsAmount then
        Finished(SetStatus(db, i, RefundManualReview), Returned(RefundManualReview))
      else
        var marked := SetStatus(db, i, Refunded);
        Finished(Post(marked, intent.userId, TransactionType.Refund, -intent.creditsAmount, None, Some(i), None),
            Returned(Refunded))
  }

  /** The Telegram top-up: an intent that is born confirmed. The expiry of the discount is left alone. */
  function BotTopUp(db: Tables, u: Id, credits: int, price: nat): Finished<Id> {
    if u !in db.users then Finished(db, Raised(UserNotFound))
    else if credits <= 0 then Finished(db, Raised(IntegrityError))
    else
      var i := |db.intents|;
      Finished(Post(BotIntent(db, u, credits, price), u, TopUp, credits, None, Some(i), None), Returned(i))
  }

  function BotIntent(db: Tables, u: Id, credits: int, price: nat): Tables
    requires u in db.users
  {
    var percent := db.users[u].discountPercent;
    var intent := Intent(u, credits, Discounted(credits * price, percent), percent, Succeeded);
    SetUser(db, u, db.users[u].(discountPercent := 0)).(intents := db.intents + [intent])
  }

  // ---------- The handlers, step by step ----------

  method CreatePaymentIntent(db: Database, u: Id, credits: int, price: nat, now: Instant)
      returns (r: Outcome<Id, Error>)
    modifies db
    ensures Finished(db.Snapshot(), r) == CreatePayment(old(db.Snapshot()), u, credits, price, now)
  {
    if u !in db.users {
      return Raised(UserNotFound);
    }
    if credits <= 0 {
      return Raised(BadRequest);
    }
    var user := db.users[u];
    var discount := user.discountPercent;
    if DiscountExpired(user.discountValidUntil, now) {
      user := user.(discountPercent := 0, discountValidUntil := None, discountPromo := None);
      discount := 0;
    }
    var amount: nat := credits * price;
    db.users := db.users[u := user];
    db.intents := db.intents + [Intent(u, credits, amount * (100 - discount) / 100, discount, Pending)];
    return Returned(|db.intents| - 1);
  }

  method Confirm(db: Database, i: Id) returns (r: Outcome<PaymentStatus, Error>)
    modifies db
    ensures Finished(db.Snapshot(), r) == ConfirmPayment(old(db.Snapshot()), i)
  {
    if i >= |db.intents| {
      return Raised(NotFound);
    }
    var intent := db.intents[i];
    if intent.status == Succeeded {
      return Returned(intent.status);
    }
    if intent.userId !in db.users {
      return Raised(NotFound);
    }
    var user := db.users[intent.userId];
    user := user.(credits := user.credits + intent.creditsAmount);
    user := user.(discountPercent := 0, discountValidUntil := None, discountPromo := None);
    db.users := db.users[intent.userId := user];
    db.intents := db.intents[i := intent.(status := Succeeded)];
    db.transactions := db.transactions +
      [Transaction(intent.userId, TopUp, intent.creditsAmount, user.credits, None, Some(i), None)];
    return Returned(Succeeded);
  }

  method Fail(db: Database, i: Id) returns (r: Outcome<PaymentStatus, Error>)
    modifies db
    ensures Finished(db.Snapshot(), r) == ClosePending(old(db.Snapshot()), i, Failed)
  {
    if i >= |db.intents| {
      return Raised(NotFound);
    }
    if db.intents[i].status == Pending {
      db.intents := db.intents[i := db.intents[i].(status := Failed)];
    }
    return Returned(db.intents[i].status);
  }

  method Cancel(db: Database, i: Id) returns (r: Outcome<PaymentStatus, Error>)
    modifies db
    ensures Finished(db.Snapshot(), r) == ClosePending(old(db.Snapshot()), i, Canceled)
  {
    if i >= |db.intents| {
      return Raised(NotFound);
    }
    if db.intents[i].status == Pending {
      db.intents := db.intents[i := db.intents[i].(status := Canceled)];
    }
    return Returned(db.intents[i].status);
  }

  method RefundIntent(db: Database, i: Id) returns (r: Outcome<PaymentStatus, Error>)
    modifies db
    ensures Finished(db.Snapshot(), r) == RefundPayment(old(db.Snapshot()), i)
  {
    if i >= |db.intents| {
      return Raised(NotFound);
    }
    var intent := db.intents[i];
    if intent.status !in {Succeeded, Refunded, RefundManualReview} {
      return Raised(Conflict);
    }
    if intent.status != Succeeded {
      return Returned(intent.status);
    }
    if intent.userId !in db.users {
      return Raised(NotFound);
    }
    var locked := db.users[intent.userId];
    if locked.credits < intent.creditsAmount {
      db.intents := db.intents[i := intent.(status := RefundManualReview)];
      return Returned(RefundManualReview);
    }
    locked := locked.(credits := locked.credits - intent.creditsAmount);
    db.users := db.users[intent.userId := locked];
    db.intents := db.intents[i := intent.(status := Refunded)];
    db.transactions := db.transactions +
      [Transaction(intent.userId, Refund, -intent.creditsAmount, locked.credits, None, Some(i), None)];
    return Returned(Refunded);
  }

  method CreateMockTopUp(db: Database, u: Id, credits: int, price: nat) returns (r: Outcome<Id, Error>)
    modifies db
    ensures Finished(db.Snapshot(), r) == BotTopUp(old(db.Snapshot()), u, credits, price)
  {
    var before := db.Snapshot();
    if u !in db.users {
      return Raised(UserNotFound);
    }
    var user := db.users[u];
    var discount := user.discountPercent;
    var amountRub := credits * price * (100 - discount) / 100;
    user := user.(credits := user.credits + credits, discountPercent := 0);
    db.users := db.users[u := user];
    // flush: the check constraint credits_amount > 0
    if credits <= 0 {
      db.Rollback(before);
      return Raised(IntegrityError);
    }
    var i := |db.intents|;
    db.intents := db.intents + [Intent(u, credits, amountRub, discount, Succeeded)];
    db.transactions := db.transactions + [Transaction(u, TopUp, credits, user.credits, None, Some(i), None)];
    return Returned(i);
  }

  /** Every intent belongs to a user and is for a positive number of credits. */
  ghost predicate IntentsOwned(db: Tables) {
    forall i | 0 <= i < |db.intents| :: db.intents[i].userId in db.users && db.intents[i].creditsAmount > 0
  }

  /** The check constraint on pending discounts. */
  ghost predicate DiscountsInRange(users: map<Id, User>) {
    forall u | u in users :: 0 <= users[u].discountPercent <= 100
  }

  // ---------- What an intent is worth ----------

  /** The promise: the net of an intent's rows is its credits exactly while they are due. */
  predicate CreditsDue(status: PaymentStatus) {
    status in {Succeeded, RefundManualReview}
  }

  /**
   The net of an intent's rows in every run: its credits while they are due, plus once more for every success
   webhook that met the intent in manual review (`extra`).
   */
  ghost predicate NetIs(db: Tables, i: Id, extra: int)
    requires i < |db.intents|
  {
    var intent := db.intents[i];
    Total(db.transactions, OfIntent(i)) == intent.creditsAmount * ((if CreditsDue(intent.status) then 1 else 0) + extra)
  }

  /** One top-up row once the intent was paid, one refund row once it was refunded. */
  ghost predicate OncePerKind(db: Tables, i: Id)
    requires i < |db.intents|
  {
    var status := db.intents[i].status;
    && Count(db.transactions, TopUpOf(i)) == (if CreditsDue(status) || status == Refunded then 1 else 0)
    && Count(db.transactions, RefundOf(i)) == (if status == Refunded then 1 else 0)
  }

  /** Rows only name intents that exist. */
  ghost predicate IntentRowsExist(db: Tables) {
    forall k | 0 <= k < |db.transactions| ::
      db.transactions[k].intentId.Some? ==> db.transactions[k].intentId.value < |db.intents|
  }

  lemma PostForIntent(db: Tables, u: Id, kind: TransactionType, amount: int, i: Id, j: Id)
    requires u in db.users
    ensures var after := Post(db, u, kind, amount, None, Some(i), None).transactions;
      && Total(after, OfIntent(j)) == Total(db.transactions, OfIntent(j)) + (if i == j then amount else 0)
      && Count(after, TopUpOf(j)) == Count(db.transactions, TopUpOf(j)) + (if i == j && kind == TopUp then 1 else 0)
      && Count(after, RefundOf(j)) ==
         Count(db.transactions, RefundOf(j)) + (if i == j && kind == TransactionType.Refund then 1 else 0)
  {
    var t := Transaction(u, kind, amount, db.users[u].credits + amount, None, Some(i), None);
    TotalAppend(db.transactions, t, OfIntent(j));
    TotalAppend(db.transactions, t, TopUpOf(j));
    TotalAppend(db.transactions, t, RefundOf(j));
  }

  lemma Times(a: int, n: int)
    ensures a * (n + 1) == a * n + a && a * (n - 1) == a * n - a && a * (1 + n) == a + a * n
  {
  }

  /** A success webhook: exactly the one that meets manual review credits a second time. */
  lemma ConfirmNet(db: Tables, i: Id, j: Id, extra: int)
    requires IntentsOwned(db) && j < |db.intents| && NetIs(db, j, extra)
    ensures NetIs(ConfirmPayment(db, i).db, j,
                  extra + if i == j && db.intents[i].status == RefundManualReview then 1 else 0)
  {
    if i < |db.intents| && db.intents[i].status != Succeeded {
      var intent := db.intents[i];
      var marked := SetStatus(SetUser(db, intent.userId, WithoutDiscount(db.users[intent.userId])), i, Succeeded);
      PostForIntent(marked, intent.userId, TopUp, intent.creditsAmount, i, j);
      Times(intent.creditsAmount, extra);
      Times(intent.creditsAmount, extra + 1);
    }
  }

  lemma ClosePendingFrame(db: Tables, i: Id, status: PaymentStatus)
    ensures var after := ClosePending(db, i, status).db;
      && after.users == db.users && after.promos == db.promos && after.redemptions == db.redemptions
      && after.subscriptions == db.subscriptions
  {
    hide SetStatus;
    if i < |db.intents| {
      SetStatusFrame(db, i, status);
    }
  }

  lemma SetStatusFrame(db: Tables, i: Id, status: PaymentStatus)
    requires i < |db.intents|
    ensures var after := SetStatus(db, i, status);
      && after.users == db.users && after.promos == db.promos && after.redemptions == db.redemptions
      && after.subscriptions == db.subscriptions
  {
  }

  lemma ClosePendingNet(db: Tables, i: Id, status: PaymentStatus, j: Id, extra: int)
    requires j < |db.intents| && NetIs(db, j, extra) && status in {Failed, Canceled}
    ensures NetIs(ClosePending(db, i, status).db, j, extra)
  {
  }

  lemma RefundNet(db: Tables, i: Id, j: Id, extra: int)
    requires IntentsOwned(db) && j < |db.intents| && NetIs(db, j, extra)
    ensures NetIs(RefundPayment(db, i).db, j, extra)
  {
    hide Post, Total;
    if i < |db.intents| && db.intents[i].status == Succeeded {
      var intent := db.intents[i];
      var marked := SetStatus(db, i, Refunded);
      PostForIntent(marked, intent.userId, TransactionType.Refund, -intent.creditsAmount, i, j);
      PostKeepsIntents(marked, intent.userId, TransactionType.Refund, -intent.creditsAmount, i);
      Times(intent.creditsAmount, extra);
    }
  }

  /** The success webhook keeps one row of each kind exactly when it meets neither a refund nor a review. */
  lemma ConfirmOnceIff(db: Tables, i: Id, j: Id)
    requires IntentsOwned(db) && i < |db.intents| && j < |db.intents| && OncePerKind(db, j)
    ensures OncePerKind(ConfirmPayment(db, i).db, j) <==>
            i != j || db.intents[i].status !in {Refunded, RefundManualReview}
  {
    hide Post;
    if db.intents[i].status != Succeeded {
      var intent := db.intents[i];
      var marked := SetStatus(SetUser(db, intent.userId, WithoutDiscount(db.users[intent.userId])), i, Succeeded);
      PostForIntent(marked, intent.userId, TopUp, intent.creditsAmount, i, j);
      PostKeepsIntents(marked, intent.userId, TopUp, intent.creditsAmount, i);
    }
  }

  /** A success webhook that meets a refund, made or attempted, leaves a second top-up row. */
  lemma LateConfirmPaysTwice(db: Tables, i: Id)
    requires IntentsOwned(db) && i < |db.intents| && OncePerKind(db, i)
    requires db.intents[i].status in {Refunded, RefundManualReview}
    ensures Count(ConfirmPayment(db, i).db.transactions, TopUpOf(i)) == 2
  {
    hide Post, Count;
    var intent := db.intents[i];
    var marked := SetStatus(SetUser(db, intent.userId, WithoutDiscount(db.users[intent.userId])), i, Succeeded);
    PostForIntent(marked, intent.userId, TopUp, intent.creditsAmount, i, i);
  }

  lemma PostKeepsIntents(db: Tables, u: Id, kind: TransactionType, amount: int, i: Id)
    requires u in db.users
    ensures Post(db, u, kind, amount, None, Some(i), None).intents == db.intents
  {
  }

  lemma ClosePendingOnce(db: Tables, i: Id, status: PaymentStatus, j: Id)
    requires j < |db.intents| && OncePerKind(db, j) && status in {Failed, Canceled}
    ensures OncePerKind(ClosePending(db, i, status).db, j)
  {
  }

  lemma RefundOnce(db: Tables, i: Id, j: Id)
    requires IntentsOwned(db) && j < |db.intents| && OncePerKind(db, j)
    ensures OncePerKind(RefundPayment(db, i).db, j)
  {
    hide Post;
    if i < |db.intents| && db.intents[i].status == Succeeded {
      var intent := db.intents[i];
      PostForIntent(SetStatus(db, i, Refunded), intent.userId, TransactionType.Refund, -intent.creditsAmount, i, j);
      PostKeepsIntents(SetStatus(db, i, Refunded), intent.userId, TransactionType.Refund, -intent.creditsAmount, i);
    }
  }

  lemma {:induction false} NoRowsYet(db: Tables)
    requires IntentRowsExist(db)
    ensures Total(db.transactions, OfIntent(|db.intents|)) == 0
    ensures Count(db.transactions, TopUpOf(|db.intents|)) == 0
    ensures Count(db.transactions, RefundOf(|db.intents|)) == 0
  {
    NoneCounted(db.transactions, OfIntent(|db.intents|));
    NoneCounted(db.transactions, TopUpOf(|db.intents|));
    NoneCounted(db.transactions, RefundOf(|db.intents|));
  }

  /** New intents start with the net their status asks for; existing ones keep theirs. */
  lemma NewIntentNet(db: Tables, u: Id, credits: int, price: nat, now: Instant)
    requires IntentRowsExist(db) && u in db.users && credits > 0
    ensures NetIs(CreatePayment(db, u, credits, price, now).db, |db.intents|, 0)
    ensures NetIs(BotTopUp(db, u, credits, price).db, |db.intents|, 0)
    ensures OncePerKind(CreatePayment(db, u, credits, price, now).db, |db.intents|)
    ensures OncePerKind(BotTopUp(db, u, credits, price).db, |db.intents|)
  {
    hide Discounted;
    NoRowsYet(db);
    var created := BotIntent(db, u, credits, price);
    PostForIntent(created, u, TopUp, credits, |db.intents|, |db.intents|);
  }

  /** The rows of an intent that is there already do not change, nor does the intent. */
  ghost predicate SameIntent(a: Tables, b: Tables, j: Id) {
    && j < |a.intents| && j < |b.intents| && b.intents[j] == a.intents[j]
    && Total(b.transactions, OfIntent(j)) == Total(a.transactions, OfIntent(j))
    && Count(b.transactions, TopUpOf(j)) == Count(a.transactions, TopUpOf(j))
    && Count(b.transactions, RefundOf(j)) == Count(a.transactions, RefundOf(j))
  }

  lemma SameIntentNet(a: Tables, b: Tables, j: Id, extra: int)
    requires SameIntent(a, b, j)
    ensures NetIs(a, j, extra) ==> NetIs(b, j, extra)
    ensures OncePerKind(a, j) ==> OncePerKind(b, j)
  {
  }

  lemma BotTopUpKeepsIntent(db: Tables, u: Id, credits: int, price: nat, j: Id)
    requires j < |db.intents|
    ensures SameIntent(db, BotTopUp(db, u, credits, price).db, j)
  {
    hide Discounted, Post, Total, Count;
    if u in db.users && credits > 0 {
      var created := BotIntent(db, u, credits, price);
      PostForIntent(created, u, TopUp, credits, |db.intents|, j);
      PostKeepsIntents(created, u, TopUp, credits, |db.intents|);
    }
  }

  lemma CreatePaymentKeepsIntent(db: Tables, u: Id, credits: int, price: nat, now: Instant, j: Id)
    requires j < |db.intents|
    ensures SameIntent(db, CreatePayment(db, u, credits, price, now).db, j)
  {
    hide Discounted, Total, Count;
  }

  lemma OldIntentNet(db: Tables, u: Id, credits: int, price: nat, now: Instant, j: Id, extra: int)
    requires j < |db.intents|
    ensures |db.intents| <= |CreatePayment(db, u, credits, price, now).db.intents|
    ensures |db.intents| <= |BotTopUp(db, u, credits, price).db.intents|
    ensures NetIs(db, j, extra) ==> NetIs(CreatePayment(db, u, credits, price, now).db, j, extra)
    ensures NetIs(db, j, extra) ==> NetIs(BotTopUp(db, u, credits, price).db, j, extra)
    ensures OncePerKind(db, j) ==> OncePerKind(CreatePayment(db, u, credits, price, now).db, j)
    ensures OncePerKind(db, j) ==> OncePerKind(BotTopUp(db, u, credits, price).db, j)
  {
    CreatePaymentKeepsIntent(db, u, credits, price, now, j);
    BotTopUpKeepsIntent(db, u, credits, price, j);
    IntentsAreKept(db, u, credits, price, now);
    hide NetIs, OncePerKind, SameIntent, CreatePayment, BotTopUp;
    SameIntentNet(db, CreatePayment(db, u, credits, price, now).db, j, extra);
    SameIntentNet(db, BotTopUp(db, u, credits, price).db, j, extra);
  }

  lemma IntentsAreKept(db: Tables, u: Id, credits: int, price: nat, now: Instant)
    ensures |db.intents| <= |CreatePayment(db, u, credits, price, now).db.intents|
    ensures |db.intents| <= |BotTopUp(db, u, credits, price).db.intents|
  {
    hide Discounted;
  }

  /** The net is what the status promises exactly when no success webhook met manual review. */
  lemma PromisedNetIff(db: Tables, i: Id, extra: nat)
    requires i < |db.intents| && db.intents[i].creditsAmount > 0 && NetIs(db, i, extra)
    ensures NetIs(db, i, 0) <==> extra == 0
  {
    var c := db.intents[i].creditsAmount;
    var due := if CreditsDue(db.intents[i].status) then 1 else 0;
    if extra > 0 {
      MultiplyOut(c, due, extra);
    }
  }

  lemma MultiplyOut(c: int, due: int, extra: int)
    requires c > 0 && extra > 0
    ensures c * (due + extra) > c * due
  {
    assert c * (due + extra) == c * due + c * extra;
  }

  // ---------- Webhooks in any order ----------

  datatype Webhook = Success | Failure | Cancellation

  function Deliver(db: Tables, i: Id, w: Webhook): Tables {
    match w
    case Success => ConfirmPayment(db, i).db
    case Failure => ClosePending(db, i, Failed).db
    case Cancellation => ClosePending(db, i, Canceled).db
  }

  function DeliverAll(db: Tables, i: Id, ws: seq<Webhook>): Tables {
    if ws == [] then db else Deliver(DeliverAll(db, i, ws[..|ws| - 1]), i, ws[|ws| - 1])
  }

  function StatusFor(w: Webhook): PaymentStatus {
    match w
    case Success => Succeeded
    case Failure => Failed
    case Cancellation => Canceled
  }

  /** What the deliveries `ws` have made of a pending intent `i`. */
  ghost predicate Settled(db: Tables, after: Tables, i: Id, ws: seq<Webhook>)
    requires i < |db.intents| && db.intents[i].userId in db.users
  {
    var intent := db.intents[i];
    var paid := Success in ws;
    && after.intents == db.intents[i := intent.(status := if paid then Succeeded
                                                          else if ws == [] then Pending else StatusFor(ws[0]))]
    && after.users.Keys == db.users.Keys
    && after.users[intent.userId].credits == db.users[intent.userId].credits
        + (if paid then intent.creditsAmount else 0)
    && (forall v | v in db.users && v != intent.userId :: after.users[v] == db.users[v])
    && |after.transactions| == |db.transactions| + (if paid then 1 else 0)
  }

  lemma OneMoreWebhook(db: Tables, m: Tables, i: Id, ws: seq<Webhook>, w: Webhook)
    requires i < |db.intents| && db.intents[i].userId in db.users && db.intents[i].status == Pending
    requires Settled(db, m, i, ws)
    ensures Settled(db, Deliver(m, i, w), i, ws + [w])
  {
    assert Success in ws + [w] <==> Success in ws || w == Success;
  }

  /**
   Whatever the order and the duplicates, a pending intent credits its owner exactly when a success webhook is
   among the deliveries; it ends succeeded then, and otherwise with the first delivered outcome.
   */
  lemma {:induction false} WebhooksInAnyOrder(db: Tables, i: Id, ws: seq<Webhook>)
    requires i < |db.intents| && db.intents[i].userId in db.users && db.intents[i].status == Pending
    ensures Settled(db, DeliverAll(db, i, ws), i, ws)
  {
    hide Deliver;
    if ws != [] {
      var init, last := ws[..|ws| - 1], ws[|ws| - 1];
      WebhooksInAnyOrder(db, i, init);
      OneMoreWebhook(db, DeliverAll(db, i, init), i, init, last);
      assert ws == init + [last];
    }
  }

  // ---------- Discounts ----------

  /** What is left of an amount after a discount in percent, rounded down to whole roubles. */
  predicate IsReduced(rub: int, amount: int, percent: int) {
    100 * rub <= amount * (100 - percent) < 100 * (rub + 1)
  }

  lemma DiscountedPrice(amount: nat, percent: int)
    requires 0 <= percent <= 100
    ensures 0 <= Discounted(amount, percent) <= amount
    ensures IsReduced(Discounted(amount, percent), amount, percent)
  {
    DiscountedIsReduced(amount, percent);
    assert 0 <= amount * (100 - percent) by {
      NonNegativeProduct(amount, 100 - percent);
    }
    assert amount * (100 - percent) == amount * 100 - amount * percent;
    NonNegativeProduct(amount, percent);
  }

  lemma DiscountedIsReduced(amount: int, percent: int)
    ensures IsReduced(Discounted(amount, percent), amount, percent)
  {
    var left := amount * (100 - percent);
    assert left == left / 100 * 100 + left % 100;
  }

  /** The percentage can be told from the price, unless there is nothing to pay. */
  lemma PercentShows(rub: int, amount: int, percent: int)
    requires amount >= 0 && percent > 0
    ensures IsReduced(rub, amount, 0) && IsReduced(rub, amount, percent) ==> amount == 0
  {
    assert amount * (100 - percent) == 100 * amount - amount * percent;
    if amount > 0 {
      PositiveProduct(amount, percent);
    }
  }

  lemma PositiveProduct(a: int, b: int)
    requires 0 < a && 0 < b
    ensures 0 < a * b
  {
  }

  /** A new payment through the API: who pays, for what, at which price; and when there is none. */
  lemma ApiPaymentTerms(db: Tables, u: Id, credits: int, price: nat, now: Instant)
    ensures var r := CreatePayment(db, u, credits, price, now);
      && (u !in db.users ==> r == Finished(db, Raised(UserNotFound)))
      && (u in db.users && credits <= 0 ==> r == Finished(db, Raised(BadRequest)))
      && (u in db.users && credits > 0 ==>
            && r.outcome == Returned(|db.intents|) && |r.db.intents| == |db.intents| + 1
            && r.db.intents[..|db.intents|] == db.intents
            && var intent, until := r.db.intents[|db.intents|], db.users[u].discountValidUntil;
              && intent.userId == u && intent.creditsAmount == credits && intent.status == Pending
              && intent.discountPercent ==
                 (if until.Some? && until.value <= now then 0 else db.users[u].discountPercent)
              && IsReduced(intent.amountRub, credits * price, intent.discountPercent)
              && r.db.transactions == db.transactions)
  {
    hide Discounted;
    if u in db.users && credits > 0 {
      DiscountedIsReduced(credits * price, 0);
      DiscountedIsReduced(credits * price, db.users[u].discountPercent);
    }
  }

  /** A top-up through the bot: paid at once, whatever the expiry of the discount, which is used up. */
  lemma BotPaymentTerms(db: Tables, u: Id, credits: int, price: nat)
    ensures var r := BotTopUp(db, u, credits, price);
      && (u !in db.users ==> r == Finished(db, Raised(UserNotFound)))
      && (u in db.users && credits <= 0 ==> r == Finished(db, Raised(IntegrityError)))
      && (u in db.users && credits > 0 ==>
            && r.outcome == Returned(|db.intents|) && |r.db.intents| == |db.intents| + 1
            && r.db.intents[..|db.intents|] == db.intents
            && var intent := r.db.intents[|db.intents|];
              && intent.userId == u && intent.creditsAmount == credits && intent.status == Succeeded
              && intent.discountPercent == db.users[u].discountPercent
              && IsReduced(intent.amountRub, credits * price, intent.discountPercent)
              && r.db.users ==
                 db.users[u := db.users[u].(credits := db.users[u].credits + credits, discountPercent := 0)])
  {
    hide Discounted;
    if u in db.users && credits > 0 {
      DiscountedIsReduced(credits * price, db.users[u].discountPercent);
    }
  }

  /** What the webhooks and the refund need before they do anything: an intent and, to change a balance, its owner. */
  lemma NothingToSettle(db: Tables, i: Id, status: PaymentStatus)
    ensures i >= |db.intents| ==>
              && ConfirmPayment(db, i) == Finished(db, Raised(NotFound))
              && ClosePending(db, i, status) == Finished(db, Raised(NotFound))
              && RefundPayment(db, i) == Finished(db, Raised(NotFound))
    ensures i < |db.intents| && db.intents[i].userId !in db.users ==>
              && (db.intents[i].status != Succeeded ==> ConfirmPayment(db, i) == Finished(db, Raised(NotFound)))
              && (db.intents[i].status == Succeeded ==> RefundPayment(db, i) == Finished(db, Raised(NotFound)))
  {
  }

  /** A success webhook that finds an intent not yet succeeded credits its owner and ends the pending discount. */
  lemma ConfirmEffect(db: Tables, i: Id)
    requires i < |db.intents|
    ensures db.intents[i].status == Succeeded ==> ConfirmPayment(db, i) == Finished(db, Returned(Succeeded))
    ensures db.intents[i].userId in db.users && db.intents[i].status != Succeeded ==>
              var intent, r := db.intents[i], ConfirmPayment(db, i);
              var user := db.users[intent.userId];
              && r.outcome == Returned(Succeeded)
              && r.db.intents == db.intents[i := intent.(status := Succeeded)]
              && r.db.users ==
                 db.users[intent.userId := User(user.contact, user.role, user.plan,
                                                user.credits + intent.creditsAmount, 0, None, None)]
              && r.db.transactions ==
                 db.transactions + [Transaction(intent.userId, TopUp, intent.creditsAmount,
                                                user.credits + intent.creditsAmount, None, Some(i), None)]
  {
  }

  /** Which balance separates a refund from manual review, and which states are refused or only repeated. */
  lemma RefundIff(db: Tables, i: Id)
    requires i < |db.intents|
    ensures var intent, r := db.intents[i], RefundPayment(db, i);
      && (intent.status in {Pending, Failed, Canceled} ==> r == Finished(db, Raised(Conflict)))
      && (intent.status in {Refunded, RefundManualReview} ==> r == Finished(db, Returned(intent.status)))
      && (intent.status == Succeeded && intent.userId in db.users ==>
            var balance := db.users[intent.userId].credits;
            && (balance < intent.creditsAmount ==>
                  && r.outcome == Returned(RefundManualReview)
                  && r.db == db.(intents := db.intents[i := intent.(status := RefundManualReview)]))
            && (balance >= intent.creditsAmount ==>
                  && r.outcome == Returned(Refunded)
                  && r.db.intents == db.intents[i := intent.(status := Refunded)]
                  && r.db.users ==
                     db.users[intent.userId := db.users[intent.userId].(credits := balance - intent.creditsAmount)]
                  && r.db.transactions ==
                     db.transactions + [Transaction(intent.userId, TransactionType.Refund, -intent.creditsAmount,
                                                    balance - intent.creditsAmount, None, Some(i), None)]))
  {
  }

  /** A failure or cancellation changes pending intents only. */
  lemma CloseIff(db: Tables, i: Id, status: PaymentStatus)
    requires i < |db.intents|
    ensures var r := ClosePending(db, i, status);
      && (db.intents[i].status == Pending ==>
            r == Finished(db.(intents := db.intents[i := db.intents[i].(status := status)]), Returned(status)))
      && (db.intents[i].status != Pending ==> r == Finished(db, Returned(db.intents[i].status)))
  {
  }

  lemma NonNegativeProduct(a: int, b: int)
    requires 0 <= a && 0 <= b
    ensures 0 <= a * b
  {
  }

  /**
   A discount is charged on every intent created while it is pending, and no longer after the first of them is
   confirmed: the next intent is at full price.
   */
  lemma DiscountEndsWithConfirmation(db: Tables, i: Id, credits: int, price: nat, now: Instant)
    requires IntentsOwned(db) && i < |db.intents| && db.intents[i].status != Succeeded && credits > 0
    ensures var u := db.intents[i].userId;
      var after := ConfirmPayment(db, i).db;
      var next := CreatePayment(after, u, credits, price, now);
      next.outcome == Returned(|db.intents|)
          && next.db.intents[|db.intents|] == Intent(u, credits, credits * price, 0, Pending)
  {
  }

  /** An expired discount is neither charged nor kept. */
  lemma ExpiredDiscountIsDropped(db: Tables, u: Id, credits: int, price: nat, now: Instant)
    requires u in db.users && credits > 0
    requires var until := db.users[u].discountValidUntil; until.Some? && until.value <= now
    ensures var r, user := CreatePayment(db, u, credits, price, now), db.users[u];
      && r.db.intents[|db.intents|] == Intent(u, credits, credits * price, 0, Pending)
      && r.db.users == db.users[u := User(user.contact, user.role, user.plan, user.credits, 0, None, None)]
  {
  }
}
