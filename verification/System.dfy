/**
 The whole service as a state machine: every route, bot command, webhook, sweep and worker run is a step, and a
 run is any sequence of steps. A transaction is one atomic step, except enqueuing through the API, whose job is
 in Redis before its transaction commits or aborts. Jobs may be delivered any number of times.
 */
module System {
  import opened Wrappers
  import opened Schema
  import opened QuotaWindow
  import opened VacancyCache
  import opened Ledger
  import opened Payments
  import opened PromoCodes
  import opened Subscriptions
  import opened Generation
  import opened GenerationProofs

  datatype Settings = Settings(bonus: int, price: nat)

  datatype Step =
    | RegisterByApi(address: string)
    | StartTelegram(telegramId: int)
    | SeedAdministrator(address: string)
    | SaveProfile(u: Id, resumeText: string)
    | CreateIntent(u: Id, credits: int, now: Instant)
    | ConfirmIntent(i: Id)
    | FailIntent(i: Id)
    | CancelIntent(i: Id)
    | Refund(i: Id)
    | TopUpByBot(u: Id, credits: int)
    | NewPromo(code: string, kind: PromoKind, value: int, validUntil: Instant, maxActivations: int)
    | RedeemByApi(u: Id, code: string, now: Instant)
    | RedeemByBot(u: Id, code: string)
    | Adjust(u: Id, amount: int)
    | Subscribe(u: Id, plan: Plan, now: Instant)
    | SweepExpired(now: Instant)
    | EndSubscription(u: Id)
    | BeginEnqueue(u: Id, url: string, tone: Tone, now: Instant, cost: int)
    | CommitEnqueue(id: Id)
    | AbortEnqueue(id: Id)
    | EnqueueByBot(u: Id, url: string, tone: Tone, now: Instant, cost: int)
    | DeliverJob(job: nat, w: World)

  /**
   Committed tables, pushed jobs, transactions that have pushed but not committed, and three histories: the jobs
   delivered so far, the job that wrote each letter, and what hh.ru said.
   */
  datatype State = State(
    db: Tables, jobs: seq<Job>, inflight: map<Id, Reservation>, delivered: set<nat>, writers: seq<nat>,
    log: seq<Said>)

  const START := State(EMPTY, [], map[], {}, [], [])

  predicate TouchesQueue(step: Step) {
    step.BeginEnqueue? || step.CommitEnqueue? || step.AbortEnqueue? || step.EnqueueByBot? || step.DeliverJob?
  }

  predicate TouchesIntents(step: Step) {
    || step.CreateIntent? || step.ConfirmIntent? || step.FailIntent? || step.CancelIntent? || step.Refund?
    || step.TopUpByBot?
  }

  function StoreProfile(db: Tables, u: Id, resumeText: string): Tables {
    if u !in db.users then db
    else if u in db.profiles then db.(profiles := db.profiles[u := db.profiles[u].(resumeText := resumeText)])
    else db.(profiles := db.profiles[u := Profile(db.nextId, resumeText)], nextId := db.nextId + 1)
  }

  /** The steps that are one transaction on the tables and nothing else. */
  ghost function OnTables(cfg: Settings, db: Tables, step: Step): Tables
    requires !TouchesQueue(step)
  {
    match step
    case RegisterByApi(address) => Register(db, Email(address), cfg.bonus).db
    case StartTelegram(telegramId) => Register(db, Telegram(telegramId), cfg.bonus).db
    case SeedAdministrator(address) => SeedAdmin(db, address)
    case SaveProfile(u, resumeText) => StoreProfile(db, u, resumeText)
    case CreateIntent(u, credits, now) => CreatePayment(db, u, credits, cfg.price, now).db
    case ConfirmIntent(i) => ConfirmPayment(db, i).db
    case FailIntent(i) => ClosePending(db, i, Failed).db
    case CancelIntent(i) => ClosePending(db, i, Canceled).db
    case Refund(i) => RefundPayment(db, i).db
    case TopUpByBot(u, credits) => BotTopUp(db, u, credits, cfg.price).db
    case NewPromo(code, kind, value, validUntil, maxActivations) =>
      CreatePromo(db, code, kind, value, validUntil, maxActivations).db
    case RedeemByApi(u, code, now) => ApiRedeem(db, u, code, now).db
    case RedeemByBot(u, code) => BotRedeem(db, u, code).db
    case Adjust(u, amount) => AdjustBalance(db, u, amount).db
    case Subscribe(u, plan, now) => ActivateSubscription(db, u, plan, now).db
    case SweepExpired(now) => Sweep(db, now)
    case EndSubscription(u) => AdminExpire(db, u).db
  }

  /** Pushes the job and leaves the transaction open; its key is consumed either way. */
  ghost function Begin(s: State, u: Id, url: string, tone: Tone, now: Instant, cost: int): State {
    var reserved := Reserve(s.db, u, url, tone, now, cost);
    if reserved.Raised? then s
    else
      var id := s.db.nextId;
      s.(db := s.db.(nextId := id + 1),
         jobs := s.jobs + [ApiJob(reserved.value, id, cost)],
         inflight := s.inflight[id := reserved.value])
  }

  /** The commit is refused if another transaction has meanwhile inserted the same vacancy. */
  ghost function Commit(s: State, id: Id): State {
    if id !in s.inflight then s
    else
      var r := s.inflight[id];
      var closed := s.(inflight := s.inflight - {id});
      if r.placeholder.Some? && !PlaceholderFits(s.db, r.placeholder.value) then closed
      else closed.(db := InsertReservation(s.db, id, r))
  }

  ghost function DeliverTo(s: State, k: nat, w: World): State {
    if k >= |s.jobs| then s
    else
      var job := s.jobs[k];
      s.(db := RunJob(s.db, job, w).db,
         delivered := s.delivered + {k},
         writers := if RunJob(s.db, job, w).outcome.Returned? then s.writers + [k] else s.writers,
         log := if Admit(s.db, job, w.now).Returned? then Heard(s.db, s.log, job.url, w.now, w.hh) else s.log)
  }

  ghost function Apply(cfg: Settings, s: State, step: Step): State {
    match step
    case BeginEnqueue(u, url, tone, now, cost) => Begin(s, u, url, tone, now, cost)
    case CommitEnqueue(id) => Commit(s, id)
    case AbortEnqueue(id) => s.(inflight := s.inflight - {id})
    case EnqueueByBot(u, url, tone, now, cost) =>
      if BotMayEnqueue(s.db, u, now, cost).Raised? then s
      else s.(jobs := s.jobs + [Job(u, url, tone, true, true, cost, None)])
    case DeliverJob(k, w) => DeliverTo(s, k, w)
    case _ => s.(db := OnTables(cfg, s.db, step))
  }

  ghost function Run(cfg: Settings, steps: seq<Step>): State {
    if steps == [] then START else Apply(cfg, Run(cfg, steps[..|steps| - 1]), steps[|steps| - 1])
  }

  /** Every step of the run was taken in a state that allows it. */
  ghost predicate Along(cfg: Settings, steps: seq<Step>, allowed: (State, Step) -> bool) {
    steps == [] ||
    (Along(cfg, steps[..|steps| - 1], allowed) && allowed(Run(cfg, steps[..|steps| - 1]), steps[|steps| - 1]))
  }

  lemma RunThen(cfg: Settings, steps: seq<Step>, step: Step)
    ensures Run(cfg, steps + [step]) == Apply(cfg, Run(cfg, steps), step)
  {
    hide Apply;
    assert (steps + [step])[..|steps|] == steps;
  }

  /** A weaker condition on steps holds along the same runs. */
  lemma {:induction false} AlongWeakens(cfg: Settings, steps: seq<Step>, p: (State, Step) -> bool,
        q: (State, Step) -> bool)
    requires Along(cfg, steps, p) && forall s, t :: p(s, t) ==> q(s, t)
    ensures Along(cfg, steps, q)
  {
    hide Run;
    if steps != [] {
      AlongWeakens(cfg, steps[..|steps| - 1], p, q);
    }
  }

  // ---------- What the plain steps leave alone ----------

  /** At most one more row, which belongs to no request. */
  ghost predicate AtMostOneRow(a: seq<Transaction>, b: seq<Transaction>) {
    b == a || (|b| == |a| + 1 && b[..|a|] == a && b[|a|].requestId == None)
  }

  /** The generation tables are as before, no profile is lost, and no ledger row for a request was added. */
  ghost predicate KeepsGeneration(a: Tables, b: Tables) {
    && b.employers == a.employers && b.vacancies == a.vacancies
    && b.requests == a.requests && b.letters == a.letters
    && (forall u | u in a.profiles :: u in b.profiles)
    && a.nextId <= b.nextId
    && AtMostOneRow(a.transactions, b.transactions)
  }

  lemma OneMoreRow(rows: seq<Transaction>, t: Transaction)
    requires t.requestId == None
    ensures AtMostOneRow(rows, rows + [t]) && AtMostOneRow(rows, rows)
  {
  }

  lemma NoMoreRow(rows: seq<Transaction>)
    ensures AtMostOneRow(rows, rows)
  {
  }

  /** A posting for anything but a request. */
  lemma PostKeepsGeneration(db: Tables, mid: Tables, u: Id, kind: TransactionType, amount: int,
                            intentId: Option<Id>, promo: Option<string>)
    requires u in mid.users && KeepsGeneration(db, mid) && mid.transactions == db.transactions
    ensures KeepsGeneration(db, Post(mid, u, kind, amount, None, intentId, promo))
  {
    hide AtMostOneRow;
    OneMoreRow(db.transactions, Transaction(u, kind, amount, mid.users[u].credits + amount, None, intentId, promo));
  }

  lemma RegisterKeepsGeneration(db: Tables, contact: Contact, bonus: int)
    ensures KeepsGeneration(db, Register(db, contact, bonus).db)
  {
    hide Registered, Post;
    if !Registered(db.users, contact) && bonus > 0 {
      PostKeepsGeneration(db, CreateUser(db, NewUser(contact, Regular, Free, 0)), db.nextId, WelcomeBonus, bonus,
          None, None);
    }
  }

  lemma AccountsKeepGeneration(db: Tables, address: string, u: Id, text: string)
    ensures KeepsGeneration(db, SeedAdmin(db, address))
    ensures KeepsGeneration(db, StoreProfile(db, u, text))
  {
    hide Registered;
  }

  lemma AdjustKeepsGeneration(db: Tables, u: Id, amount: int)
    ensures KeepsGeneration(db, AdjustBalance(db, u, amount).db)
  {
    hide Post;
    if u in db.users {
      PostKeepsGeneration(db, db, u, Adjustment, amount, None, None);
    }
  }

  lemma IntentsKeepGeneration(db: Tables, u: Id, credits: int, price: nat, now: Instant)
    ensures KeepsGeneration(db, CreatePayment(db, u, credits, price, now).db)
    ensures KeepsGeneration(db, BotTopUp(db, u, credits, price).db)
  {
    hide Discounted, Post;
    if u in db.users {
      PostKeepsGeneration(db, BotIntent(db, u, credits, price), u, TopUp, credits, Some(|db.intents|), None);
    }
  }

  lemma ConfirmKeepsGeneration(db: Tables, i: Id)
    ensures KeepsGeneration(db, ConfirmPayment(db, i).db)
  {
    hide Post, WithoutDiscount;
    if i < |db.intents| && db.intents[i].userId in db.users {
      var intent := db.intents[i];
      var marked := SetStatus(SetUser(db, intent.userId, WithoutDiscount(db.users[intent.userId])), i, Succeeded);
      PostKeepsGeneration(db, marked, intent.userId, TopUp, intent.creditsAmount, Some(i), None);
    }
  }

  lemma CloseKeepsGeneration(db: Tables, i: Id, status: PaymentStatus)
    ensures KeepsGeneration(db, ClosePending(db, i, status).db)
  {
    hide AtMostOneRow;
    NoMoreRow(db.transactions);
    var after := ClosePending(db, i, status).db;
    assert after == db.(intents := after.intents);
  }

  lemma RefundKeepsGeneration(db: Tables, i: Id)
    ensures KeepsGeneration(db, RefundPayment(db, i).db)
  {
    hide Post;
    if i < |db.intents| && db.intents[i].userId in db.users {
      var intent := db.intents[i];
      PostKeepsGeneration(db, SetStatus(db, i, Refunded), intent.userId, TransactionType.Refund,
          -intent.creditsAmount, Some(i), None);
    }
  }

  lemma GrantKeepsGeneration(db: Tables, u: Id, code: string, discount: User)
    requires code in db.promos && u in db.users
    ensures KeepsGeneration(db, Grant(db, u, code, discount).db)
  {
  }

  lemma SameKeepsGeneration(db: Tables)
    ensures KeepsGeneration(db, db)
  {
  }

  lemma NewPromoKeepsGeneration(db: Tables, code: string, kind: PromoKind, value: int, validUntil: Instant,
                                maxActivations: int)
    ensures KeepsGeneration(db, CreatePromo(db, code, kind, value, validUntil, maxActivations).db)
  {
  }

  lemma PromosKeepGeneration(cfg: Settings, db: Tables, step: Step)
    requires step.NewPromo? || step.RedeemByApi? || step.RedeemByBot?
    ensures KeepsGeneration(db, OnTables(cfg, db, step))
  {
    hide Grant, Redeemable, KeepsGeneration;
    SameKeepsGeneration(db);
    match step
    case NewPromo(code, kind, value, validUntil, maxActivations) =>
      NewPromoKeepsGeneration(db, code, kind, value, validUntil, maxActivations);
    case RedeemByApi(u, code, now) =>
      if code in db.promos && u in db.users {
        var promo := db.promos[code];
        GrantKeepsGeneration(db, u, code,
          db.users[u].(discountPercent := promo.value, discountValidUntil := Some(promo.validUntil),
              discountPromo := Some(code)));
      }
    case RedeemByBot(u, code) =>
      if code in db.promos && u in db.users {
        GrantKeepsGeneration(db, u, code, db.users[u].(discountPercent := db.promos[code].value));
      }
  }

  lemma SubscriptionsKeepGeneration(db: Tables, u: Id, plan: Plan, now: Instant)
    ensures KeepsGeneration(db, ActivateSubscription(db, u, plan, now).db)
    ensures KeepsGeneration(db, Sweep(db, now))
    ensures KeepsGeneration(db, AdminExpire(db, u).db)
  {
    hide LatestActive, SweepRows, PAID_PERIOD;
  }

  lemma PlainStepsKeepGeneration(cfg: Settings, db: Tables, step: Step)
    requires !TouchesQueue(step)
    ensures KeepsGeneration(db, OnTables(cfg, db, step))
  {
    hide KeepsGeneration, Register, SeedAdmin, StoreProfile, AdjustBalance, CreatePayment, BotTopUp, ConfirmPayment,
      ClosePending, RefundPayment, ActivateSubscription, Sweep, AdminExpire, CreatePromo, ApiRedeem, BotRedeem;
    match step
    case RegisterByApi(address) => RegisterKeepsGeneration(db, Email(address), cfg.bonus);
    case StartTelegram(telegramId) => RegisterKeepsGeneration(db, Telegram(telegramId), cfg.bonus);
    case SeedAdministrator(address) => AccountsKeepGeneration(db, address, 0, "");
    case SaveProfile(u, text) => AccountsKeepGeneration(db, "", u, text);
    case Adjust(u, amount) => AdjustKeepsGeneration(db, u, amount);
    case CreateIntent(u, credits, now) => IntentsKeepGeneration(db, u, credits, cfg.price, now);
    case TopUpByBot(u, credits) => IntentsKeepGeneration(db, u, credits, cfg.price, 0);
    case ConfirmIntent(i) => ConfirmKeepsGeneration(db, i);
    case FailIntent(i) => CloseKeepsGeneration(db, i, Failed);
    case CancelIntent(i) => CloseKeepsGeneration(db, i, Canceled);
    case Refund(i) => RefundKeepsGeneration(db, i);
    case Subscribe(u, plan, now) => SubscriptionsKeepGeneration(db, u, plan, now);
    case SweepExpired(now) => SubscriptionsKeepGeneration(db, 0, Free, now);
    case EndSubscription(u) => SubscriptionsKeepGeneration(db, u, Free, 0);
    case _ => PromosKeepGeneration(cfg, db, step);
  }

  /** Saving a profile replaces the text under the key it has, or takes a new key; unknown users have none. */
  lemma ProfileTerms(db: Tables, u: Id, text: string)
    ensures var after := StoreProfile(db, u, text);
      && (u !in db.users ==> after == db)
      && (u in db.users && u in db.profiles ==>
            after == db.(profiles := db.profiles[u := Profile(db.profiles[u].id, text)]))
      && (u in db.users && u !in db.profiles ==>
            after == db.(profiles := db.profiles[u := Profile(db.nextId, text)], nextId := db.nextId + 1))
  {
  }

  lemma ProfileFrame(db: Tables, u: Id, text: string)
    ensures var after := StoreProfile(db, u, text);
      after == db.(profiles := after.profiles, nextId := after.nextId) && db.nextId <= after.nextId
  {
  }

  // ---------- What the queue's other steps leave alone ----------

  lemma InsertionFrame(db: Tables, id: Id, r: Reservation)
    ensures var after := InsertReservation(db, id, r);
      after == db.(employers := after.employers, vacancies := after.vacancies, requests := after.requests)
  {
    hide PlaceholderEmployer, PlaceholderVacancy;
  }

  /** Enqueuing touches the generation tables only, and pushes at most jobs that charge. */
  lemma QueueStepFrame(cfg: Settings, s: State, step: Step)
    requires TouchesQueue(step) && !step.DeliverJob?
    ensures var after := Apply(cfg, s, step);
      && after.db == s.db.(nextId := after.db.nextId, requests := after.db.requests, employers := after.db.employers,
                           vacancies := after.db.vacancies)
      && s.db.nextId <= after.db.nextId
      && s.jobs <= after.jobs && after.writers == s.writers
      && (forall k | |s.jobs| <= k < |after.jobs| :: after.jobs[k].charge)
  {
    hide Reserve, BotMayEnqueue, PlaceholderFits, InsertReservation;
    if step.CommitEnqueue? && step.id in s.inflight {
      InsertionFrame(s.db, step.id, s.inflight[step.id]);
    }
  }

  // ---------- What a delivery does ----------

  /** A delivery either wrote and charged, or did next to nothing. */
  lemma DeliveryCases(db: Tables, job: Job, w: World)
    ensures var r := RunJob(db, job, w);
      if r.outcome.Returned? then
        var g := Generate(db, job, w);
        && g.outcome.Returned? && Wrote(db, g.db, job, w, g.outcome.value)
        && Charged(g.db, r.db, job, g.outcome.value.letter.requestId)
      else Untouched(db, r.db) || MarkedFailed(db, r.db, job)
  {
    hide RunJob, Wrote, Charged, Generate;
    if RunJob(db, job, w).outcome.Returned? {
      RunCommitsTogether(db, job, w);
    } else {
      RunFailsAlone(db, job, w);
    }
  }
}
