/**
 The plan limits over whole runs, although API jobs are checked when they are enqueued and bot jobs only when the
 worker runs them.
 */
module QuotaRuns {
  import opened Schema
  import opened QuotaWindow
  import opened Quota
  import opened VacancyCache
  import opened Generation
  import opened GenerationProofs
  import opened System
  import opened GenerationRuns
  import UrlScanner

  /** No step comes between an enqueuing transaction's push and its end. */
  ghost predicate Serial(s: State, step: Step) {
    s.inflight != map[] ==> step.CommitEnqueue? || step.AbortEnqueue?
  }

  /** Serialised transactions, single deliveries, and a user who stays on one plan. */
  ghost function SteadyUse(u: Id, plan: Plan): (State, Step) -> bool {
    (s: State, step: Step) => Once(s, step) && Serial(s, step) && (u in s.db.users ==> s.db.users[u].plan == plan)
  }

  /** No period is over the limit, nor will it be when the open transaction commits. */
  ghost predicate QuotaSafe(s: State, u: Id, plan: Plan) {
    && WithinQuota(s.db.requests, u, plan)
    && (forall i, j | i in s.inflight && j in s.inflight :: i == j)
    && (forall id | id in s.inflight :: WithinQuota(s.db.requests[id := s.inflight[id].request], u, plan))
  }

  lemma WrittenKeepsQuota(db: Tables, mid: Tables, after: Tables, job: Job, w: World, saved: Saved, u: Id, plan: Plan)
    requires Wrote(db, mid, job, w, saved) && Charged(mid, after, job, saved.letter.requestId)
    requires WithinQuota(db.requests, u, plan) && (u in db.users ==> db.users[u].plan == plan)
    requires forall id | id in db.requests :: id < db.nextId
    requires job.requestId.Some? ==>
               job.requestId.value in db.requests && db.requests[job.requestId.value].status == GenerationPending
    ensures WithinQuota(after.requests, u, plan)
  {
    hide WithinQuota, FromSnapshot, PeriodStart;
    var id := saved.letter.requestId;
    if job.requestId.None? && job.userId == u {
      EnsuredUserExists(db, u, w.now);
      CheckedRequestKeepsQuota(db, u, w.now, id, mid.requests[id]);
    } else {
      NoNewUse(db.requests, after.requests, u, plan);
    }
  }

  lemma EnsuredUserExists(db: Tables, u: Id, now: Instant)
    requires EnsureCanGenerate(db, u, now).Returned?
    ensures u in db.users
  {
    hide PeriodStart, UsedSince;
  }

  lemma RunKeepsQuota(db: Tables, job: Job, w: World, u: Id, plan: Plan)
    requires forall id | id in db.requests :: id < db.nextId
    requires WithinQuota(db.requests, u, plan) && (u in db.users ==> db.users[u].plan == plan)
    requires job.requestId.Some? && job.requestId.value in db.requests ==>
               db.requests[job.requestId.value].status == GenerationPending
    ensures WithinQuota(RunJob(db, job, w).db.requests, u, plan)
  {
    hide RunJob, Wrote, Charged, Generate, WithinQuota;
    DeliveryCases(db, job, w);
    if RunJob(db, job, w).outcome.Returned? {
      var g := Generate(db, job, w);
      WroteTarget(db, g.db, job, w, g.outcome.value);
      WrittenKeepsQuota(db, g.db, RunJob(db, job, w).db, job, w, g.outcome.value, u, plan);
    } else {
      RunFailsAlone(db, job, w);
      NoNewUse(db.requests, RunJob(db, job, w).db.requests, u, plan);
    }
  }

  lemma DeliveryKeepsQuota(s: State, k: nat, w: World, u: Id, plan: Plan)
    requires KeysInOrder(s) && OncePerRequest(s) && k !in s.delivered && s.inflight == map[]
    requires QuotaSafe(s, u, plan) && (u in s.db.users ==> s.db.users[u].plan == plan)
    ensures QuotaSafe(DeliverTo(s, k, w), u, plan)
  {
    hide RunJob, Heard, WithinQuota, HasSnapshot, LettersOf;
    if k < |s.jobs| {
      RunKeepsQuota(s.db, s.jobs[k], w, u, plan);
    }
  }

  lemma BeginKeepsQuota(s: State, v: Id, url: string, tone: Tone, now: Instant, cost: int, u: Id, plan: Plan)
    requires KeysInOrder(s) && s.inflight == map[]
    requires QuotaSafe(s, u, plan) && (u in s.db.users ==> s.db.users[u].plan == plan)
    ensures QuotaSafe(Begin(s, v, url, tone, now, cost), u, plan)
  {
    hide WithinQuota, Reserve, KeysInOrder;
    if Reserve(s.db, v, url, tone, now, cost).Returned? {
      ReservedWithinQuota(s, v, url, tone, now, cost, u, plan);
    }
  }

  /** The check that admitted the reservation is the one its commit needs. */
  lemma ReservedWithinQuota(s: State, v: Id, url: string, tone: Tone, now: Instant, cost: int, u: Id, plan: Plan)
    requires KeysInOrder(s) && Reserve(s.db, v, url, tone, now, cost).Returned?
    requires WithinQuota(s.db.requests, u, plan) && (u in s.db.users ==> s.db.users[u].plan == plan)
    ensures WithinQuota(s.db.requests[s.db.nextId := Reserve(s.db, v, url, tone, now, cost).value.request], u, plan)
  {
    hide WithinQuota, EnsureCanGenerate, HasSnapshot, Reserve;
    ReservedRequest(s.db, v, url, tone, now, cost);
    var id, request := s.db.nextId, Reserve(s.db, v, url, tone, now, cost).value.request;
    if v == u {
      CheckedRequestKeepsQuota(s.db, u, now, id, request);
    } else {
      NoNewUse(s.db.requests, s.db.requests[id := request], u, plan);
    }
  }

  lemma ReservedRequest(db: Tables, u: Id, url: string, tone: Tone, now: Instant, cost: int)
    requires Reserve(db, u, url, tone, now, cost).Returned?
    ensures u in db.users && EnsureCanGenerate(db, u, now).Returned?
    ensures var r := Reserve(db, u, url, tone, now, cost).value.request;
      r.userId == u && r.createdAt == now && r.status == GenerationPending
  {
    hide EnsureCanGenerate, UrlScanner.ParseVacancyId, VacancyId;
  }

  lemma CommitKeepsQuota(s: State, id: Id, u: Id, plan: Plan)
    requires QuotaSafe(s, u, plan)
    ensures QuotaSafe(Commit(s, id), u, plan)
  {
    hide WithinQuota, PlaceholderFits, InsertPlaceholder;
    if id in s.inflight && s.inflight[id].placeholder.Some? {
      InsertKeepsRequests(s.db, s.inflight[id].placeholder.value, id, s.inflight[id].url);
    }
  }

  lemma StepKeepsQuota(cfg: Settings, s: State, step: Step, u: Id, plan: Plan)
    requires KeysInOrder(s) && OncePerRequest(s) && SteadyUse(u, plan)(s, step) && QuotaSafe(s, u, plan)
    ensures QuotaSafe(Apply(cfg, s, step), u, plan)
  {
    hide OnTables, DeliverTo, Begin, Commit, BotMayEnqueue, WithinQuota, KeysInOrder, OncePerRequest;
    if !TouchesQueue(step) {
      PlainStepsKeepGeneration(cfg, s.db, step);
    } else {
      match step
      case BeginEnqueue(v, url, tone, now, cost) => BeginKeepsQuota(s, v, url, tone, now, cost, u, plan);
      case CommitEnqueue(id) => CommitKeepsQuota(s, id, u, plan);
      case DeliverJob(k, w) => DeliveryKeepsQuota(s, k, w, u, plan);
      case _ =>
    }
  }

  lemma StartIsSafe(u: Id, plan: Plan)
    ensures QuotaSafe(START, u, plan)
  {
    hide PeriodStart;
    forall start ensures |InPeriod(EMPTY.requests, u, plan, start)| == 0 {
      assert InPeriod(EMPTY.requests, u, plan, start) == {};
    }
  }

  lemma {:induction false} QuotaSafeInRun(cfg: Settings, steps: seq<Step>, u: Id, plan: Plan)
    requires Along(cfg, steps, SteadyUse(u, plan))
    ensures QuotaSafe(Run(cfg, steps), u, plan)
  {
    hide Apply, QuotaSafe;
    if steps == [] {
      StartIsSafe(u, plan);
    } else {
      var init := steps[..|steps| - 1];
      QuotaSafeInRun(cfg, init, u, plan);
      SnapshotsInEveryRun(cfg, init);
      AlongWeakens(cfg, init, SteadyUse(u, plan), Once);
      OnceInEveryRun(cfg, init);
      StepKeepsQuota(cfg, Run(cfg, init), steps[|steps| - 1], u, plan);
    }
  }

  /**
   With serialised transactions, single deliveries and a constant plan, no Moscow day (free) and no Moscow month
   (standard) ever holds more of a user's pending and succeeded requests than the plan allows.
   */
  lemma QuotaNeverExceeded(cfg: Settings, steps: seq<Step>, u: Id, plan: Plan, start: int)
    requires Along(cfg, steps, SteadyUse(u, plan)) && PlanLimit(plan).Some?
    ensures |InPeriod(Run(cfg, steps).db.requests, u, plan, start)| <= PlanLimit(plan).value
  {
    hide Run, InPeriod;
    QuotaSafeInRun(cfg, steps, u, plan);
  }

  // ---------- Where nobody checks ----------

  /**
   A job that brings its request is not checked by the worker. A run of it keeps its user within the quota exactly if
   it writes no letter, or the request had not failed before, or its period still has room.
   */
  lemma RedeliveryKeepsQuotaIff(db: Tables, job: Job, w: World, plan: Plan)
    requires job.requestId.Some? && job.requestId.value in db.requests
    requires PlanLimit(plan).Some? && WithinQuota(db.requests, job.userId, plan)
    ensures var request := db.requests[job.requestId.value];
      WithinQuota(RunJob(db, job, w).db.requests, job.userId, plan) <==>
      || !Succeeds(db, job, w)
      || request.status != GenerationFailed
      || |InPeriod(db.requests, job.userId, plan, PeriodStart(plan, request.createdAt))| < PlanLimit(plan).value
  {
    hide PeriodStart, RunJob, Generate, InPeriod, FromSnapshot, WithinQuota, Succeeds, HhFails;
    RunLeaves(db, job, w);
    var id, u := job.requestId.value, job.userId;
    var request := db.requests[id];
    if Succeeds(db, job, w) {
      RunReturnsIff(db, job, w);
      RunCommitsTogether(db, job, w);
    }
    if Succeeds(db, job, w) && request.status == GenerationFailed {
      OneMoreKeepsQuotaIff(db.requests, id, request.(status := GenerationSucceeded), u, plan);
    } else {
      NoNewUse(db.requests, RunJob(db, job, w).db.requests, u, plan);
    }
  }

  /** Nor is the check repeated when an enqueuing transaction commits. */
  lemma CommitKeepsQuotaIff(s: State, id: Id, plan: Plan)
    requires id in s.inflight && id !in s.db.requests && id in Commit(s, id).db.requests
    requires s.inflight[id].request.status == GenerationPending
    requires PlanLimit(plan).Some? && WithinQuota(s.db.requests, s.inflight[id].request.userId, plan)
    ensures var request := s.inflight[id].request;
      WithinQuota(Commit(s, id).db.requests, request.userId, plan) <==>
      |InPeriod(s.db.requests, request.userId, plan, PeriodStart(plan, request.createdAt))| < PlanLimit(plan).value
  {
    hide PeriodStart, InPeriod, WithinQuota, PlaceholderFits, InsertPlaceholder;
    var r := s.inflight[id];
    if r.placeholder.Some? {
      InsertKeepsRequests(s.db, r.placeholder.value, id, r.url);
    }
    OneMoreKeepsQuotaIff(s.db.requests, id, r.request, r.request.userId, plan);
  }

  lemma SecondCommitExceeds(s: State, a: Id, b: Id, u: Id, now: Instant)
    requires a in s.inflight && b in s.inflight && a != b && a !in s.db.requests && b !in s.db.requests
    requires forall id | id in {a, b} ::
               s.inflight[id].request.status == GenerationPending && s.inflight[id].request.userId == u
               && s.inflight[id].request.createdAt == now
    requires a in Commit(s, a).db.requests && b in Commit(Commit(s, a), b).db.requests
    ensures !WithinQuota(Commit(Commit(s, a), b).db.requests, u, Free)
  {
    hide PeriodStart, PlaceholderFits, InsertPlaceholder;
    InsertedRequest(s, a);
    InsertedRequest(Commit(s, a), b);
    var after := Commit(Commit(s, a), b).db.requests;
    hide Commit;
    var start := PeriodStart(Free, now);
    assert {a, b} <= InPeriod(after, u, Free, start);
    SubsetSize({a, b}, InPeriod(after, u, Free, start));
  }

  lemma InsertedRequest(s: State, id: Id)
    requires id in s.inflight && id !in s.db.requests && id in Commit(s, id).db.requests
    ensures Commit(s, id).db.requests == s.db.requests[id := s.inflight[id].request]
    ensures Commit(s, id).inflight == s.inflight - {id}
  {
    hide PlaceholderFits, InsertPlaceholder;
    var r := s.inflight[id];
    if r.placeholder.Some? {
      InsertKeepsRequests(s.db, r.placeholder.value, id, r.url);
    }
  }

  /** Admission does not depend on the next key. */
  lemma SameCheck(db: Tables, nextId: Id, u: Id, url: string, tone: Tone, now: Instant, cost: int)
    requires Reserve(db, u, url, tone, now, cost).Returned?
    ensures Reserve(db.(nextId := nextId), u, url, tone, now, cost).Returned?
  {
    hide UrlScanner.ParseVacancyId, VacancyId, PeriodStart, UsedSince, AllowsTone;
  }
}
