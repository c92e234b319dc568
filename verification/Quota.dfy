/** Plan limits over the requests of the current Moscow day or month. */
module Quota {
  import opened Wrappers
  import opened Schema
  import opened QuotaWindow

  const FREE_LIMIT: nat := 1
  const STANDARD_LIMIT: nat := 300

  datatype PlanUsage = PlanUsage(plan: Plan, used: nat, limit: Option<nat>, periodStart: Option<int>)

  function PlanLimit(plan: Plan): Option<nat> {
    match plan
    case Free => Some(FREE_LIMIT)
    case Standard => Some(STANDARD_LIMIT)
    case Pro => None
  }

  predicate CountsForQuota(request: Request, u: Id) {
    request.userId == u && request.status in {GenerationPending, GenerationSucceeded}
  }

  /** `count_by_user_statuses_since` with the quota statuses. */
  function UsedSince(requests: map<Id, Request>, u: Id, since: int): nat {
    |CountedSince(requests, u, since)|
  }

  function CountedSince(requests: map<Id, Request>, u: Id, since: int): set<Id> {
    set r | r in requests && CountsForQuota(requests[r], u) && requests[r].createdAt >= since
  }

  function GetPlanUsage(db: Tables, u: Id, now: Instant): Outcome<PlanUsage, Error> {
    if u !in db.users then Raised(UserNotFound)
    else
      var plan := db.users[u].plan;
      var limit := PlanLimit(plan);
      if limit.None? then Returned(PlanUsage(plan, 0, None, None))
      else
        var start := PeriodStart(plan, now);
        Returned(PlanUsage(plan, UsedSince(db.requests, u, start), limit, Some(start)))
  }

  function EnsureCanGenerate(db: Tables, u: Id, now: Instant): Outcome<PlanUsage, Error> {
    var usage := GetPlanUsage(db, u, now);
    if usage.Returned? && usage.value.limit.Some? && usage.value.used >= usage.value.limit.value
        then Raised(QuotaExceeded)
    else usage
  }

  // ---------- Who may generate ----------

  /** The pending and succeeded requests of a user since an instant. */
  function LiveSince(requests: map<Id, Request>, u: Id, since: int): set<Id> {
    set r | r in requests && requests[r].userId == u && requests[r].createdAt >= since
            && (requests[r].status == GenerationPending || requests[r].status == GenerationSucceeded)
  }

  /** Nothing yet today on the free plan, fewer than 300 this month on the standard plan, anything on the pro plan. */
  predicate MayGenerate(db: Tables, u: Id, now: Instant) {
    && u in db.users
    && match db.users[u].plan
       case Free => LiveSince(db.requests, u, PeriodStart(Free, now)) == {}
       case Standard => |LiveSince(db.requests, u, PeriodStart(Standard, now))| < 300
       case Pro => true
  }

  /** The check passes exactly for those who may generate; others are unknown or over their limit. */
  lemma MayGenerateIff(db: Tables, u: Id, now: Instant)
    ensures EnsureCanGenerate(db, u, now).Returned? <==> MayGenerate(db, u, now)
    ensures EnsureCanGenerate(db, u, now) == Raised(UserNotFound) <==> u !in db.users
    ensures EnsureCanGenerate(db, u, now) == Raised(QuotaExceeded) <==> u in db.users && !MayGenerate(db, u, now)
  {
    hide PeriodStart;
    if u in db.users {
      var start := PeriodStart(db.users[u].plan, now);
      CountedAreLive(db.requests, u, start);
    }
  }

  lemma CountedAreLive(requests: map<Id, Request>, u: Id, since: int)
    ensures CountedSince(requests, u, since) == LiveSince(requests, u, since)
    ensures UsedSince(requests, u, since) == 0 <==> LiveSince(requests, u, since) == {}
  {
  }

  /** What the account page shows: the plan, its limit, and the requests used of it. */
  lemma UsageShown(db: Tables, u: Id, now: Instant)
    requires u in db.users
    ensures var r, plan := GetPlanUsage(db, u, now), db.users[u].plan;
      && r.Returned? && r.value.plan == plan
      && (plan == Free ==> r.value.limit == Some(1) && r.value.periodStart == Some(PeriodStart(Free, now)))
      && (plan == Standard ==> r.value.limit == Some(300) && r.value.periodStart == Some(PeriodStart(Standard, now)))
      && (plan == Pro ==> r.value.limit == None && r.value.periodStart == None && r.value.used == 0)
      && (r.value.periodStart.Some? ==> r.value.used == |LiveSince(db.requests, u, r.value.periodStart.value)|)
  {
    hide PeriodStart;
    CountedAreLive(db.requests, u, PeriodStart(db.users[u].plan, now));
  }

  /**
   The documentation counts the standard plan's requests since the paid period began. The code's count is that one,
   whatever the requests are, exactly if the period began with the Moscow month.
   */
  lemma CountsPaidPeriodIff(u: Id, now: Instant, startsAt: Instant)
    requires 0 <= PeriodStart(Standard, now)
    ensures (forall requests :: UsedSince(requests, u, PeriodStart(Standard, now)) == UsedSince(requests, u, startsAt))
            <==> PeriodStart(Standard, now) == startsAt
  {
    hide PeriodStart;
    var start := PeriodStart(Standard, now);
    if start != startsAt {
      var first := if start < startsAt then start else startsAt;
      var request := Request(u, 0, 0, GenerationPending, Formal, None, None, first);
      OneIsCounted(request, u, start);
      OneIsCounted(request, u, startsAt);
    }
  }

  lemma OneIsCounted(request: Request, u: Id, since: int)
    requires CountsForQuota(request, u)
    ensures UsedSince(map[0 := request], u, since) == if request.createdAt >= since then 1 else 0
  {
    assert CountedSince(map[0 := request], u, since) == if request.createdAt >= since then {0} else {};
  }

  // ---------- Staying within the limit ----------

  /** The requests of `u` that count, created in the period that begins at `start`. */
  function InPeriod(requests: map<Id, Request>, u: Id, plan: Plan, start: int): set<Id> {
    set r | r in requests && CountsForQuota(requests[r], u) && PeriodStart(plan, requests[r].createdAt) == start
  }

  /** No period, past or present, holds more than the plan's limit. */
  ghost predicate WithinQuota(requests: map<Id, Request>, u: Id, plan: Plan) {
    PlanLimit(plan).Some? ==> forall start :: |InPeriod(requests, u, plan, start)| <= PlanLimit(plan).value
  }

  lemma SubsetSize<T>(a: set<T>, b: set<T>)
    requires a <= b
    ensures |a| <= |b|
  {
    assert b == a + (b - a);
  }

  /** What the check counted covers the current period. */
  lemma CheckCoversPeriod(requests: map<Id, Request>, u: Id, plan: Plan, now: Instant)
    ensures |InPeriod(requests, u, plan, PeriodStart(plan, now))| <= UsedSince(requests, u, PeriodStart(plan, now))
  {
    hide PeriodStart;
    var start := PeriodStart(plan, now);
    var inside := InPeriod(requests, u, plan, start);
    var counted := CountedSince(requests, u, start);
    forall r | r in inside ensures r in counted {
      PeriodStartIsStart(plan, requests[r].createdAt);
    }
    SubsetSize(inside, counted);
  }

  /** A request created at the instant of a passed check keeps every period within the limit. */
  lemma CheckedRequestKeepsQuota(db: Tables, u: Id, now: Instant, id: Id, request: Request)
    requires u in db.users && EnsureCanGenerate(db, u, now).Returned?
    requires WithinQuota(db.requests, u, db.users[u].plan)
    requires id !in db.requests && request.createdAt == now
    ensures WithinQuota(db.requests[id := request], u, db.users[u].plan)
  {
    hide PeriodStart;
    var plan := db.users[u].plan;
    if PlanLimit(plan).Some? {
      var after := db.requests[id := request];
      CheckCoversPeriod(db.requests, u, plan, now);
      forall start ensures |InPeriod(after, u, plan, start)| <= PlanLimit(plan).value {
        var before := InPeriod(db.requests, u, plan, start);
        SubsetSize(InPeriod(after, u, plan, start), before + if PeriodStart(plan, now) == start then {id} else {});
      }
    }
  }

  /**
   The row may get its date from another clock than the check did: the limit is kept exactly if both instants lie in
   one period, or the period of the row has room.
   */
  lemma CheckKeepsQuotaIff(db: Tables, u: Id, now: Instant, id: Id, request: Request)
    requires u in db.users && EnsureCanGenerate(db, u, now).Returned?
    requires PlanLimit(db.users[u].plan).Some? && WithinQuota(db.requests, u, db.users[u].plan)
    requires id !in db.requests && CountsForQuota(request, u)
    ensures var plan := db.users[u].plan;
      WithinQuota(db.requests[id := request], u, plan) <==>
      || PeriodStart(plan, now) == PeriodStart(plan, request.createdAt)
      || |InPeriod(db.requests, u, plan, PeriodStart(plan, request.createdAt))| < PlanLimit(plan).value
  {
    hide PeriodStart, WithinQuota, InPeriod;
    CheckCoversPeriod(db.requests, u, db.users[u].plan, now);
    OneMoreKeepsQuotaIff(db.requests, id, request, u, db.users[u].plan);
  }

  /** Other users' requests, and requests that stop counting, use up nothing. */
  lemma NoNewUse(a: map<Id, Request>, b: map<Id, Request>, u: Id, plan: Plan)
    requires WithinQuota(a, u, plan)
    requires forall r | r in b && CountsForQuota(b[r], u) ::
               r in a && CountsForQuota(a[r], u) && a[r].createdAt == b[r].createdAt
    ensures WithinQuota(b, u, plan)
  {
    hide PeriodStart;
    if PlanLimit(plan).Some? {
      forall start ensures |InPeriod(b, u, plan, start)| <= PlanLimit(plan).value {
        SubsetSize(InPeriod(b, u, plan, start), InPeriod(a, u, plan, start));
      }
    }
  }

  /** What one more counted request does to a period; the request may have been there without counting. */
  lemma AddedToPeriod(requests: map<Id, Request>, id: Id, request: Request, u: Id, plan: Plan, start: int)
    requires CountsForQuota(request, u)
    requires id in requests ==> requests[id].createdAt == request.createdAt
    ensures InPeriod(requests[id := request], u, plan, start) ==
            InPeriod(requests, u, plan, start) + if PeriodStart(plan, request.createdAt) == start then {id} else {}
  {
    hide PeriodStart;
  }

  /** Whoever does not check keeps the quota exactly when the period of the request still has room. */
  lemma OneMoreKeepsQuotaIff(requests: map<Id, Request>, id: Id, request: Request, u: Id, plan: Plan)
    requires CountsForQuota(request, u) && PlanLimit(plan).Some? && WithinQuota(requests, u, plan)
    requires id in requests ==> requests[id].createdAt == request.createdAt && !CountsForQuota(requests[id], u)
    ensures WithinQuota(requests[id := request], u, plan) <==>
            |InPeriod(requests, u, plan, PeriodStart(plan, request.createdAt))| < PlanLimit(plan).value
  {
    hide PeriodStart, CountsForQuota;
    var after := requests[id := request];
    forall start
      ensures |InPeriod(after, u, plan, start)| ==
              |InPeriod(requests, u, plan, start)| + if PeriodStart(plan, request.createdAt) == start then 1 else 0
    {
      AddedToPeriod(requests, id, request, u, plan, start);
      assert id !in InPeriod(requests, u, plan, start);
    }
    assert |InPeriod(after, u, plan, PeriodStart(plan, request.createdAt))| ==
           |InPeriod(requests, u, plan, PeriodStart(plan, request.createdAt))| + 1;
  }
}
