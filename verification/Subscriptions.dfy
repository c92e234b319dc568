/** Paid periods: activation, renewal, change of plan, and the sweep that ends expired periods. */
module Subscriptions {
  import opened Wrappers
  import opened Schema
  import opened QuotaWindow
  import Calendar

  /** Thirty days. */
  const PAID_PERIOD: nat := 30 * Calendar.DAY

  predicate ActiveOf(s: Subscription, u: Id) {
    s.userId == u && s.status == Active
  }

  /** The active row that expires last; among equals, the newest. */
  function LatestActive(subs: seq<Subscription>, u: Id): (r: Option<Id>)
    ensures r.Some? ==> r.value < |subs| && ActiveOf(subs[r.value], u)
    ensures forall j | 0 <= j < |subs| && ActiveOf(subs[j], u) ::
              && r.Some?
              && subs[j].expiresAt <= subs[r.value].expiresAt
              && (subs[j].expiresAt == subs[r.value].expiresAt ==> j <= r.value)
  {
    if subs == [] then None else
      var last := |subs| - 1;
      var before := LatestActive(subs[..last], u);
      if ActiveOf(subs[last], u) && (before.None? || subs[before.value].expiresAt <= subs[last].expiresAt)
          then Some(last)
      else before
  }

  function SetPlan(users: map<Id, User>, u: Id, plan: Plan): map<Id, User> {
    if u in users then users[u := users[u].(plan := plan)] else users
  }

  function Expire(subs: seq<Subscription>, i: Id): seq<Subscription>
    requires i < |subs|
  {
    subs[i := subs[i].(status := Expired)]
  }

  function ActivateSubscription(db: Tables, u: Id, plan: Plan, now: Instant): Finished<Id> {
    if plan == Free then Finished(db, Raised(InvalidPaidPlan))
    else if u !in db.users then Finished(db, Raised(UserNotFound))
    else
      var current := LatestActive(db.subscriptions, u);
      var renews := current.Some? && db.subscriptions[current.value].plan == plan;
      var start := if renews then db.subscriptions[current.value].expiresAt else now;
      var kept := if current.Some? && !renews then Expire(db.subscriptions, current.value) else db.subscriptions;
      Finished(db.(subscriptions := kept + [Subscription(u, plan, Active, start, start + PAID_PERIOD)],
                   users := SetPlan(db.users, u, plan)),
               Returned(|kept|))
  }

  predicate Due(s: Subscription, cutoff: Instant) {
    s.status == Active && s.expiresAt < cutoff
  }

  function SweepRows(subs: seq<Subscription>, cutoff: Instant): (r: seq<Subscription>)
    ensures |r| == |subs|
    ensures forall i | 0 <= i < |subs| :: r[i] == if Due(subs[i], cutoff) then subs[i].(status := Expired) else subs[i]
  {
    seq(|subs|, i requires 0 <= i < |subs| => if Due(subs[i], cutoff) then subs[i].(status := Expired) else subs[i])
  }

  predicate LosesPeriod(subs: seq<Subscription>, u: Id, cutoff: Instant) {
    exists i | 0 <= i < |subs| :: subs[i].userId == u && Due(subs[i], cutoff)
  }

  /** Exactly the due rows expire, and exactly their users become free. */
  function Sweep(db: Tables, cutoff: Instant): Tables {
    db.(subscriptions := SweepRows(db.subscriptions, cutoff),
        users := map u | u in db.users ::
          if LosesPeriod(db.subscriptions, u, cutoff) then db.users[u].(plan := Free) else db.users[u])
  }

  function AdminExpire(db: Tables, u: Id): Finished<Id> {
    if u !in db.users then Finished(db, Raised(NotFound))
    else
      var current := LatestActive(db.subscriptions, u);
      Finished(db.(subscriptions := if current.Some? then Expire(db.subscriptions, current.value) else db.subscriptions,
                   users := SetPlan(db.users, u, Free)),
               Returned(u))
  }

  // ---------- The terms, row by row ----------

  /** The latest period: an active row of the user that no other outlasts. */
  lemma LatestIs(subs: seq<Subscription>, u: Id, i: nat)
    requires i < |subs|
    ensures LatestActive(subs, u) == Some(i) <==>
            && subs[i].userId == u && subs[i].status == Active
            && forall j | 0 <= j < |subs| && subs[j].userId == u && subs[j].status == Active ::
              subs[j].expiresAt < subs[i].expiresAt || (subs[j].expiresAt == subs[i].expiresAt && j <= i)
  {
    hide LatestActive;
    var latest := LatestActive(subs, u);
    forall j | 0 <= j < |subs| ensures ActiveOf(subs[j], u) <==> subs[j].userId == u && subs[j].status == Active {
    }
    if latest.Some? {
      assert ActiveOf(subs[latest.value], u);
    }
  }

  /**
   An activation gives the plan for thirty days, from the end of the latest active period if that is of the same plan,
   and from now otherwise; a latest period of another plan ends, and no other row changes.
   */
  lemma ActivationTerms(db: Tables, u: Id, plan: Plan, now: Instant)
    ensures var r := ActivateSubscription(db, u, plan, now);
      && (plan == Free ==> r == Finished(db, Raised(InvalidPaidPlan)))
      && (plan != Free && u !in db.users ==> r == Finished(db, Raised(UserNotFound)))
      && (plan != Free && u in db.users ==>
            var n, latest := |db.subscriptions|, LatestActive(db.subscriptions, u);
            var renews := latest.Some? && db.subscriptions[latest.value].plan == plan;
            var start := if renews then db.subscriptions[latest.value].expiresAt else now;
            && r.outcome == Returned(n) && |r.db.subscriptions| == n + 1
            && r.db.subscriptions[n] == Subscription(u, plan, Active, start, start + 2_592_000_000_000)
            && r.db.users == db.users[u := db.users[u].(plan := plan)]
            && forall i | 0 <= i < n ::
              r.db.subscriptions[i] ==
              if latest == Some(i) && !renews then db.subscriptions[i].(status := Expired) else db.subscriptions[i])
  {
    hide LatestActive;
  }

  /** A sweep ends exactly the active rows that expired before the cutoff, and the plans of exactly their users. */
  lemma SweepTerms(db: Tables, cutoff: Instant)
    ensures var after := Sweep(db, cutoff);
      && |after.subscriptions| == |db.subscriptions| && after.users.Keys == db.users.Keys
      && (forall i | 0 <= i < |db.subscriptions| ::
            after.subscriptions[i] ==
            if db.subscriptions[i].status == Active && db.subscriptions[i].expiresAt < cutoff
            then db.subscriptions[i].(status := Expired) else db.subscriptions[i])
      && (forall u | u in db.users ::
            if exists i | 0 <= i < |db.subscriptions| ::
                db.subscriptions[i].userId == u && db.subscriptions[i] != after.subscriptions[i]
            then after.users[u] == db.users[u].(plan := Free)
            else after.users[u] == db.users[u])
  {
    var after := Sweep(db, cutoff);
    forall i | 0 <= i < |db.subscriptions|
      ensures Due(db.subscriptions[i], cutoff) <==> db.subscriptions[i] != after.subscriptions[i]
    {
    }
  }

  /** The administrator ends the latest active row of a user, if there is one, and takes the plan in any case. */
  lemma AdminExpireTerms(db: Tables, u: Id)
    ensures var r, latest := AdminExpire(db, u), LatestActive(db.subscriptions, u);
      && (u !in db.users ==> r == Finished(db, Raised(NotFound)))
      && (u in db.users ==>
            && r.outcome == Returned(u) && |r.db.subscriptions| == |db.subscriptions|
            && r.db.users == db.users[u := db.users[u].(plan := Free)]
            && forall i | 0 <= i < |db.subscriptions| ::
              r.db.subscriptions[i] ==
              if latest == Some(i) then db.subscriptions[i].(status := Expired) else db.subscriptions[i])
  {
    hide LatestActive;
  }

  // ---------- The service, step by step ----------

  method Activate(db: Database, u: Id, plan: Plan, now: Instant) returns (r: Outcome<Id, Error>)
    modifies db
    ensures Finished(db.Snapshot(), r) == ActivateSubscription(old(db.Snapshot()), u, plan, now)
  {
    if plan == Free {
      return Raised(InvalidPaidPlan);
    }
    if u !in db.users {
      return Raised(UserNotFound);
    }
    var activatedAt := now;
    var current := LatestActive(db.subscriptions, u);
    if current.Some? && db.subscriptions[current.value].plan == plan {
      activatedAt := db.subscriptions[current.value].expiresAt;
    } else if current.Some? {
      db.subscriptions := db.subscriptions[current.value := db.subscriptions[current.value].(status := Expired)];
    }
    var id := |db.subscriptions|;
    db.subscriptions := db.subscriptions + [Subscription(u, plan, Active, activatedAt, activatedAt + PAID_PERIOD)];
    db.users := db.users[u := db.users[u].(plan := plan)];
    return Returned(id);
  }

  /** `list_active_expired_before`. */
  method ListDue(db: Database, cutoff: Instant) returns (due: seq<Id>)
    ensures forall i | 0 <= i < |db.subscriptions| :: i in due <==> Due(db.subscriptions[i], cutoff)
    ensures forall i | i in due :: 0 <= i < |db.subscriptions|
  {
    due := [];
    for i := 0 to |db.subscriptions|
      invariant forall j | j in due :: 0 <= j < i
      invariant forall j | 0 <= j < i :: j in due <==> Due(db.subscriptions[j], cutoff)
    {
      if Due(db.subscriptions[i], cutoff) {
        due := due + [i];
      }
    }
  }

  /** The sweep after the rows of `done` have been handled. */
  ghost predicate SweptSoFar(before: Tables, subs: seq<Subscription>, users: map<Id, User>, done: seq<Id>) {
    && |subs| == |before.subscriptions|
    && (forall i | 0 <= i < |subs| ::
          subs[i] == if i in done then before.subscriptions[i].(status := Expired) else before.subscriptions[i])
    && users.Keys == before.users.Keys
    && (forall u | u in users ::
          users[u] == if exists i :: i in done && i < |subs| && before.subscriptions[i].userId == u
                      then before.users[u].(plan := Free) else before.users[u])
  }

  method ExpireSubscriptions(db: Database, cutoff: Instant) returns (expired: seq<Id>)
    modifies db
    ensures db.Snapshot() == Sweep(old(db.Snapshot()), cutoff)
    ensures forall i | 0 <= i < |old(db.subscriptions)| :: i in expired <==> Due(old(db.subscriptions)[i], cutoff)
  {
    ghost var before := db.Snapshot();
    expired := ListDue(db, cutoff);
    for k := 0 to |expired|
      invariant db.Snapshot() == before.(subscriptions := db.subscriptions, users := db.users)
      invariant SweptSoFar(before, db.subscriptions, db.users, expired[..k])
    {
      var i := expired[k];
      assert i in expired;
      ghost var subs, users := db.subscriptions, db.users;
      db.subscriptions := Expire(db.subscriptions, i);
      db.users := SetPlan(db.users, db.subscriptions[i].userId, Free);
      SweptOneMore(before, subs, users, expired[..k], i);
      assert expired[..k + 1] == expired[..k] + [i];
    }
    assert expired[..|expired|] == expired;
    assert db.users == Sweep(before, cutoff).users;
  }

  lemma SweptOneMore(before: Tables, subs: seq<Subscription>, users: map<Id, User>, done: seq<Id>, i: Id)
    requires SweptSoFar(before, subs, users, done) && i < |subs|
    ensures SweptSoFar(before, Expire(subs, i), SetPlan(users, subs[i].userId, Free), done + [i])
  {
    var users' := SetPlan(users, subs[i].userId, Free);
    forall u | u in users'
      ensures users'[u] == if exists j :: j in done + [i] && j < |subs| && before.subscriptions[j].userId == u
                           then before.users[u].(plan := Free) else before.users[u]
    {
      if u == subs[i].userId {
        assert i in done + [i];
      } else if exists j :: j in done && j < |subs| && before.subscriptions[j].userId == u {
        var j :| j in done && j < |subs| && before.subscriptions[j].userId == u;
        assert j in done + [i];
      }
    }
  }

  method ExpireByAdmin(db: Database, u: Id) returns (r: Outcome<Id, Error>)
    modifies db
    ensures Finished(db.Snapshot(), r) == AdminExpire(old(db.Snapshot()), u)
  {
    if u !in db.users {
      return Raised(NotFound);
    }
    var subscription := LatestActive(db.subscriptions, u);
    if subscription.Some? {
      db.subscriptions := db.subscriptions[subscription.value :=
          db.subscriptions[subscription.value].(status := Expired)];
    }
    db.users := db.users[u := db.users[u].(plan := Free)];
    return Returned(u);
  }

  // ---------- Sweeping twice ----------

  /** A late sweep makes an earlier one superfluous. */
  lemma SweepTwice(db: Tables, t1: Instant, t2: Instant)
    requires t1 <= t2
    ensures Sweep(Sweep(db, t1), t2) == Sweep(db, t2)
  {
    var once := Sweep(db, t1);
    forall u | u in db.users
      ensures Sweep(once, t2).users[u] == Sweep(db, t2).users[u]
    {
      if LosesPeriod(db.subscriptions, u, t1) {
        var i :| 0 <= i < |db.subscriptions| && db.subscriptions[i].userId == u && Due(db.subscriptions[i], t1);
        assert db.subscriptions[i].userId == u && Due(db.subscriptions[i], t2);
      } else if LosesPeriod(db.subscriptions, u, t2) {
        var i :| 0 <= i < |db.subscriptions| && db.subscriptions[i].userId == u && Due(db.subscriptions[i], t2);
        assert once.subscriptions[i].userId == u && Due(once.subscriptions[i], t2);
      }
    }
    assert Sweep(once, t2).subscriptions == Sweep(db, t2).subscriptions;
    assert Sweep(once, t2).users == Sweep(db, t2).users;
  }

  // ---------- Renewals ----------

  /** Successive activations of one plan. */
  function Renewals(db: Tables, u: Id, plan: Plan, nows: seq<Instant>): Tables {
    if nows == [] then db
    else ActivateSubscription(Renewals(db, u, plan, nows[..|nows| - 1]), u, plan, nows[|nows| - 1]).db
  }

  /** The `k`-th of several periods that tile the time from `start` on. */
  function Period(u: Id, plan: Plan, start: Instant, k: nat): Subscription {
    Subscription(u, plan, Active, start + k * PAID_PERIOD, start + (k + 1) * PAID_PERIOD)
  }

  function Periods(u: Id, plan: Plan, start: Instant, n: nat): (r: seq<Subscription>)
    ensures |r| == n && forall k | 0 <= k < n :: r[k] == Period(u, plan, start, k)
  {
    seq(n, k requires 0 <= k < n => Period(u, plan, start, k))
  }

  lemma PeriodsAppend(u: Id, plan: Plan, start: Instant, n: nat)
    ensures Periods(u, plan, start, n + 1) == Periods(u, plan, start, n) + [Period(u, plan, start, n)]
  {
  }

  lemma LatestAfterAppend(subs: seq<Subscription>, s: Subscription, u: Id)
    requires ActiveOf(s, u)
    requires var c := LatestActive(subs, u); c.Some? ==> subs[c.value].expiresAt <= s.expiresAt
    ensures LatestActive(subs + [s], u) == Some(|subs|)
  {
    assert (subs + [s])[..|subs|] == subs;
  }

  /** The row that an activation adds unless it changes the plan. */
  function NextRow(subs: seq<Subscription>, u: Id, plan: Plan, now: Instant): Subscription {
    var c := LatestActive(subs, u);
    var start := if c.Some? then subs[c.value].expiresAt else now;
    Subscription(u, plan, Active, start, start + PAID_PERIOD)
  }

  lemma ActivationRows(db: Tables, u: Id, plan: Plan, now: Instant)
    requires plan != Free && u in db.users
    requires var c := LatestActive(db.subscriptions, u); c.Some? ==> db.subscriptions[c.value].plan == plan
    ensures var after := ActivateSubscription(db, u, plan, now).db;
      && after.subscriptions == db.subscriptions + [NextRow(db.subscriptions, u, plan, now)]
      && u in after.users && after.users[u].plan == plan
  {
    hide PAID_PERIOD, LatestActive;
  }

  lemma NextRowIsLatest(subs: seq<Subscription>, u: Id, plan: Plan, now: Instant)
    ensures LatestActive(subs + [NextRow(subs, u, plan, now)], u) == Some(|subs|)
  {
    hide PAID_PERIOD, LatestActive;
    LatestAfterAppend(subs, NextRow(subs, u, plan, now), u);
  }

  /** One activation that is not a change of plan. */
  lemma ActivationAppends(db: Tables, u: Id, plan: Plan, now: Instant)
    requires plan != Free && u in db.users
    requires var c := LatestActive(db.subscriptions, u); c.Some? ==> db.subscriptions[c.value].plan == plan
    ensures var c := LatestActive(db.subscriptions, u);
      var start := if c.Some? then db.subscriptions[c.value].expiresAt else now;
      var after := ActivateSubscription(db, u, plan, now).db;
      && after.subscriptions == db.subscriptions + [Subscription(u, plan, Active, start, start + PAID_PERIOD)]
      && LatestActive(after.subscriptions, u) == Some(|db.subscriptions|)
      && u in after.users && after.users[u].plan == plan
  {
    hide PAID_PERIOD, LatestActive, ActivateSubscription;
    ActivationRows(db, u, plan, now);
    NextRowIsLatest(db.subscriptions, u, plan, now);
  }

  /**
   Renewing from no active row: the periods tile the time since the first activation, whenever the renewals
   happen, and the active lookup returns the last one.
   */
  lemma {:induction false} RenewalsTile(db: Tables, u: Id, plan: Plan, nows: seq<Instant>)
    requires nows != [] && plan != Free && u in db.users && LatestActive(db.subscriptions, u) == None
    ensures var after := Renewals(db, u, plan, nows);
      && after.subscriptions == db.subscriptions + Periods(u, plan, nows[0], |nows|)
      && LatestActive(after.subscriptions, u) == Some(|after.subscriptions| - 1)
      && u in after.users && after.users[u].plan == plan
  {
    hide LatestActive, ActivateSubscription, PAID_PERIOD, Periods;
    var n := |nows| - 1;
    var before := Renewals(db, u, plan, nows[..n]);
    if n > 0 {
      RenewalsTile(db, u, plan, nows[..n]);
      assert before.subscriptions[|before.subscriptions| - 1] == Period(u, plan, nows[0], n - 1);
    } else {
      assert before == db && Periods(u, plan, nows[0], 0) == [];
    }
    ActivationAppends(before, u, plan, nows[n]);
    NextPeriod(u, plan, nows[0], n);
    PeriodsAppend(u, plan, nows[0], n);
  }

  /** Without gap and without overlap. */
  lemma NextPeriod(u: Id, plan: Plan, start: Instant, k: nat)
    ensures k > 0 ==> Period(u, plan, start, k).startsAt == Period(u, plan, start, k - 1).expiresAt
    ensures Period(u, plan, start, k).expiresAt == Period(u, plan, start, k).startsAt + PAID_PERIOD
    ensures Period(u, plan, start, 0).startsAt == start
  {
  }

  // ---------- Keeping what was paid for ----------

  /** A user with an active period is on a paid plan. */
  ghost predicate Served(db: Tables, u: Id)
    requires u in db.users
  {
    (exists i | 0 <= i < |db.subscriptions| :: ActiveOf(db.subscriptions[i], u)) ==> db.users[u].plan != Free
  }

  ghost predicate StillPaid(subs: seq<Subscription>, u: Id, cutoff: Instant) {
    exists i | 0 <= i < |subs| :: ActiveOf(subs[i], u) && cutoff <= subs[i].expiresAt
  }

  /** The sweep takes a paid plan away exactly from users with one period ended and another still running. */
  lemma SweepServesIff(db: Tables, u: Id, cutoff: Instant)
    requires u in db.users && Served(db, u)
    ensures u in Sweep(db, cutoff).users
    ensures Served(Sweep(db, cutoff), u) <==>
            !(LosesPeriod(db.subscriptions, u, cutoff) && StillPaid(db.subscriptions, u, cutoff))
  {
    var after := Sweep(db, cutoff);
    if LosesPeriod(db.subscriptions, u, cutoff) && StillPaid(db.subscriptions, u, cutoff) {
      var i :| 0 <= i < |db.subscriptions| && ActiveOf(db.subscriptions[i], u)
          && cutoff <= db.subscriptions[i].expiresAt;
      assert ActiveOf(after.subscriptions[i], u);
    } else if exists i | 0 <= i < |after.subscriptions| :: ActiveOf(after.subscriptions[i], u) {
      var i :| 0 <= i < |after.subscriptions| && ActiveOf(after.subscriptions[i], u);
      assert ActiveOf(db.subscriptions[i], u);
    }
  }

  /** Another active row than the one that expires last. */
  ghost predicate HasSpare(subs: seq<Subscription>, u: Id) {
    exists i | 0 <= i < |subs| :: ActiveOf(subs[i], u) && LatestActive(subs, u) != Some(i)
  }

  /** The administrator ends one row only: a served user stays served exactly if there was no other. */
  lemma AdminExpireServesIff(db: Tables, u: Id)
    requires u in db.users
    ensures u in AdminExpire(db, u).db.users
    ensures Served(AdminExpire(db, u).db, u) <==> !HasSpare(db.subscriptions, u)
  {
    hide LatestActive;
    var after := AdminExpire(db, u).db;
    if HasSpare(db.subscriptions, u) {
      var i :| 0 <= i < |db.subscriptions| && ActiveOf(db.subscriptions[i], u)
               && LatestActive(db.subscriptions, u) != Some(i);
      assert ActiveOf(after.subscriptions[i], u);
    }
  }

  /** A regular user on a paid plan has an active row of that plan. */
  ghost predicate Backed(db: Tables, u: Id)
    requires u in db.users
  {
    db.users[u].role == Regular && db.users[u].plan != Free ==>
      exists i | 0 <= i < |db.subscriptions| ::
        ActiveOf(db.subscriptions[i], u) && db.subscriptions[i].plan == db.users[u].plan
  }

  lemma ActivationBacks(db: Tables, v: Id, plan: Plan, now: Instant, u: Id)
    requires u in db.users && Backed(db, u)
    ensures var after := ActivateSubscription(db, v, plan, now).db; u in after.users && Backed(after, u)
  {
    hide LatestActive, PAID_PERIOD;
    var after := ActivateSubscription(db, v, plan, now).db;
    if plan != Free && v in db.users {
      var n := |db.subscriptions|;
      assert ActiveOf(after.subscriptions[n], v) && after.subscriptions[n].plan == plan;
      if u != v && db.users[u].role == Regular && db.users[u].plan != Free {
        var i :| 0 <= i < n && ActiveOf(db.subscriptions[i], u) && db.subscriptions[i].plan == db.users[u].plan;
        assert ActiveOf(after.subscriptions[i], u);
      }
    }
  }

  lemma SweepBacks(db: Tables, cutoff: Instant, u: Id)
    requires u in db.users && Backed(db, u)
    ensures u in Sweep(db, cutoff).users && Backed(Sweep(db, cutoff), u)
  {
    var after := Sweep(db, cutoff);
    if db.users[u].role == Regular && after.users[u].plan != Free {
      var i :| 0 <= i < |db.subscriptions| && ActiveOf(db.subscriptions[i], u)
               && db.subscriptions[i].plan == db.users[u].plan;
      assert ActiveOf(after.subscriptions[i], u);
    }
  }

  lemma AdminExpireBacks(db: Tables, v: Id, u: Id)
    requires u in db.users && Backed(db, u)
    ensures u in AdminExpire(db, v).db.users && Backed(AdminExpire(db, v).db, u)
  {
    hide LatestActive;
    var after := AdminExpire(db, v).db;
    if u != v && db.users[u].role == Regular && db.users[u].plan != Free {
      var i :| 0 <= i < |db.subscriptions| && ActiveOf(db.subscriptions[i], u)
               && db.subscriptions[i].plan == db.users[u].plan;
      assert ActiveOf(after.subscriptions[i], u);
    }
  }

  /** Who pays is served, and nobody else's service changes. */
  lemma ActivationServesIff(db: Tables, v: Id, plan: Plan, now: Instant, u: Id)
    requires u in db.users
    ensures var after := ActivateSubscription(db, v, plan, now).db;
      u in after.users && (Served(after, u) <==> (u == v && plan != Free) || Served(db, u))
  {
    hide LatestActive, PAID_PERIOD;
    var after := ActivateSubscription(db, v, plan, now).db;
    if plan != Free && v in db.users && u != v {
      if exists i | 0 <= i < |db.subscriptions| :: ActiveOf(db.subscriptions[i], u) {
        var i :| 0 <= i < |db.subscriptions| && ActiveOf(db.subscriptions[i], u);
        assert ActiveOf(after.subscriptions[i], u);
      }
      if exists i | 0 <= i < |after.subscriptions| :: ActiveOf(after.subscriptions[i], u) {
        var i :| 0 <= i < |after.subscriptions| && ActiveOf(after.subscriptions[i], u);
        assert ActiveOf(db.subscriptions[i], u);
      }
    }
  }

  /** Somebody else's row ends. */
  lemma OtherAdminExpireServes(db: Tables, v: Id, u: Id)
    requires u in db.users && u != v
    ensures var after := AdminExpire(db, v).db; u in after.users && (Served(after, u) <==> Served(db, u))
  {
    hide LatestActive;
    var after := AdminExpire(db, v).db;
    forall i | 0 <= i < |db.subscriptions|
      ensures ActiveOf(after.subscriptions[i], u) == ActiveOf(db.subscriptions[i], u)
    {
    }
  }

  lemma RenewalsOfTwo(db: Tables, u: Id, plan: Plan, a: Instant, b: Instant)
    ensures Renewals(db, u, plan, [a, b]) ==
            ActivateSubscription(ActivateSubscription(db, u, plan, a).db, u, plan, b).db
  {
    hide ActivateSubscription;
    assert [a, b][..1] == [a] && [a][..0] == [];
    assert Renewals(db, u, plan, []) == db;
    assert Renewals(db, u, plan, [a]) == ActivateSubscription(db, u, plan, a).db;
  }

  lemma RenewedRows(db: Tables, u: Id, t: Instant)
    requires u in db.users && db.subscriptions == []
    ensures var renewed := Renewals(db, u, Standard, [t, t + 1]);
      && u in renewed.users && renewed.users[u].plan == Standard
      && renewed.subscriptions == [Subscription(u, Standard, Active, t, t + PAID_PERIOD),
                                   Subscription(u, Standard, Active, t + PAID_PERIOD, t + PAID_PERIOD + PAID_PERIOD)]
      && LatestActive(renewed.subscriptions, u) == Some(1)
  {
    hide LatestActive, Renewals, PAID_PERIOD;
    RenewalsTile(db, u, Standard, [t, t + 1]);
    NextPeriod(u, Standard, t, 1);
    assert db.subscriptions + Periods(u, Standard, t, 2) == [Period(u, Standard, t, 0), Period(u, Standard, t, 1)];
  }

  /** A renewed user is swept to the free plan when the first period ends, a month before the second does. */
  lemma RenewalIsLost(db: Tables, u: Id, t: Instant)
    requires u in db.users && db.subscriptions == []
    ensures var renewed := Renewals(db, u, Standard, [t, t + 1]);
      var cutoff := t + PAID_PERIOD + 1;
      && u in renewed.users && Served(renewed, u)
      && u in Sweep(renewed, cutoff).users && !Served(Sweep(renewed, cutoff), u)
  {
    hide LatestActive, Renewals, Sweep;
    RenewedRows(db, u, t);
    var renewed := Renewals(db, u, Standard, [t, t + 1]);
    var cutoff := t + PAID_PERIOD + 1;
    assert renewed.subscriptions[0].userId == u && Due(renewed.subscriptions[0], cutoff);
    assert ActiveOf(renewed.subscriptions[1], u) && cutoff <= renewed.subscriptions[1].expiresAt;
    SweepServesIff(renewed, u, cutoff);
  }

  lemma PlanChangeRows(db: Tables, u: Id, plan: Plan, now: Instant)
    requires plan != Free && u in db.users
    requires var c := LatestActive(db.subscriptions, u); c.Some? && db.subscriptions[c.value].plan != plan
    ensures var after := ActivateSubscription(db, u, plan, now).db;
      && after.subscriptions == Expire(db.subscriptions, LatestActive(db.subscriptions, u).value)
                                + [Subscription(u, plan, Active, now, now + PAID_PERIOD)]
      && u in after.users && after.users[u].plan == plan
  {
    hide PAID_PERIOD, LatestActive;
  }

  lemma SweepFrees(db: Tables, u: Id, cutoff: Instant, i: nat)
    requires u in db.users
    requires i < |db.subscriptions| && db.subscriptions[i].userId == u && Due(db.subscriptions[i], cutoff)
    ensures u in Sweep(db, cutoff).users && Sweep(db, cutoff).users[u].plan == Free
  {
    assert LosesPeriod(db.subscriptions, u, cutoff);
  }

  lemma UpgradedRows(db: Tables, u: Id, t: Instant)
    requires u in db.users && db.subscriptions == []
    ensures var upgraded := ActivateSubscription(Renewals(db, u, Standard, [t, t + 1]), u, Pro, t + 2).db;
      && u in upgraded.users && upgraded.users[u].plan == Pro
      && |upgraded.subscriptions| == 3
      && upgraded.subscriptions[0] == Subscription(u, Standard, Active, t, t + PAID_PERIOD)
      && upgraded.subscriptions[2] == Subscription(u, Pro, Active, t + 2, t + 2 + PAID_PERIOD)
  {
    hide LatestActive, Renewals, PAID_PERIOD, ActivateSubscription;
    RenewedRows(db, u, t);
    PlanChangeRows(Renewals(db, u, Standard, [t, t + 1]), u, Pro, t + 2);
  }

  /** A change of plan ends only the latest period; the earlier one still takes the new plan down with it. */
  lemma PlanChangeIsLost(db: Tables, u: Id, t: Instant)
    requires u in db.users && db.subscriptions == []
    ensures var upgraded := ActivateSubscription(Renewals(db, u, Standard, [t, t + 1]), u, Pro, t + 2).db;
      var cutoff := t + PAID_PERIOD + 1;
      && u in upgraded.users && upgraded.users[u].plan == Pro
      && StillPaid(upgraded.subscriptions, u, cutoff)
      && Sweep(upgraded, cutoff).users[u].plan == Free
  {
    hide LatestActive, Renewals, PAID_PERIOD, ActivateSubscription, Sweep;
    UpgradedRows(db, u, t);
    var upgraded := ActivateSubscription(Renewals(db, u, Standard, [t, t + 1]), u, Pro, t + 2).db;
    var cutoff := t + PAID_PERIOD + 1;
    SweepFrees(upgraded, u, cutoff, 0);
    assert ActiveOf(upgraded.subscriptions[2], u) && cutoff <= upgraded.subscriptions[2].expiresAt;
  }
}
