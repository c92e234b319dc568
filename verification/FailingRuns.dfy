/** Runs in which the documentation's promises fail, for all inputs that the steps accept. */
module FailingRuns {
  import opened Wrappers
  import opened Text
  import opened Schema
  import opened QuotaWindow
  import opened Quota
  import opened Ledger
  import opened Payments
  import opened PromoCodes
  import opened Subscriptions
  import opened VacancyCache
  import opened Generation
  import opened GenerationProofs
  import opened System
  import opened IntentRuns
  import opened GenerationRuns
  import opened QuotaRuns
  import opened CacheRuns
  import opened EnqueueRuns
  import opened Progress
  import UrlScanner

  // ---------- Two enqueues that overlap ----------

  /** Two pushes, then both commits; `key` is the next one. */
  function Overlap(u: Id, url: string, other: string, tone: Tone, now: Instant, cost: int, key: Id): seq<Step> {
    [BeginEnqueue(u, url, tone, now, cost), BeginEnqueue(u, other, tone, now, cost), CommitEnqueue(key),
     CommitEnqueue(key + 1)]
  }

  lemma RunFour(cfg: Settings, steps: seq<Step>, a: Step, b: Step, c: Step, d: Step)
    ensures Run(cfg, steps + [a, b, c, d]) ==
            Apply(cfg, Apply(cfg, Apply(cfg, Apply(cfg, Run(cfg, steps), a), b), c), d)
  {
    hide Apply, Run;
    RunThen(cfg, steps, a);
    RunThen(cfg, steps + [a], b);
    RunThen(cfg, steps + [a] + [b], c);
    RunThen(cfg, steps + [a] + [b] + [c], d);
    assert steps + [a] + [b] + [c] + [d] == steps + [a, b, c, d];
  }

  lemma RunOverlap(cfg: Settings, steps: seq<Step>, u: Id, url: string, other: string, tone: Tone, now: Instant,
                   cost: int)
    ensures var s := Run(cfg, steps);
      var open := Begin(Begin(s, u, url, tone, now, cost), u, other, tone, now, cost);
      Run(cfg, steps + Overlap(u, url, other, tone, now, cost, s.db.nextId)) ==
      Commit(Commit(open, s.db.nextId), s.db.nextId + 1)
  {
    hide Run, Begin, Commit, Apply;
    var key := Run(cfg, steps).db.nextId;
    var s := Run(cfg, steps);
    var first := Begin(s, u, url, tone, now, cost);
    var open := Begin(first, u, other, tone, now, cost);
    ApplyBegin(cfg, s, BeginEnqueue(u, url, tone, now, cost));
    ApplyBegin(cfg, first, BeginEnqueue(u, other, tone, now, cost));
    ApplyCommit(cfg, open, key);
    ApplyCommit(cfg, Commit(open, key), key + 1);
    RunFour(cfg, steps, BeginEnqueue(u, url, tone, now, cost), BeginEnqueue(u, other, tone, now, cost),
            CommitEnqueue(key), CommitEnqueue(key + 1));
  }

  /** The state with both transactions open. */
  ghost predicate BothOpen(s: State, open: State, u: Id, h: nat, other: nat, now: Instant) {
    var a, b := s.db.nextId, s.db.nextId + 1;
    && a in open.inflight && b in open.inflight
    && open.db.vacancies == s.db.vacancies && open.db.users == s.db.users
    && OpenFor(open.inflight[a], s.db, u, h, now) && OpenFor(open.inflight[b], s.db, u, other, now)
  }

  ghost predicate OpenFor(r: Reservation, db: Tables, u: Id, h: nat, now: Instant) {
    && r.request.status == GenerationPending && r.request.userId == u && r.request.createdAt == now
    && r.placeholder == if VacancyId(db.vacancies, h).Some? then None else Some(h)
  }

  lemma ReservedOpen(db: Tables, u: Id, url: string, tone: Tone, now: Instant, cost: int)
    requires Reserve(db, u, url, tone, now, cost).Returned?
    ensures UrlScanner.ParseVacancyId(url).Returned?
    ensures OpenFor(Reserve(db, u, url, tone, now, cost).value, db, u, UrlScanner.ParseVacancyId(url).value, now)
  {
    hide Reserve, UrlScanner.ParseVacancyId, VacancyId;
    ReservedPlaceholder(db, u, url, tone, now, cost);
    ReservedRequest(db, u, url, tone, now, cost);
  }

  lemma BothAdmitted(s: State, u: Id, url: string, other: string, tone: Tone, now: Instant, cost: int)
    requires Reserve(s.db, u, url, tone, now, cost).Returned?
    requires Reserve(s.db, u, other, tone, now, cost).Returned?
    ensures UrlScanner.ParseVacancyId(url).Returned? && UrlScanner.ParseVacancyId(other).Returned?
    ensures BothOpen(s, Begin(Begin(s, u, url, tone, now, cost), u, other, tone, now, cost), u,
                     UrlScanner.ParseVacancyId(url).value, UrlScanner.ParseVacancyId(other).value, now)
  {
    hide Reserve, UrlScanner.ParseVacancyId, VacancyId, OpenFor;
    ReservedOpen(s.db, u, url, tone, now, cost);
    var first := Begin(s, u, url, tone, now, cost);
    SameCheck(s.db, s.db.nextId + 1, u, other, tone, now, cost);
    ReservedOpen(first.db, u, other, tone, now, cost);
    SameLookup(Reserve(first.db, u, other, tone, now, cost).value, s.db, s.db.nextId + 1, u,
               UrlScanner.ParseVacancyId(other).value, now);
  }

  lemma SameLookup(r: Reservation, db: Tables, nextId: Id, u: Id, h: nat, now: Instant)
    ensures OpenFor(r, db.(nextId := nextId), u, h, now) == OpenFor(r, db, u, h, now)
  {
  }

  /** The first commit inserts at most the vacancy it wants. */
  lemma CommitInsertsVacancy(s: State, id: Id, h: nat)
    requires id in s.inflight && VacancyId(s.db.vacancies, h).None?
    requires s.inflight[id].placeholder.Some? ==> s.inflight[id].placeholder.value != h
    ensures VacancyId(Commit(s, id).db.vacancies, h).None?
    ensures Commit(s, id).db.users == s.db.users
  {
    hide PlaceholderFits;
  }

  lemma BothCommit(s: State, open: State, u: Id, h: nat, other: nat, now: Instant)
    requires CacheKept(open) && KeysInOrder(open) && LettersMatch(open.db)
    requires BothOpen(s, open, u, h, other, now) && (h != other || VacancyId(s.db.vacancies, h).Some?)
    ensures var a, b := s.db.nextId, s.db.nextId + 1;
      var after := Commit(Commit(open, a), b).db;
      !WithinQuota(after.requests, u, Free) && after.users == s.db.users
  {
    hide CacheKept, KeysInOrder, LettersMatch, Commit, VacancyId, WithinQuota;
    var a, b := s.db.nextId, s.db.nextId + 1;
    AcceptedIff(open, a);
    AcceptedIff(open, b);
    CommitKeepsReservations(open, a);
    CommitKeepsSnapshots(open, a);
    InsertedRequest(open, a);
    if VacancyId(s.db.vacancies, other).None? {
      CommitInsertsVacancy(open, a, other);
    }
    AcceptedIff(Commit(open, a), b);
    SecondCommitExceeds(open, a, b, u, now);
    CommitFrame(open, a);
    CommitFrame(Commit(open, a), b);
  }

  /**
   The documentation promises that parallel requests cannot get round the limit. The code takes no lock: after any run
   with honest answers, two overlapping enqueues of a free user that would each be admitted alone are both admitted,
   both commit, and exceed the limit; unless they want to insert the same vacancy.
   */
  lemma ParallelEnqueuesExceedQuota(cfg: Settings, steps: seq<Step>, u: Id, url: string, other: string, tone: Tone,
                                    now: Instant, cost: int)
    requires Along(cfg, steps, HonestAnswers)
    requires var db := Run(cfg, steps).db;
      && u in db.users && db.users[u].plan == Free
      && Reserve(db, u, url, tone, now, cost).Returned? && Reserve(db, u, other, tone, now, cost).Returned?
    requires var a, b := UrlScanner.ParseVacancyId(url), UrlScanner.ParseVacancyId(other);
      a == b && a.Returned? ==> VacancyId(Run(cfg, steps).db.vacancies, a.value).Some?
    ensures var after := Run(cfg, steps + Overlap(u, url, other, tone, now, cost, Run(cfg, steps).db.nextId)).db;
      u in after.users && after.users[u].plan == Free && !WithinQuota(after.requests, u, Free)
  {
    hide Run, Reserve, Begin, Commit, CacheKept, KeysInOrder, LettersMatch, HonestAnswers, WithinQuota, VacancyId,
      UrlScanner.ParseVacancyId, BothOpen;
    var s := Run(cfg, steps);
    RunOverlap(cfg, steps, u, url, other, tone, now, cost);
    CacheKeptInEveryRun(cfg, steps);
    SnapshotsInEveryRun(cfg, steps);
    BothAdmitted(s, u, url, other, tone, now, cost);
    var first := Begin(s, u, url, tone, now, cost);
    var open := Begin(first, u, other, tone, now, cost);
    BeginKeepsAll(s, u, url, tone, now, cost);
    BeginKeepsAll(first, u, other, tone, now, cost);
    BothCommit(s, open, u, UrlScanner.ParseVacancyId(url).value, UrlScanner.ParseVacancyId(other).value, now);
  }

  // ---------- A first user ----------

  /** What is left after a first user has arrived through Telegram and saved a profile. */
  function FirstUser(cfg: Settings, telegramId: int, text: string): State {
    START.(db := EMPTY.(
      users := map[1 := NewUser(Telegram(telegramId), Regular, Free, cfg.bonus)],
      profiles := map[1 := Profile(2, text)],
      transactions := [Transaction(1, WelcomeBonus, cfg.bonus, cfg.bonus, None, None, None)],
      nextId := 3))
  }

  function Arrive(telegramId: int, text: string): seq<Step> {
    [StartTelegram(telegramId), SaveProfile(1, text)]
  }

  lemma Starts(cfg: Settings, telegramId: int)
    requires cfg.bonus > 0
    ensures Apply(cfg, START, StartTelegram(telegramId)) ==
            START.(db := EMPTY.(
              users := map[1 := NewUser(Telegram(telegramId), Regular, Free, cfg.bonus)],
              transactions := [Transaction(1, WelcomeBonus, cfg.bonus, cfg.bonus, None, None, None)],
              nextId := 2))
  {
    var user := NewUser(Telegram(telegramId), Regular, Free, 0);
    assert EMPTY.users[1 := user][1 := user.(credits := cfg.bonus)] == map[1 := user.(credits := cfg.bonus)];
    assert EMPTY.transactions + [Transaction(1, WelcomeBonus, cfg.bonus, cfg.bonus, None, None, None)] ==
           [Transaction(1, WelcomeBonus, cfg.bonus, cfg.bonus, None, None, None)];
  }

  lemma RunOfOne(cfg: Settings, step: Step)
    ensures Run(cfg, [step]) == Apply(cfg, START, step)
  {
    hide Apply;
    RunThen(cfg, [], step);
    assert [] + [step] == [step];
  }

  lemma Arrived(cfg: Settings, telegramId: int, text: string)
    requires cfg.bonus > 0
    ensures Run(cfg, Arrive(telegramId, text)) == FirstUser(cfg, telegramId, text)
    ensures Along(cfg, Arrive(telegramId, text), HonestAnswers)
  {
    hide Run, Register;
    var first, second := StartTelegram(telegramId), SaveProfile(1, text);
    Starts(cfg, telegramId);
    RunOfOne(cfg, first);
    RunThen(cfg, [first], second);
    assert [first] + [second] == Arrive(telegramId, text);
    NoDeliveries(cfg, Arrive(telegramId, text));
  }

  /** Without deliveries hh.ru is not asked. */
  lemma {:induction false} NoDeliveries(cfg: Settings, steps: seq<Step>)
    requires forall i | 0 <= i < |steps| :: !steps[i].DeliverJob?
    ensures Along(cfg, steps, HonestAnswers)
  {
    hide Run;
    if steps != [] {
      NoDeliveries(cfg, steps[..|steps| - 1]);
    }
  }

  /** The first request of a first user is admitted. */
  lemma FirstIsAdmitted(cfg: Settings, telegramId: int, text: string, url: string, now: Instant, cost: int)
    requires cfg.bonus >= cost && UrlScanner.ParseVacancyId(url).Returned?
    ensures Reserve(FirstUser(cfg, telegramId, text).db, 1, url, Formal, now, cost).Returned?
  {
    hide UrlScanner.ParseVacancyId, PeriodStart, VacancyId;
    var db := FirstUser(cfg, telegramId, text).db;
    assert CountedSince(db.requests, 1, PeriodStart(Free, now)) == {};
  }

  /** So a free user can go over the limit: arrive, and enqueue two vacancies at once. */
  lemma OverQuotaRun(cfg: Settings, telegramId: int, text: string, a: nat, b: nat, now: Instant, cost: int)
    requires cfg.bonus > 0 && cfg.bonus >= cost && a != b
    ensures var steps :=
        Arrive(telegramId, text) + Overlap(1, UrlScanner.Link(a), UrlScanner.Link(b), Formal, now, cost, 3);
      var after := Run(cfg, steps).db;
      1 in after.users && after.users[1].plan == Free && !WithinQuota(after.requests, 1, Free)
  {
    hide Run, Reserve, WithinQuota, UrlScanner.ParseVacancyId, HonestAnswers, UrlScanner.Link;
    UrlScanner.LinkParses(a);
    UrlScanner.LinkParses(b);
    var url, other := UrlScanner.Link(a), UrlScanner.Link(b);
    Arrived(cfg, telegramId, text);
    FirstIsAdmitted(cfg, telegramId, text, url, now, cost);
    FirstIsAdmitted(cfg, telegramId, text, other, now, cost);
    ParallelEnqueuesExceedQuota(cfg, Arrive(telegramId, text), 1, url, other, Formal, now, cost);
  }

  // ---------- A job that is delivered twice ----------

  function Enqueued(telegramId: int, text: string, url: string, now: Instant, cost: int): seq<Step> {
    Arrive(telegramId, text) + [BeginEnqueue(1, url, Formal, now, cost), CommitEnqueue(3)]
  }

  lemma RunEnqueued(cfg: Settings, telegramId: int, text: string, url: string, now: Instant, cost: int)
    requires cfg.bonus > 0
    ensures Run(cfg, Enqueued(telegramId, text, url, now, cost)) ==
            Commit(Begin(FirstUser(cfg, telegramId, text), 1, url, Formal, now, cost), 3)
  {
    hide Run, Begin, Commit, Apply, FirstUser;
    var steps, begin := Arrive(telegramId, text), BeginEnqueue(1, url, Formal, now, cost);
    Arrived(cfg, telegramId, text);
    RunThen(cfg, steps, begin);
    RunThen(cfg, steps + [begin], CommitEnqueue(3));
    assert steps + [begin] + [CommitEnqueue(3)] == Enqueued(telegramId, text, url, now, cost);
    ApplyBegin(cfg, FirstUser(cfg, telegramId, text), begin);
    ApplyCommit(cfg, Begin(FirstUser(cfg, telegramId, text), 1, url, Formal, now, cost), 3);
  }

  lemma EnqueuedIsReady(cfg: Settings, telegramId: int, text: string, url: string, now: Instant, cost: int)
    requires cfg.bonus > 0 && cfg.bonus >= cost && UrlScanner.ParseVacancyId(url).Returned?
    ensures var after := Run(cfg, Enqueued(telegramId, text, url, now, cost)).db;
      && Ready(after, 3, 1, cost) && after.users[1].credits == cfg.bonus && after.letters == []
      && after.requests.Keys == {3} && Counted(after.requests[3], now) && after.requests[3].status == GenerationPending
    ensures Run(cfg, Enqueued(telegramId, text, url, now, cost)).log == []
  {
    hide Run, Reserve, Begin, Commit, CacheKept, KeysInOrder, UrlScanner.ParseVacancyId, HonestAnswers, LettersMatch;
    RunEnqueued(cfg, telegramId, text, url, now, cost);
    FirstIsAdmitted(cfg, telegramId, text, url, now, cost);
    Arrived(cfg, telegramId, text);
    CacheKeptInEveryRun(cfg, Arrive(telegramId, text));
    SnapshotsInEveryRun(cfg, Arrive(telegramId, text));
    SerialCommit(FirstUser(cfg, telegramId, text), 1, url, Formal, now, cost);
  }

  /** A request of user 1 that counts. */
  predicate Counted(request: Request, now: Instant) {
    request.userId == 1 && request.status in {GenerationPending, GenerationSucceeded} && request.createdAt == now
  }

  /** The run up to the delivery of the job of the first request. */
  lemma DeliveredOnce(cfg: Settings, telegramId: int, text: string, url: string, now: Instant, cost: int, w: World)
    requires cost > 0 && cfg.bonus >= 2 * cost && Cooperative(w) && UrlScanner.ParseVacancyId(url).Returned?
    ensures var after := Run(cfg, Enqueued(telegramId, text, url, now, cost) + [DeliverJob(0, w)]).db;
      && Ready(after, 3, 1, cost) && after.users[1].credits == cfg.bonus - cost
      && |after.letters| == 1 && after.letters[0].requestId == 3
  {
    hide Run, Reserve, DeliverTo, UrlScanner.ParseVacancyId, Cooperative;
    var steps := Enqueued(telegramId, text, url, now, cost);
    Arrived(cfg, telegramId, text);
    FirstIsAdmitted(cfg, telegramId, text, url, now, cost);
    EnqueuedIsReady(cfg, telegramId, text, url, now, cost);
    assert steps[..2] == Arrive(telegramId, text);
    AcceptedRequestGetsItsLetter(cfg, steps, 2, w);
    RunThen(cfg, steps, DeliverJob(0, w));
    DeliveryIsApplied(cfg, Run(cfg, steps), 0, w);
  }

  lemma DeliveryIsApplied(cfg: Settings, s: State, k: nat, w: World)
    ensures Apply(cfg, s, DeliverJob(k, w)) == DeliverTo(s, k, w)
  {
    hide DeliverTo;
  }

  lemma DeliveredTwice(cfg: Settings, telegramId: int, text: string, url: string, now: Instant, cost: int, w: World,
                       w': World)
    requires cost > 0 && cfg.bonus >= 2 * cost && Cooperative(w) && Cooperative(w')
    requires UrlScanner.ParseVacancyId(url).Returned?
    ensures var letters :=
        Run(cfg, Enqueued(telegramId, text, url, now, cost) + [DeliverJob(0, w)] + [DeliverJob(0, w')]).db.letters;
      |letters| == 2 && letters[0].requestId == 3 && letters[1].requestId == 3
  {
    hide Run, Reserve, DeliverTo, UrlScanner.ParseVacancyId, Cooperative, Apply;
    var again := Enqueued(telegramId, text, url, now, cost) + [DeliverJob(0, w)];
    Arrived(cfg, telegramId, text);
    FirstIsAdmitted(cfg, telegramId, text, url, now, cost);
    DeliveredOnce(cfg, telegramId, text, url, now, cost, w);
    assert again[..2] == Arrive(telegramId, text);
    AcceptedRequestGetsItsLetter(cfg, again, 2, w');
    RunThen(cfg, again, DeliverJob(0, w'));
    DeliveryIsApplied(cfg, Run(cfg, again), 0, w');
    var before, after := Run(cfg, again).db.letters, Run(cfg, again + [DeliverJob(0, w')]).db.letters;
    assert after[..|before|] == before;
    assert after[0] == before[0];
  }

  lemma OneJob(cfg: Settings, telegramId: int, text: string, url: string, now: Instant, cost: int, w: World, w': World)
    requires cfg.bonus > 0
    requires Reserve(FirstUser(cfg, telegramId, text).db, 1, url, Formal, now, cost).Returned?
    ensures var jobs :=
        Run(cfg, Enqueued(telegramId, text, url, now, cost) + [DeliverJob(0, w)] + [DeliverJob(0, w')]).jobs;
      |jobs| == 1 && jobs[0].cost == cost && jobs[0].userId == 1
  {
    hide Run, DeliverTo, Commit;
    var steps := Enqueued(telegramId, text, url, now, cost);
    Arrived(cfg, telegramId, text);
    RunEnqueued(cfg, telegramId, text, url, now, cost);
    Reserved(FirstUser(cfg, telegramId, text).db, 1, url, Formal, now, cost);
    CommitFrame(Begin(FirstUser(cfg, telegramId, text), 1, url, Formal, now, cost), 3);
    DeliverTwice(cfg, steps, w, w');
  }

  lemma DeliverTwice(cfg: Settings, steps: seq<Step>, w: World, w': World)
    ensures Run(cfg, steps + [DeliverJob(0, w)] + [DeliverJob(0, w')]).jobs == Run(cfg, steps).jobs
  {
    hide Run, DeliverTo;
    RunThen(cfg, steps, DeliverJob(0, w));
    RunThen(cfg, steps + [DeliverJob(0, w)], DeliverJob(0, w'));
    DeliveryKeepsInflight(Run(cfg, steps), 0, w);
    DeliveryKeepsInflight(Run(cfg, steps + [DeliverJob(0, w)]), 0, w');
  }

  /**
   A job that arrives twice writes two letters for its request and charges for both: arrive, enqueue, commit, and
   deliver the job two times.
   */
  lemma SecondLetterRun(cfg: Settings, telegramId: int, text: string, a: nat, now: Instant, cost: int, w: World,
                        w': World)
    requires cost > 0 && cfg.bonus >= 2 * cost && Cooperative(w) && Cooperative(w')
    ensures var url := UrlScanner.Link(a);
      var steps := Enqueued(telegramId, text, url, now, cost) + [DeliverJob(0, w)] + [DeliverJob(0, w')];
      var after := Run(cfg, steps).db;
      LettersOf(after.letters, 3) == 2 && Charges(after.transactions) == [Charge(1, 3, -cost), Charge(1, 3, -cost)]
  {
    hide Run, Enqueued, UrlScanner.ParseVacancyId, Cooperative, UrlScanner.Link, Charges, Owed, Reserve;
    var url := UrlScanner.Link(a);
    UrlScanner.LinkParses(a);
    var steps := Enqueued(telegramId, text, url, now, cost) + [DeliverJob(0, w)] + [DeliverJob(0, w')];
    DeliveredTwice(cfg, telegramId, text, url, now, cost, w, w');
    TwoLetters(Run(cfg, steps).db.letters, 3);
    EveryLetterIsPaid(cfg, steps);
    FirstIsAdmitted(cfg, telegramId, text, url, now, cost);
    OneJob(cfg, telegramId, text, url, now, cost, w, w');
    TwoCharges(Run(cfg, steps).db.letters, Costs(Run(cfg, steps)), 3, cost);
  }

  lemma TwoCharges(letters: seq<Letter>, costs: seq<int>, id: Id, cost: int)
    requires |letters| == |costs| == 2 && cost > 0 && costs[0] == cost && costs[1] == cost
    requires forall i | 0 <= i < 2 :: letters[i].userId == 1 && letters[i].requestId == id
    ensures Owed(letters, costs) == [Charge(1, id, -cost), Charge(1, id, -cost)]
  {
    hide Owed;
    NoCharges();
    OwedAppend([], [], letters[0], cost);
    OwedAppend([letters[0]], [cost], letters[1], cost);
    assert [] + [letters[0]] == [letters[0]] && [] + [cost] == [cost];
    assert letters == [letters[0]] + [letters[1]] && costs == [cost] + [cost];
  }

  lemma NoCharges()
    ensures Owed([], []) == []
  {
  }

  lemma TwoLetters(letters: seq<Letter>, id: Id)
    requires |letters| == 2 && letters[0].requestId == id && letters[1].requestId == id
    ensures LettersOf(letters, id) == 2
  {
    assert letters[..1][..0] == [];
    assert LettersOf(letters[..1], id) == 1;
  }

  // ---------- A failed job that is delivered again ----------

  /** hh.ru does not answer at all. */
  ghost predicate HhDown(w: World) {
    !w.crash && w.hh == Answers(Unavailable, Unavailable)
  }

  /** Nothing is cached while hh.ru has said nothing. */
  lemma NoHitWithoutAnswers(s: State, hhId: int, now: Instant)
    requires CacheKept(s) && s.log == []
    ensures Hit(s.db, hhId, now).None?
  {
    hide VacancyId, TablesValid;
    var id := VacancyId(s.db.vacancies, hhId);
    if id.Some? {
      assert VacancyTrue(s.db, s.db.vacancies[id.value], s.log);
    }
  }

  function FailedFirst(telegramId: int, text: string, url: string, now: Instant, cost: int, w: World): seq<Step> {
    Enqueued(telegramId, text, url, now, cost) + [DeliverJob(0, w)]
  }

  lemma DownIsHonest(cfg: Settings, telegramId: int, text: string, url: string, now: Instant, cost: int, w: World)
    requires HhDown(w)
    ensures Along(cfg, Enqueued(telegramId, text, url, now, cost), HonestAnswers)
    ensures Along(cfg, FailedFirst(telegramId, text, url, now, cost, w), HonestAnswers)
  {
    hide Run, UrlScanner.ParseVacancyId;
    var steps := Enqueued(telegramId, text, url, now, cost);
    NoDeliveries(cfg, steps);
    assert FailedFirst(telegramId, text, url, now, cost, w)[..|steps|] == steps;
  }

  /** The job of the first request, before it is delivered. */
  lemma FirstJob(cfg: Settings, telegramId: int, text: string, url: string, now: Instant, cost: int, at: Instant)
    requires cfg.bonus > 0 && cfg.bonus >= cost && UrlScanner.ParseVacancyId(url).Returned?
    ensures var s := Run(cfg, Enqueued(telegramId, text, url, now, cost));
      && 0 < |s.jobs| && s.jobs[0].requestId == Some(3) && s.jobs[0].url == url
      && Admit(s.db, s.jobs[0], at).Returned?
      && CacheKept(s) && s.log == []
  {
    hide Run, Reserve, UrlScanner.ParseVacancyId, HonestAnswers, Admit, CacheKept;
    var steps := Enqueued(telegramId, text, url, now, cost);
    Arrived(cfg, telegramId, text);
    FirstIsAdmitted(cfg, telegramId, text, url, now, cost);
    EnqueuedIsReady(cfg, telegramId, text, url, now, cost);
    assert steps[..2] == Arrive(telegramId, text);
    JobOfAccepted(cfg, steps, 2);
    AcceptedIsPinned(cfg, steps, 2);
    ProfilesAndJobsStay(cfg, steps, 2);
    NoDeliveries(cfg, steps);
    CacheKeptInEveryRun(cfg, steps);
    Reserved(FirstUser(cfg, telegramId, text).db, 1, url, Formal, now, cost);
    JobAdmitted(Run(cfg, steps).db, Run(cfg, steps).jobs[0], at);
  }

  lemma FirstFails(cfg: Settings, telegramId: int, text: string, url: string, now: Instant, cost: int, w: World)
    requires cfg.bonus > 0 && cfg.bonus >= cost && UrlScanner.ParseVacancyId(url).Returned? && HhDown(w)
    ensures var before := Run(cfg, Enqueued(telegramId, text, url, now, cost));
      var after := Run(cfg, FailedFirst(telegramId, text, url, now, cost, w));
      && MarkedFailedAt(before.db, after.db, 3)
  {
    hide Run, Reserve, UrlScanner.ParseVacancyId, RunJob, Admit, Heard, CacheKept, HhFails, Succeeds, Enqueued;
    var steps := Enqueued(telegramId, text, url, now, cost);
    FirstJob(cfg, telegramId, text, url, now, cost, w.now);
    var s := Run(cfg, steps);
    DownFails(s, s.jobs[0], w);
    RunLeaves(s.db, s.jobs[0], w);
    RunThen(cfg, steps, DeliverJob(0, w));
    DeliveryIsApplied(cfg, s, 0, w);
  }

  ghost predicate MarkedFailedAt(before: Tables, after: Tables, id: Id) {
    && id in before.requests
    && after == before.(requests := before.requests[id := before.requests[id].(status := GenerationFailed)],
                        nextId := after.nextId)
  }

  lemma DownFails(s: State, job: Job, w: World)
    requires CacheKept(s) && s.log == [] && HhDown(w) && UrlScanner.ParseVacancyId(job.url).Returned?
    requires Admit(s.db, job, w.now).Returned?
    ensures HhFails(s.db, job, w)
  {
    hide UrlScanner.ParseVacancyId, Admit, CacheKept, Hit;
    NoHitWithoutAnswers(s, UrlScanner.ParseVacancyId(job.url).value, w.now);
  }

  /** With only failed requests, a first user may enqueue again. */
  lemma AgainAdmitted(db: Tables, url: string, now: Instant, cost: int)
    requires 1 in db.users && 1 in db.profiles && db.users[1].credits >= cost && db.users[1].plan == Free
    requires db.requests.Keys == {3} && db.requests[3].status == GenerationFailed
    requires UrlScanner.ParseVacancyId(url).Returned?
    ensures Reserve(db, 1, url, Formal, now, cost).Returned?
  {
    hide UrlScanner.ParseVacancyId, PeriodStart, VacancyId;
    assert CountedSince(db.requests, 1, PeriodStart(Free, now)) == {};
  }

  /** Then the second request is committed under the key `id`. */
  function EnqueuedAgain(telegramId: int, text: string, url: string, other: string, now: Instant, cost: int, w: World,
                         id: Id)
    : seq<Step>
  {
    FailedFirst(telegramId, text, url, now, cost, w) + [BeginEnqueue(1, other, Formal, now, cost)] + [CommitEnqueue(id)]
  }

  lemma RunEnqueuedAgain(cfg: Settings, telegramId: int, text: string, url: string, other: string, now: Instant,
                         cost: int, w: World)
    ensures var s := Run(cfg, FailedFirst(telegramId, text, url, now, cost, w));
      Run(cfg, EnqueuedAgain(telegramId, text, url, other, now, cost, w, s.db.nextId)) ==
      Commit(Begin(s, 1, other, Formal, now, cost), s.db.nextId)
  {
    hide Run, Begin, Commit, Apply, FailedFirst;
    var steps, begin := FailedFirst(telegramId, text, url, now, cost, w), BeginEnqueue(1, other, Formal, now, cost);
    var s := Run(cfg, steps);
    RunThen(cfg, steps, begin);
    RunThen(cfg, steps + [begin], CommitEnqueue(s.db.nextId));
    ApplyBegin(cfg, s, begin);
    ApplyCommit(cfg, Begin(s, 1, other, Formal, now, cost), s.db.nextId);
  }

  lemma TwoRequests(cfg: Settings, telegramId: int, text: string, url: string, other: string, now: Instant, cost: int,
                    w: World)
    requires cfg.bonus > 0 && cfg.bonus >= cost && HhDown(w)
    requires UrlScanner.ParseVacancyId(url).Returned? && UrlScanner.ParseVacancyId(other).Returned?
    ensures var id := Run(cfg, FailedFirst(telegramId, text, url, now, cost, w)).db.nextId;
      var db := Run(cfg, EnqueuedAgain(telegramId, text, url, other, now, cost, w, id)).db;
      && id > 3 && db.requests.Keys == {3, id} && Counted(db.requests[id], now)
      && db.requests[3].status == GenerationFailed && db.requests[3].userId == 1 && db.requests[3].createdAt == now
      && Ready(db, 3, 1, cost)
  {
    hide Run, Reserve, Begin, Commit, CacheKept, KeysInOrder, UrlScanner.ParseVacancyId, HonestAnswers, LettersMatch,
      HhDown, EnqueuedAgain, FailedFirst, Enqueued;
    EnqueuedIsReady(cfg, telegramId, text, url, now, cost);
    FirstFails(cfg, telegramId, text, url, now, cost, w);
    FirstProfile(cfg, telegramId, text, url, now, cost);
    var steps := FailedFirst(telegramId, text, url, now, cost, w);
    DownIsHonest(cfg, telegramId, text, url, now, cost, w);
    CacheKeptInEveryRun(cfg, steps);
    SnapshotsInEveryRun(cfg, steps);
    var s := Run(cfg, steps);
    KeyIsFresh(s, 3);
    AgainAdmitted(s.db, other, now, cost);
    RunEnqueuedAgain(cfg, telegramId, text, url, other, now, cost, w);
    SerialCommit(s, 1, other, Formal, now, cost);
  }

  lemma KeyIsFresh(s: State, id: Id)
    requires KeysInOrder(s) && id in s.db.requests
    ensures id < s.db.nextId
  {
  }

  lemma FirstProfile(cfg: Settings, telegramId: int, text: string, url: string, now: Instant, cost: int)
    requires cfg.bonus > 0 && cfg.bonus >= cost && UrlScanner.ParseVacancyId(url).Returned?
    ensures var db := Run(cfg, Enqueued(telegramId, text, url, now, cost)).db;
      1 in db.profiles && 1 in db.users && db.users[1].plan == Free
  {
    hide Run, Reserve, Begin, Commit, CacheKept, KeysInOrder, UrlScanner.ParseVacancyId, HonestAnswers, LettersMatch;
    RunEnqueued(cfg, telegramId, text, url, now, cost);
    FirstIsAdmitted(cfg, telegramId, text, url, now, cost);
    Arrived(cfg, telegramId, text);
    CacheKeptInEveryRun(cfg, Arrive(telegramId, text));
    SnapshotsInEveryRun(cfg, Arrive(telegramId, text));
    SerialCommit(FirstUser(cfg, telegramId, text), 1, url, Formal, now, cost);
  }

  /**
   A failed request frees its place, a second one takes it, and the first job, delivered again, succeeds all the same:
   the free user has two requests of one day.
   */
  lemma RedeliveredOverQuotaRun(cfg: Settings, telegramId: int, text: string, a: nat, b: nat, now: Instant, cost: int,
                                down: World, w: World)
    requires cfg.bonus > 0 && cfg.bonus >= cost && HhDown(down) && Cooperative(w)
    ensures var url, other := UrlScanner.Link(a), UrlScanner.Link(b);
      var id := Run(cfg, FailedFirst(telegramId, text, url, now, cost, down)).db.nextId;
      var steps := EnqueuedAgain(telegramId, text, url, other, now, cost, down, id) + [DeliverJob(0, w)];
      !WithinQuota(Run(cfg, steps).db.requests, 1, Free)
  {
    hide Run, Reserve, UrlScanner.ParseVacancyId, UrlScanner.Link, HhDown, Cooperative, DeliverTo, WithinQuota,
      FailedFirst;
    UrlScanner.LinkParses(a);
    UrlScanner.LinkParses(b);
    var url, other := UrlScanner.Link(a), UrlScanner.Link(b);
    var id := Run(cfg, FailedFirst(telegramId, text, url, now, cost, down)).db.nextId;
    var steps := EnqueuedAgain(telegramId, text, url, other, now, cost, down, id);
    TwoRequests(cfg, telegramId, text, url, other, now, cost, down);
    Arrived(cfg, telegramId, text);
    FirstIsAdmitted(cfg, telegramId, text, url, now, cost);
    StartsLikeFirst(telegramId, text, url, other, now, cost, down, id);
    AcceptedSucceeds(cfg, steps, 2, w);
    RunThen(cfg, steps, DeliverJob(0, w));
    DeliveryIsApplied(cfg, Run(cfg, steps), 0, w);
    var s := Run(cfg, steps);
    OneCounts(s.db.requests, 3, id, now);
    RedeliveryKeepsQuotaIff(s.db, s.jobs[0], w, Free);
    DeliveryRuns(s, 0, w);
  }

  lemma StartsLikeFirst(telegramId: int, text: string, url: string, other: string, now: Instant, cost: int, w: World,
                        id: Id)
    ensures var steps := EnqueuedAgain(telegramId, text, url, other, now, cost, w, id);
      |steps| > 2 && steps[..2] == Arrive(telegramId, text) && steps[2] == BeginEnqueue(1, url, Formal, now, cost)
  {
  }

  lemma DeliveryRuns(s: State, k: nat, w: World)
    requires k < |s.jobs|
    ensures DeliverTo(s, k, w).db == RunJob(s.db, s.jobs[k], w).db
  {
    hide RunJob, Heard;
  }

  /** A failed and a counted request of one day. */
  lemma OneCounts(requests: map<Id, Request>, failed: Id, id: Id, now: Instant)
    requires failed != id && requests.Keys == {failed, id}
    requires requests[failed].status == GenerationFailed && Counted(requests[id], now)
    ensures WithinQuota(requests, 1, Free)
    ensures |InPeriod(requests, 1, Free, PeriodStart(Free, now))| == 1
  {
    hide PeriodStart;
    forall start ensures |InPeriod(requests, 1, Free, start)| <= 1 {
      SubsetSize(InPeriod(requests, 1, Free, start), {id});
    }
    assert InPeriod(requests, 1, Free, PeriodStart(Free, now)) == {id};
  }

  // ---------- A success webhook after an attempted refund ----------

  /** One intent of user 1. */
  ghost predicate OneIntent(db: Tables, balance: int, credits: int, status: PaymentStatus) {
    && 1 in db.users && db.users[1].credits == balance
    && |db.intents| == 1 && db.intents[0].userId == 1
    && db.intents[0].creditsAmount == credits && db.intents[0].status == status
  }

  /** Pay, lose the credits, ask for the money back, and let the success webhook come again. */
  function PayTwice(cfg: Settings, telegramId: int, credits: int, now: Instant): seq<Step> {
    [StartTelegram(telegramId)] + [CreateIntent(1, credits, now)] + [ConfirmIntent(0)] +
    [Adjust(1, -(cfg.bonus + 1))] + [Step.Refund(0)] + [ConfirmIntent(0)]
  }

  lemma ArrivesWithBonus(cfg: Settings, telegramId: int)
    requires cfg.bonus > 0
    ensures var db := Run(cfg, [StartTelegram(telegramId)]).db;
      1 in db.users && db.users[1].credits == cfg.bonus && db.intents == []
          && db.users[1].contact == Telegram(telegramId)
      && db.users.Keys == {1} && db.promos == map[] && db.redemptions == [] && db.nextId == 2
  {
    hide Run, Apply;
    Starts(cfg, telegramId);
    RunOfOne(cfg, StartTelegram(telegramId));
  }

  lemma PaymentSteps(cfg: Settings, db: Tables, balance: int, credits: int, now: Instant)
    requires credits > 0
    ensures 1 in db.users && db.users[1].credits == balance && db.intents == [] ==>
              OneIntent(CreatePayment(db, 1, credits, cfg.price, now).db, balance, credits, Pending)
    ensures OneIntent(db, balance, credits, Pending) ==>
              OneIntent(ConfirmPayment(db, 0).db, balance + credits, credits, Succeeded)
    ensures OneIntent(db, cfg.bonus + credits, credits, Succeeded) ==>
              OneIntent(AdjustBalance(db, 1, -(cfg.bonus + 1)).db, credits - 1, credits, Succeeded)
    ensures OneIntent(db, credits - 1, credits, Succeeded) ==>
              OneIntent(RefundPayment(db, 0).db, credits - 1, credits, RefundManualReview)
  {
    hide Discounted;
  }

  /** The same payment is credited twice, and the rows no longer add up to what its status promises. */
  lemma PaidTwiceRun(cfg: Settings, telegramId: int, credits: int, now: Instant)
    requires cfg.bonus > 0 && credits > 0
    ensures var steps := PayTwice(cfg, telegramId, credits, now);
      && 0 < |Run(cfg, steps).db.intents|
      && ReviewConfirms(cfg, steps, 0) > 0
      && !NetIs(Run(cfg, steps).db, 0, 0) && !OncePerKind(Run(cfg, steps).db, 0)
  {
    hide Run, NetIs, OncePerKind, OneIntent, CreatePayment, ConfirmPayment, AdjustBalance, RefundPayment;
    var s1 := [StartTelegram(telegramId)];
    var s2 := s1 + [CreateIntent(1, credits, now)];
    var s3 := s2 + [ConfirmIntent(0)];
    var s4 := s3 + [Adjust(1, -(cfg.bonus + 1))];
    var s5 := s4 + [Step.Refund(0)];
    var steps := s5 + [ConfirmIntent(0)];
    ArrivesWithBonus(cfg, telegramId);
    PaymentSteps(cfg, Run(cfg, s1).db, cfg.bonus, credits, now);
    RunThen(cfg, s1, CreateIntent(1, credits, now));
    PaymentSteps(cfg, Run(cfg, s2).db, cfg.bonus, credits, now);
    RunThen(cfg, s2, ConfirmIntent(0));
    PaymentSteps(cfg, Run(cfg, s3).db, cfg.bonus, credits, now);
    RunThen(cfg, s3, Adjust(1, -(cfg.bonus + 1)));
    PaymentSteps(cfg, Run(cfg, s4).db, cfg.bonus, credits, now);
    RunThen(cfg, s4, Step.Refund(0));
    ReviewThenConfirm(cfg, s5, credits);
    assert steps == PayTwice(cfg, telegramId, credits, now);
  }

  lemma ReviewThenConfirm(cfg: Settings, init: seq<Step>, credits: int)
    requires OneIntent(Run(cfg, init).db, credits - 1, credits, RefundManualReview)
    ensures var steps := init + [ConfirmIntent(0)];
      && 0 < |Run(cfg, steps).db.intents|
      && ReviewConfirms(cfg, steps, 0) > 0
      && !NetIs(Run(cfg, steps).db, 0, 0) && !OncePerKind(Run(cfg, steps).db, 0)
  {
    hide Run, NetIs, OncePerKind;
    var steps := init + [ConfirmIntent(0)];
    assert steps[..|steps| - 1] == init;
    RunThen(cfg, init, ConfirmIntent(0));
    IntentsGrow(cfg, Run(cfg, init), ConfirmIntent(0));
    PromisedNetInRunIff(cfg, steps, 0);
    CreditedOnceIff(cfg, steps, 0);
  }

  // ---------- A used up, expired code at the bot ----------

  function UseUp(first: int, second: int, code: string, value: int, validUntil: Instant, now: Instant): seq<Step> {
    [StartTelegram(first)] + [StartTelegram(second)] + [NewPromo(code, FixedCredits, value, validUntil, 1)] +
    [RedeemByApi(1, code, now)]
  }

  lemma UsedUp(cfg: Settings, first: int, second: int, code: string, value: int, validUntil: Instant, now: Instant)
    requires cfg.bonus > 0 && value > 0 && first != second && now <= validUntil
    ensures var db := Run(cfg, UseUp(first, second, code, value, validUntil, now)).db;
      && code in db.promos && db.promos[code] == PromoCode(FixedCredits, value, validUntil, 1, 1, true)
      && db.redemptions == [Redemption(code, 1)]
      && 2 in db.users && db.users[2].credits == cfg.bonus
  {
    hide Run;
    var s1 := [StartTelegram(first)];
    var s2 := s1 + [StartTelegram(second)];
    var s3 := s2 + [NewPromo(code, FixedCredits, value, validUntil, 1)];
    ArrivesWithBonus(cfg, first);
    RunThen(cfg, s1, StartTelegram(second));
    assert !Registered(Run(cfg, s1).db.users, Telegram(second));
    RunThen(cfg, s2, NewPromo(code, FixedCredits, value, validUntil, 1));
    RunThen(cfg, s3, RedeemByApi(1, code, now));
  }

  /** The API refuses the code from then on; the bot pays it out once more, beyond its limit. */
  lemma BotPaysUsedUpCode(cfg: Settings, first: int, second: int, code: string, value: int, validUntil: Instant,
                          now: Instant, later: Instant)
    requires cfg.bonus > 0 && value > 0 && first != second && now <= validUntil < later
    ensures var steps := UseUp(first, second, code, value, validUntil, now);
      var before, after := Run(cfg, steps).db, Run(cfg, steps + [RedeemByBot(2, code)]).db;
      && code in before.promos && !Redeemable(before.promos[code], later)
      && ApiRedeem(before, 2, code, later).outcome == Raised(BadRequest)
      && 2 in before.users && 2 in after.users && after.users[2].credits == before.users[2].credits + value
      && code in after.promos && !WithinLimit(after, code)
  {
    hide Run;
    var steps := UseUp(first, second, code, value, validUntil, now);
    UsedUp(cfg, first, second, code, value, validUntil, now);
    RunThen(cfg, steps, RedeemByBot(2, code));
  }

  // ---------- A discount that should have ended ----------

  /** Someone redeems a discount code through the bot. */
  function BotDiscount(telegramId: int, code: string, value: int, validUntil: Instant): seq<Step> {
    [StartTelegram(telegramId)] + [NewPromo(code, TopUpDiscount, value, validUntil, 1)] + [RedeemByBot(1, code)]
  }

  /** Someone redeems a discount code through the API. */
  function ApiDiscount(telegramId: int, code: string, value: int, validUntil: Instant, now: Instant): seq<Step> {
    [StartTelegram(telegramId)] + [NewPromo(code, TopUpDiscount, value, validUntil, 1)] + [RedeemByApi(1, code, now)]
  }

  /** A pending discount of user 1, and no intent yet. */
  ghost predicate HasDiscount(db: Tables, percent: int, validUntil: Option<Instant>) {
    && 1 in db.users && db.users[1].discountPercent == percent && db.users[1].discountValidUntil == validUntil
    && db.intents == []
  }

  lemma Discounts(cfg: Settings, telegramId: int, code: string, value: int, validUntil: Instant, now: Instant)
    requires cfg.bonus > 0 && 0 < value <= 100
    ensures HasDiscount(Run(cfg, BotDiscount(telegramId, code, value, validUntil)).db, value, None)
    ensures now <= validUntil ==>
              HasDiscount(Run(cfg, ApiDiscount(telegramId, code, value, validUntil, now)).db, value, Some(validUntil))
  {
    hide Run;
    var start, promo := StartTelegram(telegramId), NewPromo(code, TopUpDiscount, value, validUntil, 1);
    Starts(cfg, telegramId);
    RunOfOne(cfg, start);
    RunThen(cfg, [start], promo);
    RunThen(cfg, [start] + [promo], RedeemByBot(1, code));
    RunThen(cfg, [start] + [promo], RedeemByApi(1, code, now));
  }

  /** A code redeemed through the bot has no expiry on record: the API charges its discount at any later time. */
  lemma DiscountWithoutEndRun(cfg: Settings, telegramId: int, code: string, value: int, validUntil: Instant,
                              credits: int, later: Instant)
    requires cfg.bonus > 0 && 0 < value <= 100 && credits > 0 && validUntil < later
    ensures var steps := BotDiscount(telegramId, code, value, validUntil) + [CreateIntent(1, credits, later)];
      var intents := Run(cfg, steps).db.intents;
      |intents| == 1 && IsReduced(intents[0].amountRub, credits * cfg.price, value)
  {
    hide Run, CreatePayment, IsReduced;
    Discounts(cfg, telegramId, code, value, validUntil, 0);
    ApiPaymentTerms(Run(cfg, BotDiscount(telegramId, code, value, validUntil)).db, 1, credits, cfg.price, later);
    RunThen(cfg, BotDiscount(telegramId, code, value, validUntil), CreateIntent(1, credits, later));
  }

  /**
   A code redeemed through the API has its expiry on record. After it, the API charges the full price, but the bot still
   charges the discounted one: its top-up reads no clock.
   */
  lemma BotChargesExpiredRun(cfg: Settings, telegramId: int, code: string, value: int, validUntil: Instant,
                             now: Instant, credits: int, later: Instant)
    requires cfg.bonus > 0 && 0 < value <= 100 && credits > 0 && now <= validUntil < later
    ensures var steps := ApiDiscount(telegramId, code, value, validUntil, now);
      var byApi := Run(cfg, steps + [CreateIntent(1, credits, later)]).db.intents;
      var byBot := Run(cfg, steps + [TopUpByBot(1, credits)]).db.intents;
      && |byApi| == |byBot| == 1
      && byApi[0].amountRub == credits * cfg.price
      && IsReduced(byBot[0].amountRub, credits * cfg.price, value) && byBot[0].status == Succeeded
  {
    hide Run, CreatePayment, BotTopUp;
    var steps := ApiDiscount(telegramId, code, value, validUntil, now);
    Discounts(cfg, telegramId, code, value, validUntil, now);
    ApiPaymentTerms(Run(cfg, steps).db, 1, credits, cfg.price, later);
    BotPaymentTerms(Run(cfg, steps).db, 1, credits, cfg.price);
    RunThen(cfg, steps, CreateIntent(1, credits, later));
    RunThen(cfg, steps, TopUpByBot(1, credits));
  }

  // ---------- A model error and a closed vacancy ----------

  /** The model cannot be reached, or answers with nothing but whitespace; or hh.ru says that the vacancy is closed. */
  ghost predicate UnusableAnswer(w: World) {
    && !w.crash && w.hh.vacancy.Response?
    && (HhSaysClosed(w.hh) || (!HhSilent(w.hh) && (w.llm.LlmUnavailable? || Strip(w.llm.text) == "")))
  }

  lemma UnusableLeavesAll(s: State, job: Job, w: World)
    requires CacheKept(s) && s.log == [] && UnusableAnswer(w) && UrlScanner.ParseVacancyId(job.url).Returned?
    requires Admit(s.db, job, w.now).Returned?
    ensures Untouched(s.db, RunJob(s.db, job, w).db)
  {
    hide UrlScanner.ParseVacancyId, Admit, CacheKept, Hit, RunJob, HhSilent, HhSaysClosed, Strip;
    NoHitWithoutAnswers(s, UrlScanner.ParseVacancyId(job.url).value, w.now);
    OtherErrorsLeaveNoTrace(s.db, job, w);
  }

  /** The first request is still pending after its job ran into such an error, and nothing else changed either. */
  lemma StillPendingRun(cfg: Settings, telegramId: int, text: string, a: nat, now: Instant, cost: int, w: World)
    requires cfg.bonus > 0 && cfg.bonus >= cost && UnusableAnswer(w)
    ensures var steps := Enqueued(telegramId, text, UrlScanner.Link(a), now, cost);
      var before, after := Run(cfg, steps).db, Run(cfg, steps + [DeliverJob(0, w)]).db;
      && Untouched(before, after)
      && 3 in after.requests && after.requests[3].status == GenerationPending
  {
    hide Run, UrlScanner.ParseVacancyId, UrlScanner.Link, RunJob, Enqueued, UnusableAnswer, Admit, CacheKept,
      DeliverTo;
    UrlScanner.LinkParses(a);
    var url := UrlScanner.Link(a);
    var steps := Enqueued(telegramId, text, url, now, cost);
    FirstJob(cfg, telegramId, text, url, now, cost, w.now);
    EnqueuedIsReady(cfg, telegramId, text, url, now, cost);
    var s := Run(cfg, steps);
    UnusableLeavesAll(s, s.jobs[0], w);
    RunThen(cfg, steps, DeliverJob(0, w));
    DeliveryIsApplied(cfg, s, 0, w);
    DeliveryRuns(s, 0, w);
  }

  // ---------- A paid period that is lost ----------

  /** Someone pays for two periods of the standard plan. */
  function PayTwoPeriods(telegramId: int, at: Instant): seq<Step> {
    [StartTelegram(telegramId)] + [Subscribe(1, Standard, at)] + [Subscribe(1, Standard, at + 1)]
  }

  lemma TwoPeriods(cfg: Settings, telegramId: int, at: Instant)
    requires cfg.bonus > 0
    ensures var db := Run(cfg, [StartTelegram(telegramId)]).db;
      && 1 in db.users && db.subscriptions == []
      && Run(cfg, PayTwoPeriods(telegramId, at)).db == Renewals(db, 1, Standard, [at, at + 1])
  {
    hide Run, Renewals, ActivateSubscription;
    var start := [StartTelegram(telegramId)];
    Starts(cfg, telegramId);
    RunOfOne(cfg, StartTelegram(telegramId));
    RunThen(cfg, start, Subscribe(1, Standard, at));
    RunThen(cfg, start + [Subscribe(1, Standard, at)], Subscribe(1, Standard, at + 1));
    RenewalsOfTwo(Run(cfg, start).db, 1, Standard, at, at + 1);
  }

  /** After the first period the sweep takes the plan away, with the second one paid for and running. */
  lemma LostRenewalRun(cfg: Settings, telegramId: int, at: Instant)
    requires cfg.bonus > 0
    ensures var after := Run(cfg, PayTwoPeriods(telegramId, at) + [SweepExpired(at + PAID_PERIOD + 1)]).db;
      1 in after.users && !Served(after, 1)
  {
    hide Run, Renewals, Served, Sweep, PAID_PERIOD, PayTwoPeriods;
    TwoPeriods(cfg, telegramId, at);
    RenewalIsLost(Run(cfg, [StartTelegram(telegramId)]).db, 1, at);
    RunThen(cfg, PayTwoPeriods(telegramId, at), SweepExpired(at + PAID_PERIOD + 1));
  }

  /** The same after a change of plan. */
  lemma LostPlanChangeRun(cfg: Settings, telegramId: int, at: Instant)
    requires cfg.bonus > 0
    ensures var steps := PayTwoPeriods(telegramId, at) + [Subscribe(1, Pro, at + 2)];
      var before := Run(cfg, steps).db;
      var after := Run(cfg, steps + [SweepExpired(at + PAID_PERIOD + 1)]).db;
      && StillPaid(before.subscriptions, 1, at + PAID_PERIOD + 1)
      && 1 in before.users && before.users[1].plan == Pro && 1 in after.users && after.users[1].plan == Free
  {
    hide Run, Renewals, Sweep, PAID_PERIOD, StillPaid, ActivateSubscription, PayTwoPeriods;
    TwoPeriods(cfg, telegramId, at);
    PlanChangeIsLost(Run(cfg, [StartTelegram(telegramId)]).db, 1, at);
    RunThen(cfg, PayTwoPeriods(telegramId, at), Subscribe(1, Pro, at + 2));
    RunThen(cfg, PayTwoPeriods(telegramId, at) + [Subscribe(1, Pro, at + 2)], SweepExpired(at + PAID_PERIOD + 1));
    SweepKeepsUsers(Run(cfg, PayTwoPeriods(telegramId, at) + [Subscribe(1, Pro, at + 2)]).db, at + PAID_PERIOD + 1);
  }

  lemma SweepKeepsUsers(db: Tables, cutoff: Instant)
    ensures Sweep(db, cutoff).users.Keys == db.users.Keys
  {
    hide LosesPeriod, SweepRows;
  }

  /** The administrator ends one of the two periods, and the plan with both. */
  lemma LostByAdminRun(cfg: Settings, telegramId: int, at: Instant)
    requires cfg.bonus > 0
    ensures var after := Run(cfg, PayTwoPeriods(telegramId, at) + [EndSubscription(1)]).db;
      1 in after.users && !Served(after, 1)
  {
    hide Run, Renewals, Served, AdminExpire, PAID_PERIOD, LatestActive, PayTwoPeriods;
    TwoPeriods(cfg, telegramId, at);
    var start := Run(cfg, [StartTelegram(telegramId)]).db;
    NoPeriodYet(start.subscriptions, 1);
    RenewalsTile(start, 1, Standard, [at, at + 1]);
    var db := Run(cfg, PayTwoPeriods(telegramId, at)).db;
    assert ActiveOf(db.subscriptions[0], 1) && LatestActive(db.subscriptions, 1) != Some(0);
    AdminExpireServesIff(db, 1);
    RunThen(cfg, PayTwoPeriods(telegramId, at), EndSubscription(1));
  }

  lemma NoPeriodYet(subs: seq<Subscription>, u: Id)
    requires subs == []
    ensures LatestActive(subs, u) == None
  {
  }
}
