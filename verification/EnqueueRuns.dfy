/** Enqueuing through the API, from the push to the commit, after any run. */
module EnqueueRuns {
  import opened Wrappers
  import opened Schema
  import opened QuotaWindow
  import opened Quota
  import opened VacancyCache
  import opened Generation
  import opened GenerationProofs
  import opened GenerationTerms
  import opened System
  import opened GenerationRuns
  import opened QuotaRuns
  import opened CacheRuns
  import UrlScanner

  lemma ApplyCommit(cfg: Settings, s: State, id: Id)
    ensures Apply(cfg, s, CommitEnqueue(id)) == Commit(s, id)
  {
    hide Commit;
  }

  lemma BeginKeepsAll(s: State, u: Id, url: string, tone: Tone, now: Instant, cost: int)
    requires CacheKept(s) && KeysInOrder(s) && LettersMatch(s.db)
    ensures var after := Begin(s, u, url, tone, now, cost);
      CacheKept(after) && KeysInOrder(after) && LettersMatch(after.db)
  {
    hide CacheKept, KeysInOrder, Begin, FromSnapshot;
    BeginKeepsCache(s, u, url, tone, now, cost);
    BeginKeepsKeys(s, u, url, tone, now, cost);
    BeginFrame(s, u, url, tone, now, cost);
  }

  lemma BeginOpens(s: State, u: Id, url: string, tone: Tone, now: Instant, cost: int)
    requires Reserve(s.db, u, url, tone, now, cost).Returned?
    ensures var after := Begin(s, u, url, tone, now, cost);
      s.db.nextId in after.inflight
      && after.inflight[s.db.nextId] == Reserve(s.db, u, url, tone, now, cost).value
  {
    hide Reserve;
  }

  /** A commit that directly follows its push is accepted and inserts the reserved request. */
  lemma SerialCommit(s: State, u: Id, url: string, tone: Tone, now: Instant, cost: int)
    requires CacheKept(s) && KeysInOrder(s) && LettersMatch(s.db)
    requires Reserve(s.db, u, url, tone, now, cost).Returned?
    ensures var id := s.db.nextId;
      var request := Reserve(s.db, u, url, tone, now, cost).value.request;
      var after := Commit(Begin(s, u, url, tone, now, cost), id);
      && request.userId == u && request.createdAt == now && request.status == GenerationPending
      && after.db == s.db.(requests := s.db.requests[id := request], employers := after.db.employers,
                           vacancies := after.db.vacancies, nextId := after.db.nextId)
      && after.log == s.log
  {
    hide Reserve, Begin, Commit, CacheKept, KeysInOrder, UrlScanner.ParseVacancyId, VacancyId, LettersMatch;
    var id, open := s.db.nextId, Begin(s, u, url, tone, now, cost);
    BeginKeepsAll(s, u, url, tone, now, cost);
    BeginFrame(s, u, url, tone, now, cost);
    BeginOpens(s, u, url, tone, now, cost);
    ReservedRequest(s.db, u, url, tone, now, cost);
    ReservedPlaceholder(s.db, u, url, tone, now, cost);
    AcceptedIff(open, id);
    InsertedRequest(open, id);
    CommitFrame(open, id);
  }

  lemma CommittedReservation(s: State, id: Id)
    requires id in s.inflight && id !in s.db.requests && id in Commit(s, id).db.requests
    ensures Commit(s, id).db == InsertReservation(s.db, id, s.inflight[id])
    ensures Commit(s, id).jobs == s.jobs
  {
    hide PlaceholderFits, InsertReservation;
  }

  /** What an accepted enqueue leaves: the pushed job, and the request it names, about the vacancy of the link. */
  ghost predicate Enqueued(s: State, after: State, u: Id, url: string, tone: Tone, now: Instant, cost: int)
    requires u in s.db.profiles && UrlScanner.ParseVacancyId(url).Returned?
  {
    var id, profile := s.db.nextId, s.db.profiles[u];
    && after.jobs == s.jobs + [Job(u, url, tone, false, true, cost, Some(id))]
    && id in after.db.requests
    && after.db.users == s.db.users && after.db.letters == s.db.letters && after.db.transactions == s.db.transactions
    && var vacancyId := after.db.requests[id].vacancyId;
      && after.db.requests == s.db.requests[id :=
                                Request(u, profile.id, vacancyId, GenerationPending, tone, Some(profile.resumeText),
                                        Some(tone), now)]
      && vacancyId in after.db.vacancies
      && after.db.vacancies[vacancyId].hhId == UrlScanner.ParseVacancyId(url).value
  }

  lemma AcceptedIsEnqueued(s: State, u: Id, url: string, tone: Tone, now: Instant, cost: int)
    requires CacheKept(s) && KeysInOrder(s) && LettersMatch(s.db) && Reserve(s.db, u, url, tone, now, cost).Returned?
    ensures u in s.db.profiles && UrlScanner.ParseVacancyId(url).Returned?
    ensures Enqueued(s, Commit(Begin(s, u, url, tone, now, cost), s.db.nextId), u, url, tone, now, cost)
  {
    hide Reserve, Commit, CacheKept, LettersMatch, UrlScanner.ParseVacancyId, HasSnapshot;
    var id, open := s.db.nextId, Begin(s, u, url, tone, now, cost);
    var r := Reserve(s.db, u, url, tone, now, cost).value;
    SerialCommit(s, u, url, tone, now, cost);
    ReservedTerms(s.db, u, url, tone, now, cost);
    CommittedReservation(open, id);
    InsertedTerms(open.db, id, r);
    hide InsertReservation;
  }

  lemma RefusedChangesNothing(s: State, u: Id, url: string, tone: Tone, now: Instant, cost: int)
    requires KeysInOrder(s) && Reserve(s.db, u, url, tone, now, cost).Raised?
    ensures Commit(Begin(s, u, url, tone, now, cost), s.db.nextId) == s && s.db.nextId !in s.db.requests
  {
    hide Reserve, PlaceholderFits, InsertReservation, HasSnapshot;
  }

  lemma RunBeginCommit(cfg: Settings, steps: seq<Step>, u: Id, url: string, tone: Tone, now: Instant, cost: int, id: Id)
    ensures Run(cfg, steps + [BeginEnqueue(u, url, tone, now, cost)] + [CommitEnqueue(id)]) ==
            Commit(Begin(Run(cfg, steps), u, url, tone, now, cost), id)
  {
    hide Run, Begin, Commit, Apply;
    var begin := BeginEnqueue(u, url, tone, now, cost);
    RunThen(cfg, steps, begin);
    RunThen(cfg, steps + [begin], CommitEnqueue(id));
    ApplyBegin(cfg, Run(cfg, steps), begin);
    ApplyCommit(cfg, Begin(Run(cfg, steps), u, url, tone, now, cost), id);
  }

  /**
   After every run with honest answers, an enqueue that nothing interrupts is accepted and committed exactly for users
   with a profile who can pay, have the tone in their plan, name one vacancy and are below the limit of their plan;
   otherwise it changes nothing.
   */
  lemma EnqueueInRunIff(cfg: Settings, steps: seq<Step>, u: Id, url: string, tone: Tone, now: Instant, cost: int)
    requires Along(cfg, steps, HonestAnswers)
    ensures var s := Run(cfg, steps);
      var after :=
        Run(cfg, steps + [BeginEnqueue(u, url, tone, now, cost)] + [CommitEnqueue(Run(cfg, steps).db.nextId)]);
      && s.db.nextId !in s.db.requests
      && if MayAsk(s.db, u, tone, cost) && UrlScanner.ParseVacancyId(url).Returned? && MayGenerate(s.db, u, now)
         then Enqueued(s, after, u, url, tone, now, cost)
         else after == s
  {
    hide Run, Reserve, Begin, Commit, CacheKept, LettersMatch, UrlScanner.ParseVacancyId, MayGenerate, HonestAnswers,
      HasSnapshot, Enqueued;
    var s := Run(cfg, steps);
    RunBeginCommit(cfg, steps, u, url, tone, now, cost, s.db.nextId);
    CacheKeptInEveryRun(cfg, steps);
    SnapshotsInEveryRun(cfg, steps);
    EnqueueAcceptedIff(s.db, u, url, tone, now, cost);
    if Reserve(s.db, u, url, tone, now, cost).Returned? {
      AcceptedIsEnqueued(s, u, url, tone, now, cost);
    } else {
      RefusedChangesNothing(s, u, url, tone, now, cost);
    }
  }

  /** An aborted enqueue leaves its job in the queue, and no later commit inserts its request. */
  lemma AbortedNeverCommits(cfg: Settings, steps: seq<Step>, id: Id)
    ensures var s, after := Run(cfg, steps), Run(cfg, steps + [AbortEnqueue(id)]);
      && after.db == s.db && after.jobs == s.jobs
      && Run(cfg, steps + [AbortEnqueue(id)] + [CommitEnqueue(id)]) == after
  {
    hide Run, PlaceholderFits, InsertReservation;
    RunThen(cfg, steps, AbortEnqueue(id));
    RunThen(cfg, steps + [AbortEnqueue(id)], CommitEnqueue(id));
  }

  /**
   After any run, the bot pushes a job without a request exactly for users who can pay, on the free plan only if they
   have no pending or succeeded request of this UTC day; it changes no table.
   */
  lemma BotPushIff(cfg: Settings, steps: seq<Step>, u: Id, url: string, tone: Tone, now: Instant, cost: int)
    ensures var s, after := Run(cfg, steps), Run(cfg, steps + [EnqueueByBot(u, url, tone, now, cost)]);
      && after.db == s.db
      && after.jobs == s.jobs +
         if u in s.db.users && s.db.users[u].credits >= cost
            && (s.db.users[u].plan == Free ==>
                  forall r | r in s.db.requests && s.db.requests[r].userId == u ::
                    s.db.requests[r].status == GenerationFailed
                    || s.db.requests[r].createdAt / 86_400_000_000 < now / 86_400_000_000)
         then [Job(u, url, tone, true, true, cost, None)] else []
  {
    hide Run, BotMayEnqueue;
    RunThen(cfg, steps, EnqueueByBot(u, url, tone, now, cost));
    BotEnqueueIff(Run(cfg, steps).db, u, now, cost);
  }
}
