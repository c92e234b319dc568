/** The vacancy and employer tables, and what the cache returns, in every run. */
module CacheRuns {
  import opened Wrappers
  import opened Schema
  import opened Quota
  import opened VacancyCache
  import opened Generation
  import opened GenerationProofs
  import opened System
  import opened GenerationRuns
  import UrlScanner

  /** Whatever hh.ru answers to a job, it answers about the vacancy that was asked for. */
  ghost predicate HonestAnswers(s: State, step: Step) {
    step.DeliverJob? && step.job < |s.jobs| ==> HonestFor(s.jobs[step.job].url, step.w.hh)
  }

  /** The tables are valid and true, and open reservations hold keys that no row has. */
  ghost predicate CacheKept(s: State) {
    && TablesValid(s.db)
    && CacheTrue(s.db, s.log)
    && (forall id | id in s.inflight ::
          && id < s.db.nextId && id !in s.db.employers && id !in s.db.vacancies
          && (s.inflight[id].placeholder.Some? ==> s.inflight[id].placeholder.value >= 0))
  }

  /** The two cache tables and the next key decide validity. */
  lemma SameCacheTables(a: Tables, b: Tables, log: seq<Said>)
    requires TablesValid(a) && CacheTrue(a, log)
    requires b.employers == a.employers && b.vacancies == a.vacancies && a.nextId <= b.nextId
    ensures TablesValid(b) && CacheTrue(b, log)
  {
    forall id | id in b.vacancies ensures VacancyTrue(b, b.vacancies[id], log) {
      assert VacancyTrue(a, a.vacancies[id], log);
    }
  }

  /** A run that returns leaves the cache tables as loading the vacancy left them. */
  lemma RunCaches(db: Tables, job: Job, w: World)
    requires RunJob(db, job, w).outcome.Returned?
    ensures var loaded, after := GetOrLoad(db, job.url, w.now, w.hh).db, RunJob(db, job, w).db;
      && Admit(db, job, w.now).Returned?
      && after.employers == loaded.employers && after.vacancies == loaded.vacancies && loaded.nextId <= after.nextId
  {
    hide GetOrLoad, Admit, WriteLetter;
    AdmittedIfReturned(db, job, w);
    AdmittedRequest(db, job, w.now);
    LoadKeepsRequests(db, job.url, w.now, w.hh);
    var profile := Admit(db, job, w.now).value;
    var loaded := GetOrLoad(db, job.url, w.now, w.hh);
    var v := loaded.outcome.value;
    if job.requestId.Some? {
      WriteLetterSaves(loaded.db, job.requestId.value, profile, v, job.tone, w.llm);
    } else {
      var created := CreatePending(loaded.db, job.userId, profile, v.vacancyId, job.tone, w.now);
      WriteLetterSaves(created, loaded.db.nextId, profile, v, job.tone, w.llm);
    }
  }

  lemma AdmittedIfReturned(db: Tables, job: Job, w: World)
    requires RunJob(db, job, w).outcome.Returned?
    ensures Generate(db, job, w).outcome.Returned? && Admit(db, job, w.now).Returned?
    ensures GetOrLoad(db, job.url, w.now, w.hh).outcome.Returned?
  {
    hide GetOrLoad, Admit, WriteLetter;
  }

  lemma LogGrows(db: Tables, log: seq<Said>, text: string, now: Instant, answers: Answers)
    requires CacheTrue(db, log)
    ensures CacheTrue(db, Heard(db, log, text, now, answers))
  {
    hide UrlScanner.ParseVacancyId, Hit, IsOpen, SaysOpen, CacheTrue;
    var heard := Heard(db, log, text, now, answers);
    LongerLog(db, log, heard[|log|..]);
    assert heard == log + heard[|log|..];
  }

  lemma DeliveryKeepsCache(s: State, k: nat, w: World)
    requires CacheKept(s) && k < |s.jobs| && HonestFor(s.jobs[k].url, w.hh)
    ensures TablesValid(DeliverTo(s, k, w).db) && CacheTrue(DeliverTo(s, k, w).db, DeliverTo(s, k, w).log)
  {
    hide RunJob, Heard, TablesValid, CacheTrue, Admit, HonestFor, GetOrLoad;
    var job := s.jobs[k];
    LogGrows(s.db, s.log, job.url, w.now, w.hh);
    if RunJob(s.db, job, w).outcome.Returned? {
      RunCaches(s.db, job, w);
      GetOrLoadKeepsValid(s.db, job.url, w.now, w.hh);
      GetOrLoadKeepsTrue(s.db, s.log, job.url, w.now, w.hh);
      SameCacheTables(GetOrLoad(s.db, job.url, w.now, w.hh).db, RunJob(s.db, job, w).db,
                      Heard(s.db, s.log, job.url, w.now, w.hh));
    } else {
      RunFailsAlone(s.db, job, w);
      SameCacheTables(s.db, RunJob(s.db, job, w).db, s.log);
      SameCacheTables(s.db, RunJob(s.db, job, w).db, Heard(s.db, s.log, job.url, w.now, w.hh));
    }
  }

  /** Loading takes its new keys from the sequence. */
  lemma LoadedKeysAreNew(db: Tables, text: string, now: Instant, answers: Answers)
    ensures var after := GetOrLoad(db, text, now, answers).db;
      && (forall id | id in after.employers && id !in db.employers :: id >= db.nextId)
      && (forall id | id in after.vacancies && id !in db.vacancies :: id >= db.nextId)
  {
    hide UrlScanner.ParseVacancyId, Hit, IsOpen, SaysOpen, CachedEmployer, CachedVacancy;
  }

  lemma DeliveredKeysAreNew(db: Tables, job: Job, w: World)
    ensures var after := RunJob(db, job, w).db;
      && (forall id | id in after.employers && id !in db.employers :: id >= db.nextId)
      && (forall id | id in after.vacancies && id !in db.vacancies :: id >= db.nextId)
  {
    hide RunJob, GetOrLoad, Admit;
    if RunJob(db, job, w).outcome.Returned? {
      RunCaches(db, job, w);
      LoadedKeysAreNew(db, job.url, w.now, w.hh);
    } else {
      RunFailsAlone(db, job, w);
    }
  }

  lemma DeliveryKeepsReservations(s: State, k: nat, w: World)
    requires CacheKept(s) && k < |s.jobs| && HonestFor(s.jobs[k].url, w.hh)
    ensures CacheKept(DeliverTo(s, k, w))
  {
    hide TablesValid, CacheTrue, HonestFor;
    DeliveryKeepsCache(s, k, w);
    DeliveredKeysAreNew(s.db, s.jobs[k], w);
    DeliveryAdvances(s, k, w);
    hide RunJob, Heard, Admit;
  }

  lemma BeginKeepsCache(s: State, u: Id, url: string, tone: Tone, now: Instant, cost: int)
    requires CacheKept(s)
    ensures CacheKept(Begin(s, u, url, tone, now, cost))
  {
    hide TablesValid, CacheTrue, Reserve;
    BeginFrame(s, u, url, tone, now, cost);
    SameCacheTables(s.db, Begin(s, u, url, tone, now, cost).db, s.log);
    KeysBelowNext(s.db);
    if Reserve(s.db, u, url, tone, now, cost).Returned? {
      ReservedPlaceholder(s.db, u, url, tone, now, cost);
    }
  }

  lemma KeysBelowNext(db: Tables)
    requires TablesValid(db)
    ensures db.nextId !in db.employers && db.nextId !in db.vacancies
  {
  }

  lemma ReservedPlaceholder(db: Tables, u: Id, url: string, tone: Tone, now: Instant, cost: int)
    requires Reserve(db, u, url, tone, now, cost).Returned?
    ensures var r, id := Reserve(db, u, url, tone, now, cost).value, UrlScanner.ParseVacancyId(url);
      && id.Returned?
      && r.placeholder == if VacancyId(db.vacancies, id.value).Some? then None else Some(id.value)
  {
    hide EnsureCanGenerate, UrlScanner.ParseVacancyId, VacancyId;
  }

  lemma CommitKeepsCache(s: State, id: Id)
    requires CacheKept(s) && KeysInOrder(s)
    ensures TablesValid(Commit(s, id).db) && CacheTrue(Commit(s, id).db, s.log)
  {
    hide TablesValid, CacheTrue, PlaceholderFits, HasSnapshot, InsertPlaceholder;
    if id in s.inflight {
      var r := s.inflight[id];
      if r.placeholder.Some? && PlaceholderFits(s.db, r.placeholder.value) {
        InsertPlaceholderKeepsValid(s.db, r.placeholder.value, id, id, r.url);
        InsertPlaceholderKeepsTrue(s.db, s.log, r.placeholder.value, id, id, r.url);
        var inserted := InsertPlaceholder(s.db, r.placeholder.value, id, id, r.url);
        InsertKeepsRequests(s.db, r.placeholder.value, id, r.url);
        SameCacheTables(inserted, InsertReservation(s.db, id, r), s.log);
      } else if r.placeholder.None? {
        SameCacheTables(s.db, InsertReservation(s.db, id, r), s.log);
      }
    }
  }

  lemma CommitKeepsReservations(s: State, id: Id)
    requires CacheKept(s) && KeysInOrder(s)
    ensures CacheKept(Commit(s, id))
  {
    hide TablesValid, CacheTrue, HasSnapshot;
    CommitKeepsCache(s, id);
    CommitFrame(s, id);
    CommitInsertsOnlyId(s, id);
    hide Commit;
  }

  lemma CommitInsertsOnlyId(s: State, id: Id)
    ensures var after := Commit(s, id);
      && (forall other | other in after.db.employers && other != id :: other in s.db.employers)
      && (forall other | other in after.db.vacancies && other != id :: other in s.db.vacancies)
      && (forall other | other in after.inflight ::
            other in s.inflight && after.inflight[other] == s.inflight[other] && other != id)
  {
    hide PlaceholderFits;
  }

  lemma StepKeepsCache(cfg: Settings, s: State, step: Step)
    requires CacheKept(s) && KeysInOrder(s) && HonestAnswers(s, step)
    ensures CacheKept(Apply(cfg, s, step))
  {
    hide OnTables, DeliverTo, Begin, Commit, BotMayEnqueue, HonestFor, TablesValid, CacheTrue;
    if !TouchesQueue(step) {
      PlainStepsKeepGeneration(cfg, s.db, step);
      SameCacheTables(s.db, OnTables(cfg, s.db, step), s.log);
    } else {
      match step
      case BeginEnqueue(u, url, tone, now, cost) => BeginKeepsCache(s, u, url, tone, now, cost);
      case CommitEnqueue(id) => CommitKeepsReservations(s, id);
      case DeliverJob(k, w) =>
        if k < |s.jobs| {
          DeliveryKeepsReservations(s, k, w);
        } else {
          assert DeliverTo(s, k, w) == s by { LateDelivery(s, k, w); }
        }
      case _ =>
    }
  }

  lemma LateDelivery(s: State, k: nat, w: World)
    requires k >= |s.jobs|
    ensures DeliverTo(s, k, w) == s
  {
  }

  /** The table invariants and the truth of the cache, in every run with honest answers. */
  lemma {:induction false} CacheKeptInEveryRun(cfg: Settings, steps: seq<Step>)
    requires Along(cfg, steps, HonestAnswers)
    ensures CacheKept(Run(cfg, steps))
  {
    hide Apply, HonestAnswers;
    if steps != [] {
      var init := steps[..|steps| - 1];
      CacheKeptInEveryRun(cfg, init);
      SnapshotsInEveryRun(cfg, init);
      StepKeepsCache(cfg, Run(cfg, init), steps[|steps| - 1]);
    }
  }

  /** Whatever happened before, a cached result is vouched for by what hh.ru said within the last hour. */
  lemma CacheSoundInEveryRun(cfg: Settings, steps: seq<Step>, text: string, now: Instant, answers: Answers,
        r: VacancyResult)
    requires Along(cfg, steps, HonestAnswers)
    requires GetOrLoad(Run(cfg, steps).db, text, now, answers).outcome == Returned(r) && r.fromCache
    ensures UrlScanner.ParseVacancyId(text) == Returned(r.vacancy.hhId)
    ensures Vouched(r, Run(cfg, steps).log, now)
  {
    hide Run, GetOrLoad, UrlScanner.ParseVacancyId, Vouched;
    CacheKeptInEveryRun(cfg, steps);
    CacheSound(Run(cfg, steps).db, Run(cfg, steps).log, text, now, answers, r);
  }

  /** A commit is refused exactly if another transaction has meanwhile inserted the vacancy it wants to insert. */
  lemma AcceptedIff(s: State, id: Id)
    requires CacheKept(s) && KeysInOrder(s) && id in s.inflight
    ensures id !in s.db.requests
    ensures var placeholder := s.inflight[id].placeholder;
      id in Commit(s, id).db.requests <==> (placeholder.Some? ==> VacancyId(s.db.vacancies, placeholder.value).None?)
  {
    hide TablesValid, CacheTrue, VacancyId, EmployerId, HasSnapshot;
    var placeholder := s.inflight[id].placeholder;
    if placeholder.Some? && VacancyId(s.db.vacancies, placeholder.value).None? {
      PlaceholderAlwaysFits(s.db, placeholder.value);
    }
  }

  lemma CommitAcceptedIff(cfg: Settings, steps: seq<Step>, id: Id)
    requires Along(cfg, steps, HonestAnswers) && id in Run(cfg, steps).inflight
    ensures var s := Run(cfg, steps);
      var placeholder := s.inflight[id].placeholder;
      && id !in s.db.requests
      && (id in Commit(s, id).db.requests <==>
          (placeholder.Some? ==> VacancyId(s.db.vacancies, placeholder.value).None?))
  {
    hide Run, CacheKept, KeysInOrder, Commit, HonestAnswers;
    CacheKeptInEveryRun(cfg, steps);
    SnapshotsInEveryRun(cfg, steps);
    AcceptedIff(Run(cfg, steps), id);
  }
}
