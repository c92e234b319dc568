/** What letters say, and which rows they belong to, in every run. */
module LetterRuns {
  import opened Schema
  import opened VacancyCache
  import opened Generation
  import opened GenerationProofs
  import opened GenerationTerms
  import opened System
  import opened GenerationRuns
  import opened CacheRuns
  import UrlScanner

  // ---------- The text ----------

  /** Some delivery of job `k` met a model that answered this text. */
  ghost predicate Answered(steps: seq<Step>, k: nat, text: string) {
    exists j | 0 <= j < |steps| :: steps[j].DeliverJob? && steps[j].job == k && IsAnswer(text, steps[j].w.llm)
  }

  ghost predicate LettersAnswered(letters: seq<Letter>, writers: seq<nat>, steps: seq<Step>) {
    |writers| == |letters| && forall i | 0 <= i < |writers| :: Answered(steps, writers[i], letters[i].text)
  }

  lemma AnsweredStays(steps: seq<Step>, step: Step, k: nat, text: string)
    requires Answered(steps, k, text)
    ensures Answered(steps + [step], k, text)
  {
    var j :| 0 <= j < |steps| && steps[j].DeliverJob? && steps[j].job == k && IsAnswer(text, steps[j].w.llm);
    assert (steps + [step])[j] == steps[j];
  }

  /** Nothing was written, or job `k` wrote. */
  ghost predicate WroteAtMostOne(s: State, after: State, k: nat, w: World) {
    || (after.db.letters == s.db.letters && after.writers == s.writers)
    || (k < |s.jobs| && RunJob(s.db, s.jobs[k], w).outcome.Returned?
        && after.writers == s.writers + [k] && after.db == RunJob(s.db, s.jobs[k], w).db)
  }

  lemma DeliveryWrites(s: State, k: nat, w: World)
    ensures WroteAtMostOne(s, DeliverTo(s, k, w), k, w)
  {
    hide RunJob, Heard, MarkedFailed, Admit;
    if k < |s.jobs| && RunJob(s.db, s.jobs[k], w).outcome.Raised? {
      RaisedKeepsLetters(s.db, s.jobs[k], w);
    }
  }

  lemma PlainStepKeepsLetters(cfg: Settings, db: Tables, step: Step)
    requires !TouchesQueue(step)
    ensures OnTables(cfg, db, step).letters == db.letters
  {
    hide OnTables, AtMostOneRow;
    PlainStepsKeepGeneration(cfg, db, step);
  }

  /** Only deliveries write letters, and one at a time. */
  lemma StepWrites(cfg: Settings, s: State, step: Step)
    ensures var after := Apply(cfg, s, step);
      if step.DeliverJob? then WroteAtMostOne(s, after, step.job, step.w)
      else after.db.letters == s.db.letters && after.writers == s.writers
  {
    hide WroteAtMostOne, DeliverTo, OnTables;
    if !TouchesQueue(step) {
      PlainStepKeepsLetters(cfg, s.db, step);
    } else if step.DeliverJob? {
      DeliveryWrites(s, step.job, step.w);
    } else {
      hide Apply;
      QueueStepFrame(cfg, s, step);
    }
  }

  lemma AnswersStay(letters: seq<Letter>, writers: seq<nat>, steps: seq<Step>, step: Step)
    requires LettersAnswered(letters, writers, steps)
    ensures LettersAnswered(letters, writers, steps + [step])
  {
    hide Answered;
    forall i | 0 <= i < |writers| ensures Answered(steps + [step], writers[i], letters[i].text) {
      AnsweredStays(steps, step, writers[i], letters[i].text);
    }
  }

  lemma OneMoreAnswer(letters: seq<Letter>, writers: seq<nat>, steps: seq<Step>, letter: Letter, k: nat)
    requires LettersAnswered(letters, writers, steps) && Answered(steps, k, letter.text)
    ensures LettersAnswered(letters + [letter], writers + [k], steps)
  {
    hide Answered;
  }

  /** The letter that a run has added, and its text. */
  lemma AddedLetter(db: Tables, job: Job, w: World)
    requires RunJob(db, job, w).outcome.Returned?
    ensures var letters := RunJob(db, job, w).db.letters;
      && |letters| == |db.letters| + 1 && letters == db.letters + [letters[|db.letters|]]
      && IsAnswer(letters[|db.letters|].text, w.llm)
  {
    hide RunJob, IsAnswer, ShowsRows, IsAbout, ShowsResume, HonestFor;
    LetterIsTheAnswer(db, job, w);
    var letters := RunJob(db, job, w).db.letters;
    assert letters == letters[..|db.letters|] + [letters[|db.letters|]];
  }

  lemma StepAnswers(cfg: Settings, s: State, steps: seq<Step>, step: Step)
    requires LettersAnswered(s.db.letters, s.writers, steps)
    ensures var after := Apply(cfg, s, step); LettersAnswered(after.db.letters, after.writers, steps + [step])
  {
    hide Apply, RunJob, IsAnswer, Answered, LettersAnswered;
    var after := Apply(cfg, s, step);
    StepWrites(cfg, s, step);
    AnswersStay(s.db.letters, s.writers, steps, step);
    if step.DeliverJob? && after.writers != s.writers {
      AddedLetter(s.db, s.jobs[step.job], step.w);
      var letter := after.db.letters[|s.db.letters|];
      AnsweredNow(steps, step, letter.text);
      OneMoreAnswer(s.db.letters, s.writers, steps + [step], letter, step.job);
    }
  }

  lemma AnsweredNow(steps: seq<Step>, step: Step, text: string)
    requires step.DeliverJob? && IsAnswer(text, step.w.llm)
    ensures Answered(steps + [step], step.job, text)
  {
    assert (steps + [step])[|steps|] == step;
  }

  /**
   In every run each letter is the model's answer to a delivery of the job that wrote it: all of it, but for whitespace
   at its ends, and never empty.
   */
  lemma {:induction false} EveryLetterIsAnAnswer(cfg: Settings, steps: seq<Step>)
    ensures LettersAnswered(Run(cfg, steps).db.letters, Run(cfg, steps).writers, steps)
  {
    hide Apply, Answered;
    if steps != [] {
      var init, last := steps[..|steps| - 1], steps[|steps| - 1];
      EveryLetterIsAnAnswer(cfg, init);
      StepAnswers(cfg, Run(cfg, init), init, last);
      assert init + [last] == steps;
    }
  }

  // ---------- The vacancy and its employer ----------

  ghost predicate LinkNames(url: string, hhId: int) {
    var link := UrlScanner.ParseVacancyId(url);
    link.Returned? && link.value == hhId
  }

  /** The row under this key is about the vacancy that the link names. */
  ghost predicate PointsAt(db: Tables, vacancyId: Id, url: string) {
    vacancyId in db.vacancies && LinkNames(url, db.vacancies[vacancyId].hhId)
  }

  ghost predicate ReservationPoints(db: Tables, id: Id, r: Reservation) {
    if r.placeholder.Some? then r.request.vacancyId == id && LinkNames(r.url, r.placeholder.value)
    else PointsAt(db, r.request.vacancyId, r.url)
  }

  /** What job `job` knows of its request, in the table or still in an open transaction. */
  ghost predicate JobPoints(s: State, job: Job) {
    job.requestId.Some? ==>
      var id := job.requestId.value;
      && (id in s.db.requests ==> PointsAt(s.db, s.db.requests[id].vacancyId, job.url))
      && (id in s.inflight ==> s.inflight[id].url == job.url)
  }

  ghost predicate RequestsPoint(s: State) {
    && (forall k | 0 <= k < |s.jobs| :: JobPoints(s, s.jobs[k]))
    && (forall id | id in s.inflight :: ReservationPoints(s.db, id, s.inflight[id]))
  }

  /** A letter for a link: its vacancy and its employer are the rows it names, and hh.ru called the vacancy open. */
  ghost predicate LetterFits(db: Tables, log: seq<Said>, url: string, letter: Letter) {
    var vacancy, employer := letter.prompt.vacancy, letter.prompt.employer;
    && LinkNames(url, vacancy.hhId) && PointsAt(db, letter.vacancyId, url)
    && vacancy.employerId == letter.employerId
    && letter.employerId in db.employers && db.employers[letter.employerId].hhId == employer.hhId
    && vacancy.payload.Some? && vacancy.payload.value.employerHhId == employer.hhId && SaysOpen(vacancy.payload.value)
    && vacancy.cachedAt.Some? && SaidVacancy(vacancy.cachedAt.value, vacancy.payload.value) in log
  }

  ghost predicate LettersFit(s: State) {
    && |s.writers| == |s.db.letters|
    && forall i | 0 <= i < |s.writers| ::
      s.writers[i] < |s.jobs| && LetterFits(s.db, s.log, s.jobs[s.writers[i]].url, s.db.letters[i])
  }

  /** Rows of the cache tables stay and keep their hh.ru ids, and nothing that hh.ru said is forgotten. */
  ghost predicate RowsStay(a: Tables, b: Tables) {
    && (forall id | id in a.vacancies :: id in b.vacancies && b.vacancies[id].hhId == a.vacancies[id].hhId)
    && (forall id | id in a.employers :: id in b.employers && b.employers[id].hhId == a.employers[id].hhId)
  }

  lemma PointsStay(a: Tables, b: Tables, vacancyId: Id, url: string)
    requires RowsStay(a, b) && PointsAt(a, vacancyId, url)
    ensures PointsAt(b, vacancyId, url)
  {
  }

  lemma FitStays(a: Tables, b: Tables, log: seq<Said>, more: seq<Said>, url: string, letter: Letter)
    requires RowsStay(a, b) && log <= more && LetterFits(a, log, url, letter)
    ensures LetterFits(b, more, url, letter)
  {
    hide UrlScanner.ParseVacancyId, SaysOpen;
  }

  /** What does not write a letter keeps the letters fitting. */
  lemma FitsStay(s: State, after: State)
    requires LettersFit(s) && RowsStay(s.db, after.db) && s.log <= after.log && s.jobs <= after.jobs
    requires after.db.letters == s.db.letters && after.writers == s.writers
    ensures LettersFit(after)
  {
    hide LetterFits, RowsStay;
    forall i | 0 <= i < |after.writers|
      ensures LetterFits(after.db, after.log, after.jobs[after.writers[i]].url, after.db.letters[i])
    {
      FitStays(s.db, after.db, s.log, after.log, s.jobs[s.writers[i]].url, s.db.letters[i]);
    }
  }

  /** What changes of requests at most their status, and opens no transaction, keeps requests pointing. */
  lemma RequestsStay(s: State, after: State)
    requires RequestsPoint(s) && RowsStay(s.db, after.db) && KeysInOrder(s)
    requires Frozen(s.db.requests, after.db.requests)
    requires forall id | id in after.db.requests && id !in s.db.requests :: id >= s.db.nextId
    requires forall id | id in after.inflight :: id in s.inflight && after.inflight[id] == s.inflight[id]
    requires s.jobs <= after.jobs && forall k | |s.jobs| <= k < |after.jobs| :: after.jobs[k].requestId.None?
    ensures RequestsPoint(after)
  {
    hide PointsAt, RowsStay, HasSnapshot;
    forall id | id in after.inflight ensures ReservationPoints(after.db, id, after.inflight[id]) {
      if s.inflight[id].placeholder.None? {
        PointsStay(s.db, after.db, s.inflight[id].request.vacancyId, s.inflight[id].url);
      }
    }
    forall k | 0 <= k < |after.jobs| ensures JobPoints(after, after.jobs[k]) {
      if k < |s.jobs| {
        assert JobPoints(s, s.jobs[k]) && after.jobs[k] == s.jobs[k];
        var job := s.jobs[k];
        if job.requestId.Some? && job.requestId.value in s.db.requests {
          PointsStay(s.db, after.db, s.db.requests[job.requestId.value].vacancyId, job.url);
        }
      }
    }
  }

  // ---------- Step by step ----------

  lemma SameRowsStay(a: Tables, b: Tables)
    requires b.vacancies == a.vacancies && b.employers == a.employers
    ensures RowsStay(a, b)
  {
  }

  lemma DeliveryRowsStay(db: Tables, job: Job, w: World)
    requires TablesValid(db)
    ensures RowsStay(db, RunJob(db, job, w).db)
  {
    hide RunJob, GetOrLoad, Admit, TablesValid;
    if RunJob(db, job, w).outcome.Returned? {
      RunCaches(db, job, w);
      LoadLeavesOthers(db, job.url, w.now, w.hh);
    } else {
      RunFailsAlone(db, job, w);
    }
  }

  lemma HeardGrows(db: Tables, log: seq<Said>, text: string, now: Instant, answers: Answers)
    ensures log <= Heard(db, log, text, now, answers)
  {
    hide UrlScanner.ParseVacancyId, Hit, SaysOpen;
  }

  /** The new letter fits: its rows are those of the load, which are true. */
  lemma WrittenFits(s: State, k: nat, w: World)
    requires CacheKept(s) && RequestsPoint(s) && k < |s.jobs| && HonestFor(s.jobs[k].url, w.hh)
    requires RunJob(s.db, s.jobs[k], w).outcome.Returned?
    ensures var after := DeliverTo(s, k, w);
      && |after.db.letters| == |s.db.letters| + 1 && after.db.letters[..|s.db.letters|] == s.db.letters
      && LetterFits(after.db, after.log, s.jobs[k].url, after.db.letters[|s.db.letters|])
  {
    hide RunJob, TablesValid, HonestFor, IsAnswer, ShowsResume, Heard, Admit;
    var job, after := s.jobs[k], DeliverTo(s, k, w);
    LetterIsTheAnswer(s.db, job, w);
    DeliveryKeepsCache(s, k, w);
    DeliveryRowsStay(s.db, job, w);
    var letter := after.db.letters[|s.db.letters|];
    RowFits(after.db, after.log, job.url, letter);
    assert JobPoints(s, job);
    if job.requestId.Some? {
      PointsStay(s.db, after.db, letter.vacancyId, job.url);
    }
  }

  lemma RowFits(db: Tables, log: seq<Said>, url: string, letter: Letter)
    requires CacheTrue(db, log) && ShowsRows(db, letter) && IsAbout(letter, url)
    ensures PointsAt(db, letter.vacancyId, url) ==> LetterFits(db, log, url, letter)
    ensures LinkNames(url, letter.prompt.vacancy.hhId)
  {
    hide UrlScanner.ParseVacancyId, SaysOpen;
    var id :| id in db.vacancies && db.vacancies[id] == letter.prompt.vacancy;
    assert VacancyTrue(db, db.vacancies[id], log);
  }

  /** One more letter that fits. */
  lemma OneMoreFits(s: State, after: State, k: nat, letter: Letter)
    requires LettersFit(s) && RowsStay(s.db, after.db) && s.log <= after.log && after.jobs == s.jobs && k < |s.jobs|
    requires after.db.letters == s.db.letters + [letter] && after.writers == s.writers + [k]
    requires LetterFits(after.db, after.log, s.jobs[k].url, letter)
    ensures LettersFit(after)
  {
    hide LetterFits, RowsStay;
    forall i | 0 <= i < |after.writers|
      ensures LetterFits(after.db, after.log, after.jobs[after.writers[i]].url, after.db.letters[i])
    {
      if i < |s.writers| {
        FitStays(s.db, after.db, s.log, after.log, s.jobs[s.writers[i]].url, s.db.letters[i]);
      }
    }
  }

  lemma DeliveryLettersFit(s: State, k: nat, w: World)
    requires CacheKept(s) && RequestsPoint(s) && LettersFit(s) && k < |s.jobs| && HonestFor(s.jobs[k].url, w.hh)
    ensures LettersFit(DeliverTo(s, k, w))
  {
    hide CacheKept, RequestsPoint, LettersFit, HonestFor, RowsStay, LetterFits, Heard, Admit, RunJob, MarkedFailed;
    var after := DeliverTo(s, k, w);
    ValidTables(s);
    DeliveryRowsStay(s.db, s.jobs[k], w);
    HeardGrows(s.db, s.log, s.jobs[k].url, w.now, w.hh);
    if RunJob(s.db, s.jobs[k], w).outcome.Returned? {
      WrittenFits(s, k, w);
      OneMoreFits(s, after, k, after.db.letters[|s.db.letters|]);
    } else {
      RaisedKeepsLetters(s.db, s.jobs[k], w);
      FitsStay(s, after);
    }
  }

  lemma RaisedKeepsLetters(db: Tables, job: Job, w: World)
    requires RunJob(db, job, w).outcome.Raised?
    ensures RunJob(db, job, w).db.letters == db.letters
  {
    hide RunJob;
    RunFailsAlone(db, job, w);
  }

  lemma DeliveryRequestsPoint(s: State, k: nat, w: World)
    requires CacheKept(s) && KeysInOrder(s) && LettersMatch(s.db) && RequestsPoint(s) && k < |s.jobs|
    ensures RequestsPoint(DeliverTo(s, k, w))
  {
    hide CacheKept, KeysInOrder, LettersMatch, RequestsPoint, RowsStay, RunJob, Heard, Admit;
    ValidTables(s);
    DeliveryRowsStay(s.db, s.jobs[k], w);
    DeliveryKeepsSnapshots(s, k, w);
    DeliveryCreatesLate(s, k, w);
    DeliveryKeepsInflight(s, k, w);
    RequestsStay(s, DeliverTo(s, k, w));
  }

  lemma ValidTables(s: State)
    requires CacheKept(s)
    ensures TablesValid(s.db)
  {
  }

  lemma BeginFits(s: State, u: Id, url: string, tone: Tone, now: Instant, cost: int)
    requires KeysInOrder(s) && RequestsPoint(s) && LettersFit(s)
    ensures var after := Begin(s, u, url, tone, now, cost); RequestsPoint(after) && LettersFit(after)
  {
    hide Reserve, UrlScanner.ParseVacancyId, HasSnapshot, LettersFit;
    var after := Begin(s, u, url, tone, now, cost);
    SameRowsStay(s.db, after.db);
    if Reserve(s.db, u, url, tone, now, cost).Returned? {
      ReservedTerms(s.db, u, url, tone, now, cost);
      FitsStay(s, after);
      forall k | 0 <= k < |after.jobs| ensures JobPoints(after, after.jobs[k]) {
        if k < |s.jobs| {
          assert JobPoints(s, s.jobs[k]) && after.jobs[k] == s.jobs[k];
        }
      }
    }
  }

  lemma CommitRowsStay(s: State, id: Id)
    requires CacheKept(s)
    ensures RowsStay(s.db, Commit(s, id).db)
  {
    hide TablesValid, CacheTrue, PlaceholderFits;
    if id in s.inflight {
      InsertedTerms(s.db, id, s.inflight[id]);
    }
    hide InsertReservation;
  }

  lemma CommitFits(s: State, id: Id)
    requires CacheKept(s) && KeysInOrder(s) && RequestsPoint(s) && LettersFit(s)
    ensures RequestsPoint(Commit(s, id)) && LettersFit(Commit(s, id))
  {
    hide CacheKept, HasSnapshot, LettersFit, UrlScanner.ParseVacancyId, PlaceholderFits, RowsStay;
    var after := Commit(s, id);
    CommitRowsStay(s, id);
    CommitFrame(s, id);
    FitsStay(s, after);
    if id !in s.inflight || after.db == s.db {
      RequestsStay(s, after);
    } else {
      var r := s.inflight[id];
      InsertedTerms(s.db, id, r);
      assert ReservationPoints(s.db, id, r);
      hide InsertReservation;
      CommittedPoints(s, after, id, r);
    }
  }

  /** The request that a commit inserts points at the row of its reservation. */
  lemma CommittedPoints(s: State, after: State, id: Id, r: Reservation)
    requires RequestsPoint(s) && RowsStay(s.db, after.db) && id in s.inflight && r == s.inflight[id]
    requires after.jobs == s.jobs && after.inflight == s.inflight - {id}
    requires after.db.requests == s.db.requests[id := r.request]
    requires r.placeholder.Some? ==> id in after.db.vacancies && after.db.vacancies[id].hhId == r.placeholder.value
    ensures RequestsPoint(after)
  {
    hide UrlScanner.ParseVacancyId;
    assert ReservationPoints(s.db, id, r);
    forall other | other in after.inflight ensures ReservationPoints(after.db, other, after.inflight[other]) {
      assert ReservationPoints(s.db, other, s.inflight[other]);
    }
    forall k | 0 <= k < |after.jobs| ensures JobPoints(after, after.jobs[k]) {
      assert JobPoints(s, s.jobs[k]);
    }
  }

  lemma StepFits(cfg: Settings, s: State, step: Step)
    requires CacheKept(s) && KeysInOrder(s) && LettersMatch(s.db) && RequestsPoint(s) && LettersFit(s)
    requires HonestAnswers(s, step)
    ensures RequestsPoint(Apply(cfg, s, step)) && LettersFit(Apply(cfg, s, step))
  {
    hide OnTables, DeliverTo, Begin, Commit, BotMayEnqueue, CacheKept, KeysInOrder, LettersMatch, RequestsPoint,
      LettersFit, RowsStay, HonestFor;
    if !TouchesQueue(step) {
      hide AtMostOneRow;
      PlainStepsKeepGeneration(cfg, s.db, step);
      OtherStepFits(s, Apply(cfg, s, step));
    } else {
      match step
      case BeginEnqueue(u, url, tone, now, cost) => BeginFits(s, u, url, tone, now, cost);
      case CommitEnqueue(id) => CommitFits(s, id);
      case DeliverJob(k, w) =>
        if k < |s.jobs| {
          DeliveryRequestsPoint(s, k, w);
          DeliveryLettersFit(s, k, w);
        } else {
          LateDelivery(s, k, w);
        }
      case _ => OtherStepFits(s, Apply(cfg, s, step));
    }
  }

  lemma OtherStepFits(s: State, after: State)
    requires KeysInOrder(s) && RequestsPoint(s) && LettersFit(s)
    requires after.db.vacancies == s.db.vacancies && after.db.employers == s.db.employers
    requires after.db.requests == s.db.requests && after.db.letters == s.db.letters
    requires after.writers == s.writers && after.log == s.log
    requires forall id | id in after.inflight :: id in s.inflight && after.inflight[id] == s.inflight[id]
    requires s.jobs <= after.jobs && forall k | |s.jobs| <= k < |after.jobs| :: after.jobs[k].requestId.None?
    ensures RequestsPoint(after) && LettersFit(after)
  {
    hide KeysInOrder, RequestsPoint, LettersFit, RowsStay;
    SameRowsStay(s.db, after.db);
    RequestsStay(s, after);
    FitsStay(s, after);
  }

  /**
   In every run with honest answers of hh.ru: each letter was prompted with the vacancy that its job's link names, which
   hh.ru had called open, and with the employer which that vacancy names; and its keys lead to the rows of both.
   */
  lemma {:induction false} LettersFitInEveryRun(cfg: Settings, steps: seq<Step>)
    requires Along(cfg, steps, HonestAnswers)
    ensures RequestsPoint(Run(cfg, steps)) && LettersFit(Run(cfg, steps))
  {
    hide Apply, HonestAnswers;
    if steps != [] {
      var init := steps[..|steps| - 1];
      LettersFitInEveryRun(cfg, init);
      CacheKeptInEveryRun(cfg, init);
      SnapshotsInEveryRun(cfg, init);
      StepFits(cfg, Run(cfg, init), steps[|steps| - 1]);
    }
  }
}
