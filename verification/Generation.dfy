/**
 Letter generation: enqueuing through the API and through the bot, and the worker's transaction with its
 external calls, its caught and its escaping exceptions, and the debit. A transaction reads the clock once.
 */
module Generation {
  import opened Wrappers
  import opened Text
  import opened Schema
  import opened QuotaWindow
  import opened Quota
  import opened VacancyCache
  import opened Ledger
  import UrlScanner

  /** A Redis job. The API passes its request along; the bot does not. */
  datatype Job = Job(
    userId: Id, url: string, tone: Tone, notify: bool, charge: bool, cost: int, requestId: Option<Id>)

  datatype Llm = Completion(text: string) | LlmUnavailable

  /** Everything outside the database that one run of a job meets; `crash` is an exit before the commit. */
  datatype World = World(now: Instant, hh: Answers, llm: Llm, crash: bool)

  // ---------- Enqueuing through the API ----------

  /** The rows an enqueuing transaction is about to commit, under one fresh key. */
  datatype Reservation = Reservation(request: Request, placeholder: Option<int>, url: string)

  predicate AllowsTone(plan: Plan, tone: Tone) {
    plan != Free || tone == Formal
  }

  ghost function Reserve(db: Tables, u: Id, url: string, tone: Tone, now: Instant, cost: int)
    : Outcome<Reservation, Error>
  {
    if u !in db.users then Raised(UserNotFound)
    else if u !in db.profiles then Raised(ProfileNotFound)
    else if db.users[u].credits < cost then Raised(InsufficientCredits)
    else if !AllowsTone(db.users[u].plan, tone) then Raised(ForbiddenTone)
    else match UrlScanner.ParseVacancyId(url)
      case Raised(InvalidVacancyUrl) => Raised(Error.InvalidVacancyUrl)
      case Raised(MultipleVacancyUrls) => Raised(Error.MultipleVacancyUrls)
      case Returned(hhId) =>
        if EnsureCanGenerate(db, u, now).Raised? then Raised(EnsureCanGenerate(db, u, now).error)
        else
          var existing := VacancyId(db.vacancies, hhId);
          var vacancyId := if existing.Some? then existing.value else db.nextId;
          Returned(Reservation(
                     NewRequest(u, db.profiles[u], vacancyId, tone, now),
                     if existing.Some? then None else Some(hhId), url))
  }

  function NewRequest(u: Id, profile: Profile, vacancyId: Id, tone: Tone, now: Instant): Request {
    Request(u, profile.id, vacancyId, GenerationPending, tone, Some(profile.resumeText), Some(tone), now)
  }

  function InsertReservation(db: Tables, id: Id, r: Reservation): Tables {
    var base := if r.placeholder.Some? then InsertPlaceholder(db, r.placeholder.value, id, id, r.url) else db;
    base.(requests := base.requests[id := r.request])
  }

  function ApiJob(r: Reservation, id: Id, cost: int): Job {
    Job(r.request.userId, r.url, r.request.tone, false, true, cost, Some(id))
  }

  /** The bot's checks before it pushes a job: credits, and one counted request since UTC midnight for the free plan. */
  function BotMayEnqueue(db: Tables, u: Id, now: Instant, cost: int): Outcome<(), Error> {
    if u !in db.users || db.users[u].credits < cost then Raised(InsufficientCredits)
    else if db.users[u].plan == Free && UsedSince(db.requests, u, now - now % 86_400_000_000) >= 1
        then Raised(QuotaExceeded)
    else Returned(())
  }

  // ---------- The service ----------

  function SetRequestStatus(db: Tables, id: Id, status: GenerationStatus): Tables {
    if id in db.requests then db.(requests := db.requests[id := db.requests[id].(status := status)]) else db
  }

  function LetterFor(id: Id, request: Request, profile: Profile, v: VacancyResult, tone: Tone, text: string): Letter {
    var resume := if request.snapshotText.Some? then request.snapshotText.value else profile.resumeText;
    var chosen := if request.snapshotTone.Some? then request.snapshotTone.value else tone;
    Letter(id, request.userId, request.profileId, request.vacancyId, v.employerId, chosen, Strip(text),
           Prompt(resume, v.vacancy, v.employer, chosen))
  }

  /** A saved letter and its key. */
  datatype Saved = Saved(id: Id, letter: Letter)

  /** With the vacancy at hand: call the model, save the letter, mark the request. */
  function WriteLetter(db: Tables, id: Id, profile: Profile, v: VacancyResult, tone: Tone, llm: Llm): Finished<Saved>
    requires id in db.requests
  {
    if llm.LlmUnavailable? then Finished(SetRequestStatus(db, id, GenerationFailed), Raised(LLMClient))
    else if Strip(llm.text) == "" then Finished(SetRequestStatus(db, id, GenerationFailed), Raised(EmptyLLMResponse))
    else
      var letter := LetterFor(id, db.requests[id], profile, v, tone, llm.text);
      var saved := db.(letters := db.letters + [letter]);
      Finished(SetRequestStatus(saved, id, GenerationSucceeded), Returned(Saved(|db.letters|, letter)))
  }

  function CreatePending(db: Tables, u: Id, profile: Profile, vacancyId: Id, tone: Tone, now: Instant): Tables {
    db.(requests := db.requests[db.nextId := NewRequest(u, profile, vacancyId, tone, now)], nextId := db.nextId + 1)
  }

  /** What must hold before anything is loaded. */
  function Admit(db: Tables, job: Job, now: Instant): Outcome<Profile, Error> {
    var u := job.userId;
    if u !in db.users then Raised(UserNotFound)
    else if db.users[u].credits < 1 then Raised(InsufficientCredits)
    else if u !in db.profiles then Raised(ProfileNotFound)
    else if job.requestId.Some? && (job.requestId.value !in db.requests || db.requests[job.requestId.value].userId != u)
    then Raised(RequestNotFound)
    else if job.requestId.None? && EnsureCanGenerate(db, u, now).Raised?
        then Raised(EnsureCanGenerate(db, u, now).error)
    else Returned(db.profiles[u])
  }

  lemma AdmittedRequest(db: Tables, job: Job, now: Instant)
    requires Admit(db, job, now).Returned?
    ensures job.userId in db.users && job.userId in db.profiles && Admit(db, job, now).value == db.profiles[job.userId]
    ensures job.requestId.Some? ==>
              job.requestId.value in db.requests && db.requests[job.requestId.value].userId == job.userId
    ensures job.requestId.None? ==> EnsureCanGenerate(db, job.userId, now).Returned?
  {
    hide EnsureCanGenerate;
  }

  /** The tables as they are inside the open transaction when the service returns or raises. */
  ghost function Generate(db: Tables, job: Job, w: World): Finished<Saved> {
    var admitted := Admit(db, job, w.now);
    if admitted.Raised? then Finished(db, Raised(admitted.error))
    else
      var loaded := GetOrLoad(db, job.url, w.now, w.hh);
      match loaded.outcome
      case Raised(HHClient) =>
        Finished(if job.requestId.Some? then SetRequestStatus(loaded.db, job.requestId.value, GenerationFailed)
            else loaded.db,
                 Raised(HHClient))
      case Raised(e) => Finished(loaded.db, Raised(e))
      case Returned(v) =>
        if job.requestId.Some? then
          LoadKeepsRequests(db, job.url, w.now, w.hh);
          WriteLetter(loaded.db, job.requestId.value, admitted.value, v, job.tone, w.llm)
        else
          WriteLetter(CreatePending(loaded.db, job.userId, admitted.value, v.vacancyId, job.tone, w.now),
                      loaded.db.nextId, admitted.value, v, job.tone, w.llm)
  }

  /** Loading a vacancy touches only the two cache tables. */
  lemma LoadKeepsRequests(db: Tables, text: string, now: Instant, answers: Answers)
    ensures var after := GetOrLoad(db, text, now, answers).db;
      && after == db.(employers := after.employers, vacancies := after.vacancies, nextId := after.nextId)
      && db.nextId <= after.nextId
  {
    hide UrlScanner.ParseVacancyId, Hit, IsOpen, SaysOpen, EmployerKey, VacancyKey, CachedEmployer, CachedVacancy;
  }

  // ---------- The worker's transaction ----------

  function Debit(db: Tables, u: Id, amount: int, requestId: Id): Outcome<Tables, Error> {
    if u !in db.users || db.users[u].credits < amount then Raised(QuotaExceeded)
    else Returned(Post(db, u, Spend, -amount, Some(requestId), None, None))
  }

  /** Errors that the worker catches inside its transaction, which then commits. */
  predicate CaughtInside(e: Error) {
    e in {HHClient, QuotaExceeded}
  }

  ghost function RunJob(db: Tables, job: Job, w: World): Finished<Id> {
    var g := Generate(db, job, w);
    if w.crash then RolledBack(db, g.db, Crash)
    else match g.outcome
      case Raised(e) => if CaughtInside(e) then Finished(g.db, Raised(e)) else RolledBack(db, g.db, e)
      case Returned(saved) =>
        if job.charge && job.cost > 0 then
          match Debit(g.db, job.userId, job.cost, saved.letter.requestId)
          case Raised(e) => RolledBack(db, g.db, e)
          case Returned(debited) => Finished(debited, Returned(saved.id))
        else Finished(g.db, Returned(saved.id))
  }

  // ---------- The same, step by step ----------

  class JobQueue {
    var jobs: seq<Job>

    method Push(job: Job)
      modifies this
      ensures jobs == old(jobs) + [job]
    {
      jobs := jobs + [job];
    }
  }

  lemma ValidIsUnique(db: Tables)
    requires TablesValid(db)
    ensures UniqueHhIds(db)
  {
  }

  /** The enqueuing request. Its transaction is still open when the job is already in Redis. */
  method EnqueueGeneration(db: Database, queue: JobQueue, u: Id, url: string, tone: Tone, now: Instant, cost: int)
      returns (r: Outcome<Id, Error>)
    requires TablesValid(db.Snapshot())
    modifies db, queue
    ensures var reserved := Reserve(old(db.Snapshot()), u, url, tone, now, cost);
      var id := old(db.nextId);
      match reserved
      case Raised(e) => r == Raised(e) && db.Snapshot() == old(db.Snapshot()) && queue.jobs == old(queue.jobs)
      case Returned(reservation) =>
        && r == Returned(id)
        && db.Snapshot() == InsertReservation(old(db.Snapshot()), id, reservation).(nextId := id + 1)
        && queue.jobs == old(queue.jobs) + [ApiJob(reservation, id, cost)]
  {
    hide UrlScanner.ParseVacancyId, EnsureCanGenerate, TablesValid, PLACEHOLDER_EMPLOYER, PLACEHOLDER_VACANCY,
        AllowsTone;
    ValidIsUnique(db.Snapshot());
    if u !in db.users {
      return Raised(UserNotFound);
    }
    if u !in db.profiles {
      return Raised(ProfileNotFound);
    }
    if db.users[u].credits < cost {
      return Raised(InsufficientCredits);
    }
    if !AllowsTone(db.users[u].plan, tone) {
      return Raised(ForbiddenTone);
    }
    var parsed := UrlScanner.ParseHhVacancyId(url);
    match parsed {
      case Raised(InvalidVacancyUrl) => return Raised(Error.InvalidVacancyUrl);
      case Raised(MultipleVacancyUrls) => return Raised(Error.MultipleVacancyUrls);
      case Returned(hhId) =>
        var usage := EnsureCanGenerate(db.Snapshot(), u, now);
        if usage.Raised? {
          return Raised(usage.error);
        }
        var id := db.NextId();
        var vacancyId := GetOrCreatePlaceholder(db, hhId, id, url);
        db.requests := db.requests[id := NewRequest(u, db.profiles[u], vacancyId, tone, now)];
        queue.Push(Job(u, url, tone, false, true, cost, Some(id)));
        return Returned(id);
    }
  }

  method UpdateStatus(db: Database, id: Id, status: GenerationStatus)
    modifies db
    ensures db.Snapshot() == SetRequestStatus(old(db.Snapshot()), id, status)
  {
    if id in db.requests {
      db.requests := db.requests[id := db.requests[id].(status := status)];
    }
  }

  method GenerateAndSaveLetter(db: Database, id: Id, profile: Profile, v: VacancyResult, tone: Tone, llm: Llm)
      returns (r: Outcome<Saved, Error>)
    requires id in db.requests
    modifies db
    ensures Finished(db.Snapshot(), r) == WriteLetter(old(db.Snapshot()), id, profile, v, tone, llm)
  {
    var request := db.requests[id];
    if llm.LlmUnavailable? {
      UpdateStatus(db, id, GenerationFailed);
      return Raised(LLMClient);
    }
    if Strip(llm.text) == "" {
      UpdateStatus(db, id, GenerationFailed);
      return Raised(EmptyLLMResponse);
    }
    var letterId := |db.letters|;
    var letter := LetterFor(id, request, profile, v, tone, llm.text);
    db.letters := db.letters + [letter];
    UpdateStatus(db, id, GenerationSucceeded);
    return Returned(Saved(letterId, letter));
  }

  method GenerateForVacancyUrl(db: Database, job: Job, w: World) returns (r: Outcome<Saved, Error>)
    requires TablesValid(db.Snapshot())
    modifies db
    ensures Finished(db.Snapshot(), r) == Generate(old(db.Snapshot()), job, w)
  {
    hide GetOrLoad, Admit, TablesValid, WriteLetter;
    var admitted := Admit(db.Snapshot(), job, w.now);
    if admitted.Raised? {
      return Raised(admitted.error);
    }
    AdmittedRequest(db.Snapshot(), job, w.now);
    LoadKeepsRequests(db.Snapshot(), job.url, w.now, w.hh);
    var loaded := GetOrLoadVacancy(db, job.url, w.now, w.hh);
    if loaded.Raised? {
      if loaded.error == HHClient && job.requestId.Some? {
        UpdateStatus(db, job.requestId.value, GenerationFailed);
      }
      return Raised(loaded.error);
    }
    var requestId := job.requestId;
    if requestId.None? {
      var id := db.NextId();
      db.requests := db.requests[id := NewRequest(job.userId, admitted.value, loaded.value.vacancyId, job.tone, w.now)];
      requestId := Some(id);
    }
    r := GenerateAndSaveLetter(db, requestId.value, admitted.value, loaded.value, job.tone, w.llm);
  }

  method DebitGenerationCredits(db: Database, u: Id, amount: int, requestId: Id) returns (ok: bool)
    modifies db
    ensures ok <==> Debit(old(db.Snapshot()), u, amount, requestId).Returned?
    ensures db.Snapshot() == if ok then Debit(old(db.Snapshot()), u, amount, requestId).value else old(db.Snapshot())
  {
    if u !in db.users || db.users[u].credits < amount {
      return false;
    }
    var user := db.users[u];
    user := user.(credits := user.credits - amount);
    db.users := db.users[u := user];
    db.transactions := db.transactions + [Transaction(u, Spend, -amount, user.credits, Some(requestId), None, None)];
    return true;
  }

  /** The worker: one transaction, two caught errors, everything else rolls back. */
  method GenerateCoverLetter(db: Database, job: Job, w: World) returns (r: Outcome<Id, Error>)
    requires TablesValid(db.Snapshot())
    modifies db
    ensures Finished(db.Snapshot(), r) == RunJob(old(db.Snapshot()), job, w)
  {
    var before := db.Snapshot();
    var result := GenerateForVacancyUrl(db, job, w);
    if w.crash {
      db.Rollback(before);
      return Raised(Crash);
    }
    match result {
      case Raised(e) =>
        if !CaughtInside(e) {
          db.Rollback(before);
        }
        return Raised(e);
      case Returned(saved) =>
        if job.charge && job.cost > 0 {
          var paid := DebitGenerationCredits(db, job.userId, job.cost, saved.letter.requestId);
          if !paid {
            db.Rollback(before);
            return Raised(QuotaExceeded);
          }
        }
        return Returned(saved.id);
    }
  }
}
