/**
 The terms of a letter, in the fields of the rows: who may enqueue, which job is admitted, with which error the others
 are refused, and what a letter that was written says.
 */
module GenerationTerms {
  import opened Wrappers
  import opened Text
  import opened Schema
  import opened QuotaWindow
  import opened Quota
  import opened VacancyCache
  import opened Generation
  import opened GenerationProofs
  import UrlScanner

  // ---------- Enqueuing ----------

  /** What the API asks of the user and the tone, before it reads the link. */
  predicate MayAsk(db: Tables, u: Id, tone: Tone, cost: int) {
    && u in db.users && u in db.profiles && db.users[u].credits >= cost
    && (db.users[u].plan == Free ==> tone == Formal)
  }

  /** An enqueue is accepted exactly on these terms; the first one that is not met names the error. */
  lemma EnqueueAcceptedIff(db: Tables, u: Id, url: string, tone: Tone, now: Instant, cost: int)
    ensures var r, link := Reserve(db, u, url, tone, now, cost), UrlScanner.ParseVacancyId(url);
      && (r.Returned? <==> MayAsk(db, u, tone, cost) && link.Returned? && MayGenerate(db, u, now))
      && (u !in db.users ==> r == Raised(UserNotFound))
      && (u in db.users && u !in db.profiles ==> r == Raised(ProfileNotFound))
      && (u in db.users && u in db.profiles && db.users[u].credits < cost ==> r == Raised(InsufficientCredits))
      && (u in db.users && u in db.profiles && db.users[u].credits >= cost && !MayAsk(db, u, tone, cost) ==>
            r == Raised(ForbiddenTone))
      && (MayAsk(db, u, tone, cost) && link == Raised(UrlScanner.InvalidVacancyUrl) ==>
            r == Raised(Error.InvalidVacancyUrl))
      && (MayAsk(db, u, tone, cost) && link == Raised(UrlScanner.MultipleVacancyUrls) ==>
            r == Raised(Error.MultipleVacancyUrls))
      && (MayAsk(db, u, tone, cost) && link.Returned? && !MayGenerate(db, u, now) ==> r == Raised(QuotaExceeded))
  {
    hide EnsureCanGenerate, MayGenerate, UrlScanner.ParseVacancyId, VacancyId;
    MayGenerateIff(db, u, now);
  }

  /** The request of an accepted enqueue, and the vacancy it is about: a row there is, or one to be inserted. */
  lemma ReservedTerms(db: Tables, u: Id, url: string, tone: Tone, now: Instant, cost: int)
    requires Reserve(db, u, url, tone, now, cost).Returned?
    ensures u in db.profiles && UrlScanner.ParseVacancyId(url).Returned?
    ensures var r, hhId := Reserve(db, u, url, tone, now, cost).value, UrlScanner.ParseVacancyId(url).value;
      var profile := db.profiles[u];
      && r.url == url
      && r.request == Request(u, profile.id, r.request.vacancyId, GenerationPending, tone, Some(profile.resumeText),
                              Some(tone), now)
      && (r.placeholder.None? ==>
            r.request.vacancyId in db.vacancies && db.vacancies[r.request.vacancyId].hhId == hhId)
      && (r.placeholder.Some? ==>
            && r.placeholder == Some(hhId) && r.request.vacancyId == db.nextId
            && forall id | id in db.vacancies :: db.vacancies[id].hhId != hhId)
  {
    hide EnsureCanGenerate, UrlScanner.ParseVacancyId, VacancyId;
  }

  /** What the commit of a reservation inserts. */
  lemma InsertedTerms(db: Tables, id: Id, r: Reservation)
    ensures var after := InsertReservation(db, id, r);
      && after.requests == db.requests[id := r.request]
      && (r.placeholder.None? ==> after.vacancies == db.vacancies && after.employers == db.employers)
      && (r.placeholder.Some? ==>
            var hhId := r.placeholder.value;
            && after.vacancies == db.vacancies[id :=
                                    Vacancy(hhId, id, "Pending hh.ru vacancy", Some(r.url), None, None)]
            && after.employers == db.employers[id := Employer(-hhId, "Pending hh.ru employer", None, None, None)])
  {
  }

  /** The bot pushes a job exactly for users who can pay, on the free plan only without a live request this UTC day. */
  lemma BotEnqueueIff(db: Tables, u: Id, now: Instant, cost: int)
    ensures BotMayEnqueue(db, u, now, cost).Returned? <==>
            && u in db.users && db.users[u].credits >= cost
            && (db.users[u].plan == Free ==>
                  forall r | r in db.requests && db.requests[r].userId == u ::
                    db.requests[r].status == GenerationFailed
                    || db.requests[r].createdAt / 86_400_000_000 < now / 86_400_000_000)
    ensures BotMayEnqueue(db, u, now, cost).Raised? ==>
              BotMayEnqueue(db, u, now, cost).error ==
              if u in db.users && db.users[u].credits >= cost then QuotaExceeded else InsufficientCredits
  {
    var since := now - now % 86_400_000_000;
    CountedAreLive(db.requests, u, since);
    NothingToday(db.requests, u, now);
  }

  lemma NothingToday(requests: map<Id, Request>, u: Id, now: Instant)
    ensures LiveSince(requests, u, now - now % 86_400_000_000) == {} <==>
            forall r | r in requests && requests[r].userId == u ::
              requests[r].status == GenerationFailed
              || requests[r].createdAt / 86_400_000_000 < now / 86_400_000_000
  {
    forall r | r in requests
      ensures requests[r].createdAt >= now - now % 86_400_000_000 <==>
              requests[r].createdAt / 86_400_000_000 >= now / 86_400_000_000
    {
      SinceMidnight(requests[r].createdAt, now);
    }
    var live := LiveSince(requests, u, now - now % 86_400_000_000);
    assert forall r | r in requests && requests[r].userId == u ::
        r !in live ==> requests[r].status == GenerationFailed
                       || requests[r].createdAt < now - now % 86_400_000_000;
  }

  lemma SinceMidnight(t: nat, now: nat)
    ensures t >= now - now % 86_400_000_000 <==> t / 86_400_000_000 >= now / 86_400_000_000
  {
  }

  // ---------- Running ----------

  /** A job is admitted exactly on these terms; a job that brings its request is not checked against the quota. */
  lemma AdmittedIff(db: Tables, job: Job, now: Instant)
    ensures Admit(db, job, now).Returned? <==>
            && job.userId in db.users && db.users[job.userId].credits >= 1 && job.userId in db.profiles
            && match job.requestId
               case Some(id) => id in db.requests && db.requests[id].userId == job.userId
               case None => MayGenerate(db, job.userId, now)
    ensures var r := Admit(db, job, now);
      && (job.userId !in db.users ==> r == Raised(UserNotFound))
      && (job.userId in db.users && db.users[job.userId].credits < 1 ==> r == Raised(InsufficientCredits))
      && (job.userId in db.users && db.users[job.userId].credits >= 1 ==>
            && (job.userId !in db.profiles ==> r == Raised(ProfileNotFound))
            && (job.userId in db.profiles && r.Raised? ==>
                  r.error == if job.requestId.Some? then RequestNotFound else QuotaExceeded))
  {
    hide EnsureCanGenerate, MayGenerate;
    MayGenerateIff(db, job.userId, now);
  }

  /** The errors of a run that the vacancy and the model have no part in; nothing is kept. */
  lemma RunErrors(db: Tables, job: Job, w: World)
    ensures var r, admitted := RunJob(db, job, w), Admit(db, job, w.now);
      var link := UrlScanner.ParseVacancyId(job.url);
      && (w.crash ==> r.outcome == Raised(Crash) && Untouched(db, r.db))
      && (!w.crash && admitted.Raised? ==> r.outcome == Raised(admitted.error) && Untouched(db, r.db))
      && (!w.crash && admitted.Returned? && link.Raised? ==>
            && r.outcome == Raised(if link.error.InvalidVacancyUrl? then Error.InvalidVacancyUrl
                                   else Error.MultipleVacancyUrls)
            && Untouched(db, r.db))
      && (!w.crash && Generate(db, job, w).outcome.Returned? && job.charge && job.cost > 0
          && !(job.userId in db.users && db.users[job.userId].credits >= job.cost) ==>
            r.outcome == Raised(QuotaExceeded) && Untouched(db, r.db))
  {
    hide Generate, Admit, UrlScanner.ParseVacancyId, Wrote;
    if Admit(db, job, w.now).Raised? {
      NotAdmitted(db, job, w);
    } else if UrlScanner.ParseVacancyId(job.url).Raised? {
      BadLink(db, job, w);
    }
    if Generate(db, job, w).outcome.Returned? {
      GenerateWrites(db, job, w);
      WroteForTheSameUsers(db, job, w);
    }
  }

  lemma BadLink(db: Tables, job: Job, w: World)
    requires Admit(db, job, w.now).Returned? && UrlScanner.ParseVacancyId(job.url).Raised?
    ensures Generate(db, job, w) ==
            Finished(db, Raised(if UrlScanner.ParseVacancyId(job.url).error.InvalidVacancyUrl?
                                then Error.InvalidVacancyUrl else Error.MultipleVacancyUrls))
  {
    hide Admit, UrlScanner.ParseVacancyId;
  }

  lemma WroteForTheSameUsers(db: Tables, job: Job, w: World)
    requires Generate(db, job, w).outcome.Returned?
    requires Wrote(db, Generate(db, job, w).db, job, w, Generate(db, job, w).outcome.value)
    ensures Generate(db, job, w).db.users == db.users
  {
    hide Generate, FromSnapshot, NewRequest, EnsureCanGenerate;
  }

  // ---------- The letter ----------

  /** The text is what the model answered, without the whitespace around it; there is something left. */
  ghost predicate IsAnswer(text: string, llm: Llm) {
    llm.Completion? && text != "" && exists a, b :: Trimmed(llm.text, a, text, b)
  }

  /** The prompt shows a dated vacancy and its employer as the tables have them; the letter has that employer's key. */
  ghost predicate ShowsRows(db: Tables, letter: Letter) {
    && (exists id :: id in db.vacancies && db.vacancies[id] == letter.prompt.vacancy)
    && letter.prompt.vacancy.cachedAt.Some?
    && letter.prompt.vacancy.employerId == letter.employerId
    && letter.employerId in db.employers && db.employers[letter.employerId] == letter.prompt.employer
  }

  /** The prompt shows the vacancy that a link names. */
  ghost predicate IsAbout(letter: Letter, url: string) {
    var link := UrlScanner.ParseVacancyId(url);
    link.Returned? && link.value == letter.prompt.vacancy.hhId
  }

  /** The resume and the tone are those the request froze, or else the user's own and the job's. */
  ghost predicate ShowsResume(db: Tables, job: Job, letter: Letter) {
    && job.userId in db.profiles
    && (job.requestId.Some? ==> job.requestId.value in db.requests)
    && var text := if job.requestId.Some? then db.requests[job.requestId.value].snapshotText else None;
       var tone := if job.requestId.Some? then db.requests[job.requestId.value].snapshotTone else None;
       && letter.prompt.resumeText == (if text.Some? then text.value else db.profiles[job.userId].resumeText)
       && letter.tone == letter.prompt.tone == if tone.Some? then tone.value else job.tone
  }

  /** Inside the transaction an unusable answer marks the request as failed and writes nothing else. */
  lemma UnusableAnswerMarks(db: Tables, id: Id, profile: Profile, v: VacancyResult, tone: Tone, llm: Llm)
    requires id in db.requests && (llm.Completion? ==> forall i | 0 <= i < |llm.text| :: IsSpace(llm.text[i]))
    ensures WriteLetter(db, id, profile, v, tone, llm) ==
            Finished(db.(requests := db.requests[id := db.requests[id].(status := GenerationFailed)]),
                     Raised(if llm.Completion? then EmptyLLMResponse else LLMClient))
  {
    hide Strip, IsSpace;
    if llm.Completion? {
      NothingLeftIff(llm.text);
    }
  }

  lemma WrittenLetter(db: Tables, id: Id, profile: Profile, v: VacancyResult, tone: Tone, llm: Llm)
    requires id in db.requests && WriteLetter(db, id, profile, v, tone, llm).outcome.Returned?
    ensures var letter, request := WriteLetter(db, id, profile, v, tone, llm).outcome.value.letter, db.requests[id];
      && IsAnswer(letter.text, llm)
      && letter.prompt.vacancy == v.vacancy && letter.prompt.employer == v.employer && letter.employerId == v.employerId
      && letter.requestId == id && letter.userId == request.userId && letter.vacancyId == request.vacancyId
      && letter.profileId == request.profileId
      && letter.prompt.resumeText ==
         (if request.snapshotText.Some? then request.snapshotText.value else profile.resumeText)
      && letter.tone == letter.prompt.tone == if request.snapshotTone.Some? then request.snapshotTone.value else tone
  {
    hide Strip, Trimmed;
    StripTrims(llm.text);
  }

  /** The rows of a successful load are those of its result. */
  lemma LoadedRows(db: Tables, text: string, now: Instant, answers: Answers)
    requires GetOrLoad(db, text, now, answers).outcome.Returned?
    ensures var r := GetOrLoad(db, text, now, answers);
      var v, link := r.outcome.value, UrlScanner.ParseVacancyId(text);
      && v.vacancyId in r.db.vacancies && r.db.vacancies[v.vacancyId] == v.vacancy
      && v.employerId in r.db.employers && r.db.employers[v.employerId] == v.employer
      && v.vacancy.employerId == v.employerId && v.vacancy.cachedAt.Some?
      && link.Returned? && (HonestFor(text, answers) ==> link.value == v.vacancy.hhId)
  {
    hide UrlScanner.ParseVacancyId, IsOpen, SaysOpen;
  }

  /**
   What a run that returns has added: the model's answer, prompted with the vacancy of the job's link, its employer and
   the resume and tone of the request. A job without a request gets one about the same vacancy.
   */
  lemma LetterIsTheAnswer(db: Tables, job: Job, w: World)
    requires RunJob(db, job, w).outcome.Returned?
    ensures var after := RunJob(db, job, w).db;
      && |after.letters| == |db.letters| + 1 && after.letters[..|db.letters|] == db.letters
      && var letter := after.letters[|db.letters|];
        && IsAnswer(letter.text, w.llm)
        && ShowsRows(after, letter)
        && (HonestFor(job.url, w.hh) ==> IsAbout(letter, job.url))
        && ShowsResume(db, job, letter)
        && letter.userId == job.userId
        && (job.requestId.Some? ==>
              && letter.requestId == job.requestId.value && letter.requestId in db.requests
              && letter.profileId == db.requests[letter.requestId].profileId
              && letter.vacancyId == db.requests[letter.requestId].vacancyId)
        && (job.requestId.None? ==>
              && letter.profileId == db.profiles[job.userId].id
              && letter.vacancyId in after.vacancies && after.vacancies[letter.vacancyId] == letter.prompt.vacancy)
  {
    hide GetOrLoad, Admit, EnsureCanGenerate, WriteLetter, RunJob, IsAnswer, HonestFor, UrlScanner.ParseVacancyId;
    RunReturnsIff(db, job, w);
    AdmittedRequest(db, job, w.now);
    RunCommitsTogether(db, job, w);
    LoadKeepsRequests(db, job.url, w.now, w.hh);
    hide FromSnapshot;
    var profile := Admit(db, job, w.now).value;
    var loaded := GetOrLoad(db, job.url, w.now, w.hh);
    LoadedRows(db, job.url, w.now, w.hh);
    var v := loaded.outcome.value;
    if job.requestId.Some? {
      WrittenLetter(loaded.db, job.requestId.value, profile, v, job.tone, w.llm);
      WriteLetterSaves(loaded.db, job.requestId.value, profile, v, job.tone, w.llm);
    } else {
      var created := CreatePending(loaded.db, job.userId, profile, v.vacancyId, job.tone, w.now);
      WrittenLetter(created, loaded.db.nextId, profile, v, job.tone, w.llm);
      WriteLetterSaves(created, loaded.db.nextId, profile, v, job.tone, w.llm);
    }
  }
}
