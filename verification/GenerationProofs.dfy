/** What one run of a job can do to the database: all of it, or next to nothing. */
module GenerationProofs {
  import opened Wrappers
  import opened Text
  import opened Schema
  import opened QuotaWindow
  import opened Quota
  import opened VacancyCache
  import opened Ledger
  import opened Generation
  import UrlScanner

  /** One new letter for request `id`, which is marked; users, ledger and the other tables are as before. */
  ghost predicate Wrote(db: Tables, after: Tables, job: Job, w: World, saved: Saved) {
    var id := saved.letter.requestId;
    && after.letters == db.letters + [saved.letter] && saved.id == |db.letters|
    && id in after.requests
    && (if job.requestId.Some?
        then job.requestId == Some(id) && id in db.requests && db.requests[id].userId == job.userId
             && after.requests == db.requests[id := db.requests[id].(status := GenerationSucceeded)]
        else db.nextId <= id < after.nextId && job.userId in db.profiles
             && EnsureCanGenerate(db, job.userId, w.now).Returned?
             && after.requests == db.requests[id := after.requests[id]]
             && after.requests[id] ==
                NewRequest(job.userId, db.profiles[job.userId], after.requests[id].vacancyId, job.tone, w.now)
                .(status := GenerationSucceeded))
    && FromSnapshot(saved.letter, after.requests[id])
    && after == db.(employers := after.employers, vacancies := after.vacancies, nextId := after.nextId,
                    letters := after.letters, requests := after.requests)
  }

  /** The letter's prompt uses the resume and the tone frozen in the request. */
  ghost predicate FromSnapshot(letter: Letter, request: Request) {
    && (request.snapshotText.Some? ==> letter.prompt.resumeText == request.snapshotText.value)
    && (request.snapshotTone.Some? ==>
          letter.prompt.tone == request.snapshotTone.value && letter.tone == request.snapshotTone.value)
    && letter.userId == request.userId && letter.profileId == request.profileId && letter.vacancyId == request.vacancyId
  }

  /** At most the job's own request is marked as failed. */
  ghost predicate MarkedFailed(db: Tables, after: Tables, job: Job) {
    && job.requestId.Some? && job.requestId.value in db.requests
        && db.requests[job.requestId.value].userId == job.userId
    && after == SetRequestStatus(db, job.requestId.value, GenerationFailed).(nextId := after.nextId)
  }

  ghost predicate Untouched(db: Tables, after: Tables) {
    after == db.(nextId := after.nextId)
  }

  lemma WriteLetterSaves(db: Tables, id: Id, profile: Profile, v: VacancyResult, tone: Tone, llm: Llm)
    requires id in db.requests && WriteLetter(db, id, profile, v, tone, llm).outcome.Returned?
    ensures var r := WriteLetter(db, id, profile, v, tone, llm);
      var saved := r.outcome.value;
      && saved.letter.requestId == id && saved.id == |db.letters|
      && r.db == db.(letters := db.letters + [saved.letter],
                     requests := db.requests[id := db.requests[id].(status := GenerationSucceeded)])
      && FromSnapshot(saved.letter, db.requests[id])
  {
    hide Strip;
  }

  lemma GenerateWrites(db: Tables, job: Job, w: World)
    requires Generate(db, job, w).outcome.Returned?
    ensures Wrote(db, Generate(db, job, w).db, job, w, Generate(db, job, w).outcome.value)
  {
    hide GetOrLoad, Admit, EnsureCanGenerate, WriteLetter;
    AdmittedRequest(db, job, w.now);
    LoadKeepsRequests(db, job.url, w.now, w.hh);
    var profile := Admit(db, job, w.now).value;
    var loaded := GetOrLoad(db, job.url, w.now, w.hh);
    var v := loaded.outcome.value;
    if job.requestId.Some? {
      WriteLetterSaves(loaded.db, job.requestId.value, profile, v, job.tone, w.llm);
    } else {
      var created := CreatePending(loaded.db, job.userId, profile, v.vacancyId, job.tone, w.now);
      WriteLetterSaves(created, loaded.db.nextId, profile, v, job.tone, w.llm);
    }
  }

  lemma WriteLetterErrors(db: Tables, id: Id, profile: Profile, v: VacancyResult, tone: Tone, llm: Llm)
    requires id in db.requests
    ensures var r := WriteLetter(db, id, profile, v, tone, llm);
      && (r.outcome.Raised? ==> r.outcome.error in {LLMClient, EmptyLLMResponse})
      && r.db.nextId == db.nextId
  {
    hide Strip;
  }

  lemma LoadErrors(db: Tables, text: string, now: Instant, answers: Answers)
    ensures var r := GetOrLoad(db, text, now, answers);
      r.outcome.Raised? ==>
        && r.db == db
        && r.outcome.error in {HHClient, VacancyClosed, Error.InvalidVacancyUrl, Error.MultipleVacancyUrls}
  {
    hide UrlScanner.ParseVacancyId, Hit, IsOpen, SaysOpen, Store;
  }

  lemma AdmitErrors(db: Tables, job: Job, now: Instant)
    ensures Admit(db, job, now).Raised? ==> Admit(db, job, now).error != HHClient
  {
    hide UsedSince, PeriodStart;
  }

  /** What the open transaction holds when a caught error leaves it. */
  lemma GenerateRaises(db: Tables, job: Job, w: World)
    requires Generate(db, job, w).outcome.Raised?
    ensures var g := Generate(db, job, w);
      && (g.outcome.error == QuotaExceeded ==> g.db == db)
      && (g.outcome.error == HHClient ==> if job.requestId.Some? then MarkedFailed(db, g.db, job) else g.db == db)
  {
    hide GetOrLoad, Admit, EnsureCanGenerate, WriteLetter;
    AdmitErrors(db, job, w.now);
    LoadErrors(db, job.url, w.now, w.hh);
    LoadKeepsRequests(db, job.url, w.now, w.hh);
    var admitted := Admit(db, job, w.now);
    if admitted.Returned? {
      AdmittedRequest(db, job, w.now);
      var loaded := GetOrLoad(db, job.url, w.now, w.hh);
      if loaded.outcome.Returned? {
        var v := loaded.outcome.value;
        if job.requestId.Some? {
          WriteLetterErrors(loaded.db, job.requestId.value, admitted.value, v, job.tone, w.llm);
        } else {
          var created := CreatePending(loaded.db, job.userId, admitted.value, v.vacancyId, job.tone, w.now);
          WriteLetterErrors(created, loaded.db.nextId, admitted.value, v, job.tone, w.llm);
        }
      }
    }
  }

  /** The debit that goes with a letter. */
  ghost predicate Charged(before: Tables, after: Tables, job: Job, requestId: Id) {
    if job.charge && job.cost > 0 then
      && job.userId in before.users && before.users[job.userId].credits >= job.cost
      && after == Post(before, job.userId, Spend, -job.cost, Some(requestId), None, None)
    else after == before
  }

  /** A run that returns committed the letter, the status and the debit together. */
  lemma RunCommitsTogether(db: Tables, job: Job, w: World)
    requires RunJob(db, job, w).outcome.Returned?
    ensures var g := Generate(db, job, w);
      && g.outcome.Returned?
      && Wrote(db, g.db, job, w, g.outcome.value)
      && Charged(g.db, RunJob(db, job, w).db, job, g.outcome.value.letter.requestId)
      && RunJob(db, job, w).outcome.value == g.outcome.value.id
  {
    hide Generate, Wrote;
    GenerateWrites(db, job, w);
  }

  /**
   A run that raises inside its transaction leaves credits, ledger, letters, vacancies and employers alone and
   changes at most its own request, to failed.
   */
  lemma RunFailsAlone(db: Tables, job: Job, w: World)
    requires RunJob(db, job, w).outcome.Raised?
    ensures var after := RunJob(db, job, w).db;
      && db.nextId <= after.nextId
      && if RunJob(db, job, w).outcome.error == HHClient && job.requestId.Some? then MarkedFailed(db, after, job)
         else Untouched(db, after)
  {
    hide Generate, Wrote;
    if Generate(db, job, w).outcome.Raised? {
      GenerateRaises(db, job, w);
    }
    GenerateAdvances(db, job, w);
  }

  lemma GenerateAdvances(db: Tables, job: Job, w: World)
    ensures db.nextId <= Generate(db, job, w).db.nextId
  {
    hide GetOrLoad, Admit, EnsureCanGenerate, WriteLetter;
    LoadKeepsRequests(db, job.url, w.now, w.hh);
    var admitted := Admit(db, job, w.now);
    if admitted.Returned? {
      AdmittedRequest(db, job, w.now);
      var loaded := GetOrLoad(db, job.url, w.now, w.hh);
      if loaded.outcome.Returned? {
        var v := loaded.outcome.value;
        if job.requestId.Some? {
          WriteLetterErrors(loaded.db, job.requestId.value, admitted.value, v, job.tone, w.llm);
        } else {
          var created := CreatePending(loaded.db, job.userId, admitted.value, v.vacancyId, job.tone, w.now);
          WriteLetterErrors(created, loaded.db.nextId, admitted.value, v, job.tone, w.llm);
        }
      }
    }
  }

  // ---------- How a run ends, told before it is tried ----------

  /** Whether a job writes its letter: it is admitted, the vacancy loads, the model answers, the user can pay. */
  ghost predicate Succeeds(db: Tables, job: Job, w: World) {
    && !w.crash
    && Admit(db, job, w.now).Returned?
    && Loads(db, job.url, w.now, w.hh)
    && w.llm.Completion? && Strip(w.llm.text) != ""
    && (job.charge && job.cost > 0 ==> job.userId in db.users && db.users[job.userId].credits >= job.cost)
  }

  /** Whether a job is stopped by hh.ru, the one error that leaves a mark. */
  ghost predicate HhFails(db: Tables, job: Job, w: World) {
    !w.crash && Admit(db, job, w.now).Returned? && Asks(db, job.url, w.now) && HhSilent(w.hh)
  }

  lemma WriteLetterOutcome(db: Tables, id: Id, profile: Profile, v: VacancyResult, tone: Tone, llm: Llm)
    requires id in db.requests
    ensures WriteLetter(db, id, profile, v, tone, llm).outcome.Returned? <==> llm.Completion? && Strip(llm.text) != ""
    ensures llm.LlmUnavailable? ==> WriteLetter(db, id, profile, v, tone, llm).outcome == Raised(LLMClient)
    ensures llm.Completion? && Strip(llm.text) == "" ==>
              WriteLetter(db, id, profile, v, tone, llm).outcome == Raised(EmptyLLMResponse)
  {
    hide Strip;
  }

  /** Once a job is admitted, the vacancy decides first, then the model. */
  lemma GenerateOutcome(db: Tables, job: Job, w: World)
    requires Admit(db, job, w.now).Returned?
    ensures var outcome := Generate(db, job, w).outcome;
      && (outcome == Raised(HHClient) <==> Asks(db, job.url, w.now) && HhSilent(w.hh))
      && (outcome == Raised(VacancyClosed) <==> Asks(db, job.url, w.now) && HhSaysClosed(w.hh))
      && (Loads(db, job.url, w.now, w.hh) ==>
            && (outcome.Returned? <==> w.llm.Completion? && Strip(w.llm.text) != "")
            && (w.llm.LlmUnavailable? ==> outcome == Raised(LLMClient))
            && (w.llm.Completion? && Strip(w.llm.text) == "" ==> outcome == Raised(EmptyLLMResponse)))
      && (outcome.Returned? ==> Loads(db, job.url, w.now, w.hh))
  {
    hide GetOrLoad, Admit, EnsureCanGenerate, WriteLetter, Strip, Loads, Asks, HhSilent, HhSaysClosed;
    LoadKeepsRequests(db, job.url, w.now, w.hh);
    LoadOutcome(db, job.url, w.now, w.hh);
    AdmittedRequest(db, job, w.now);
    var profile := Admit(db, job, w.now).value;
    var loaded := GetOrLoad(db, job.url, w.now, w.hh);
    if loaded.outcome.Returned? {
      var v := loaded.outcome.value;
      if job.requestId.Some? {
        WriteLetterOutcome(loaded.db, job.requestId.value, profile, v, job.tone, w.llm);
        WriteLetterErrors(loaded.db, job.requestId.value, profile, v, job.tone, w.llm);
      } else {
        var created := CreatePending(loaded.db, job.userId, profile, v.vacancyId, job.tone, w.now);
        WriteLetterOutcome(created, loaded.db.nextId, profile, v, job.tone, w.llm);
        WriteLetterErrors(created, loaded.db.nextId, profile, v, job.tone, w.llm);
      }
    }
  }

  /** Refusals before anything is loaded are none of the errors that loading and writing have. */
  lemma NotAdmitted(db: Tables, job: Job, w: World)
    requires Admit(db, job, w.now).Raised?
    ensures Generate(db, job, w) == Finished(db, Raised(Admit(db, job, w.now).error))
    ensures Admit(db, job, w.now).error != HHClient
  {
    hide Admit;
    AdmitErrors(db, job, w.now);
  }

  /** A run returns a letter exactly if it is admitted, the vacancy loads, the model answers, and the user can pay. */
  lemma RunReturnsIff(db: Tables, job: Job, w: World)
    ensures RunJob(db, job, w).outcome.Returned? <==> Succeeds(db, job, w)
  {
    hide Generate, Admit, Strip, Loads, Asks, HhSilent, HhSaysClosed, FromSnapshot, NewRequest;
    if Admit(db, job, w.now).Returned? {
      GenerateOutcome(db, job, w);
    } else {
      NotAdmitted(db, job, w);
    }
    if Generate(db, job, w).outcome.Returned? {
      GenerateWrites(db, job, w);
    }
  }

  lemma RunMeetsHhErrorIff(db: Tables, job: Job, w: World)
    ensures RunJob(db, job, w).outcome == Raised(HHClient) <==> HhFails(db, job, w)
  {
    hide Generate, Admit, Strip, Loads, Asks, HhSilent, HhSaysClosed;
    if Admit(db, job, w.now).Returned? {
      GenerateOutcome(db, job, w);
    } else {
      NotAdmitted(db, job, w);
    }
  }

  /** The three ends of a run: a letter, a failed mark, or nothing. */
  lemma RunLeaves(db: Tables, job: Job, w: World)
    ensures !(Succeeds(db, job, w) && HhFails(db, job, w))
    ensures !Succeeds(db, job, w) && !HhFails(db, job, w) ==> Untouched(db, RunJob(db, job, w).db)
    ensures HhFails(db, job, w) && job.requestId.None? ==> Untouched(db, RunJob(db, job, w).db)
    ensures HhFails(db, job, w) && job.requestId.Some? ==> MarkedFailed(db, RunJob(db, job, w).db, job)
  {
    hide RunJob, Succeeds, HhFails;
    RunReturnsIff(db, job, w);
    RunMeetsHhErrorIff(db, job, w);
    if RunJob(db, job, w).outcome.Raised? {
      RunFailsAlone(db, job, w);
    }
  }

  /**
   The documentation promises a failed request for every hh.ru and LLM error and for closed vacancies; a run marks a
   pending request as failed exactly if hh.ru was asked and did not answer.
   */
  lemma PendingFailsIffHhFails(db: Tables, job: Job, w: World)
    requires job.requestId.Some? && job.requestId.value in db.requests
    requires db.requests[job.requestId.value].status == GenerationPending
    ensures var after := RunJob(db, job, w).db.requests;
      && job.requestId.value in after
      && (after[job.requestId.value].status == GenerationFailed <==> HhFails(db, job, w))
  {
    hide RunJob, Succeeds, HhFails, Generate, FromSnapshot;
    RunLeaves(db, job, w);
    if Succeeds(db, job, w) {
      RunReturnsIff(db, job, w);
      RunCommitsTogether(db, job, w);
    }
  }

  /** An unusable model answer and a closed vacancy leave everything as it was, the pending request included. */
  lemma OtherErrorsLeaveNoTrace(db: Tables, job: Job, w: World)
    requires !w.crash && Admit(db, job, w.now).Returned?
    ensures var r, loads := RunJob(db, job, w), Loads(db, job.url, w.now, w.hh);
      && (loads && w.llm.LlmUnavailable? ==> r.outcome == Raised(LLMClient) && Untouched(db, r.db))
      && (loads && w.llm.Completion? && Strip(w.llm.text) == "" ==>
            r.outcome == Raised(EmptyLLMResponse) && Untouched(db, r.db))
      && (Asks(db, job.url, w.now) && HhSaysClosed(w.hh) ==>
            r.outcome == Raised(VacancyClosed) && Untouched(db, r.db))
  {
    hide Generate, Admit, Strip, Loads, Asks, HhSilent, HhSaysClosed;
    GenerateOutcome(db, job, w);
  }

  /** A run changes something exactly if it writes a letter, or has a request to mark that is not marked already. */
  lemma RunLeavesAllIff(db: Tables, job: Job, w: World)
    ensures HhFails(db, job, w) && job.requestId.Some? ==> job.requestId.value in db.requests
    ensures Untouched(db, RunJob(db, job, w).db) <==>
            && !Succeeds(db, job, w)
            && (HhFails(db, job, w) && job.requestId.Some? ==>
                  db.requests[job.requestId.value].status == GenerationFailed)
  {
    hide RunJob, Succeeds, HhFails, Generate, FromSnapshot;
    RunLeaves(db, job, w);
    if Succeeds(db, job, w) {
      RunReturnsIff(db, job, w);
      RunCommitsTogether(db, job, w);
      assert |RunJob(db, job, w).db.letters| == |db.letters| + 1;
    } else if HhFails(db, job, w) && job.requestId.Some? {
      MarkingChanges(db, RunJob(db, job, w).db, job);
    }
  }

  lemma MarkingChanges(db: Tables, after: Tables, job: Job)
    requires MarkedFailed(db, after, job)
    ensures Untouched(db, after) <==> db.requests[job.requestId.value].status == GenerationFailed
  {
    var id := job.requestId.value;
    if db.requests[id].status == GenerationFailed {
      assert db.requests[id := db.requests[id]] == db.requests;
    } else {
      assert after.requests[id] != db.requests[id];
    }
  }
}
