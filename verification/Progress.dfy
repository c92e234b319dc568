/** An accepted request gets its letter. */
module Progress {
  import opened Wrappers
  import opened Text
  import opened Schema
  import opened Quota
  import opened VacancyCache
  import opened Generation
  import opened GenerationProofs
  import opened System
  import opened GenerationRuns
  import UrlScanner

  /** Nothing goes wrong outside: no crash, an open vacancy with its employer, and a model answer with text. */
  ghost predicate Cooperative(w: World) {
    && !w.crash
    && w.hh.vacancy.Response? && SaysOpen(w.hh.vacancy.payload) && w.hh.employer.Response?
    && w.llm.Completion? && Strip(w.llm.text) != ""
  }

  /** What an admitted enqueue has established. */
  lemma Reserved(db: Tables, u: Id, url: string, tone: Tone, now: Instant, cost: int)
    requires Reserve(db, u, url, tone, now, cost).Returned?
    ensures u in db.profiles && UrlScanner.ParseVacancyId(url).Returned?
    ensures var r := Reserve(db, u, url, tone, now, cost).value; r.request.userId == u && r.url == url
  {
    hide EnsureCanGenerate, UrlScanner.ParseVacancyId, VacancyId, AllowsTone;
  }

  lemma JobAdmitted(db: Tables, job: Job, now: Instant)
    requires job.userId in db.users && job.userId in db.profiles && db.users[job.userId].credits >= 1
    requires job.requestId.Some? && job.requestId.value in db.requests
    requires db.requests[job.requestId.value].userId == job.userId
    ensures Admit(db, job, now).Returned?
  {
    hide EnsureCanGenerate;
  }

  lemma DeliveryPays(db: Tables, job: Job, w: World)
    requires Succeeds(db, job, w) && job.charge && job.requestId.Some?
    ensures job.userId in db.users
    ensures var after := RunJob(db, job, w).db;
      && job.requestId.value in after.requests && after.requests[job.requestId.value].status == GenerationSucceeded
      && |after.letters| == |db.letters| + 1 && after.letters[..|db.letters|] == db.letters
      && after.letters[|db.letters|].requestId == job.requestId.value
      && job.userId in after.users
      && after.users[job.userId].credits == db.users[job.userId].credits - if job.cost > 0 then job.cost else 0
  {
    hide Generate, RunJob, FromSnapshot, Admit, GetOrLoad, Strip;
    RunReturnsIff(db, job, w);
    RunCommitsTogether(db, job, w);
    assert job.userId in db.users by { AdmittedRequest(db, job, w.now); }
  }

  // ---------- What stays while other steps happen ----------

  lemma DeliveryKeepsProfiles(db: Tables, job: Job, w: World)
    ensures RunJob(db, job, w).db.profiles == db.profiles
  {
    hide RunJob, Generate, FromSnapshot;
    DeliveryCases(db, job, w);
  }

  /** Profiles are not deleted, and pushed jobs stay where they are. */
  lemma StepKeepsProfilesAndJobs(cfg: Settings, s: State, step: Step)
    ensures forall u | u in s.db.profiles :: u in Apply(cfg, s, step).db.profiles
    ensures s.jobs <= Apply(cfg, s, step).jobs
  {
    if !TouchesQueue(step) {
      hide OnTables, AtMostOneRow;
      PlainStepsKeepGeneration(cfg, s.db, step);
    } else if step.DeliverJob? {
      hide RunJob, Heard;
      if step.job < |s.jobs| {
        DeliveryKeepsProfiles(s.db, s.jobs[step.job], step.w);
      }
    } else {
      hide Apply;
      QueueStepFrame(cfg, s, step);
    }
  }

  lemma {:induction false} ProfilesAndJobsStay(cfg: Settings, steps: seq<Step>, n: nat)
    requires n <= |steps|
    ensures forall u | u in Run(cfg, steps[..n]).db.profiles :: u in Run(cfg, steps).db.profiles
    ensures Run(cfg, steps[..n]).jobs <= Run(cfg, steps).jobs
    decreases |steps|
  {
    hide Apply;
    if n == |steps| {
      assert steps[..n] == steps;
    } else {
      var init := steps[..|steps| - 1];
      assert init[..n] == steps[..n];
      ProfilesAndJobsStay(cfg, init, n);
      StepKeepsProfilesAndJobs(cfg, Run(cfg, init), steps[|steps| - 1]);
    }
  }

  lemma BeginPushes(cfg: Settings, s: State, b: Step)
    requires b.BeginEnqueue? && Reserve(s.db, b.u, b.url, b.tone, b.now, b.cost).Returned?
    ensures var r := Reserve(s.db, b.u, b.url, b.tone, b.now, b.cost).value;
      Apply(cfg, s, b).jobs == s.jobs + [ApiJob(r, s.db.nextId, b.cost)]
  {
    hide Reserve;
  }

  /** The job of an accepted enqueue, whenever it is looked at. */
  lemma JobOfAccepted(cfg: Settings, steps: seq<Step>, n: nat)
    requires n < |steps| && steps[n].BeginEnqueue?
    requires var s, b := Run(cfg, steps[..n]), steps[n]; Reserve(s.db, b.u, b.url, b.tone, b.now, b.cost).Returned?
    ensures var s, b := Run(cfg, steps[..n]), steps[n];
      var r := Reserve(s.db, b.u, b.url, b.tone, b.now, b.cost).value;
      var jobs := Run(cfg, steps).jobs;
      |s.jobs| < |jobs| && jobs[|s.jobs|] == ApiJob(r, s.db.nextId, b.cost)
  {
    hide Apply, Reserve;
    var s, b := Run(cfg, steps[..n]), steps[n];
    assert steps[..n + 1][..n] == steps[..n];
    BeginPushes(cfg, s, b);
    ProfilesAndJobsStay(cfg, steps, n + 1);
    assert Run(cfg, steps[..n + 1]) == Apply(cfg, s, b);
  }

  /** An accepted, committed request whose user can pay. */
  ghost predicate Ready(db: Tables, id: Id, u: Id, cost: int) {
    id in db.requests && u in db.users && db.users[u].credits >= 1 && db.users[u].credits >= cost
  }

  lemma ReadySucceeds(db: Tables, job: Job, w: World)
    requires job.requestId.Some? && Ready(db, job.requestId.value, job.userId, job.cost)
    requires db.requests[job.requestId.value].userId == job.userId && job.userId in db.profiles
    requires UrlScanner.ParseVacancyId(job.url).Returned? && Cooperative(w)
    ensures Succeeds(db, job, w)
  {
    hide Admit, Asks, IsOpen, SaysOpen, Strip, UrlScanner.ParseVacancyId;
    JobAdmitted(db, job, w.now);
  }

  lemma AcceptedSucceeds(cfg: Settings, steps: seq<Step>, n: nat, w: World)
    requires n < |steps| && steps[n].BeginEnqueue? && Cooperative(w)
    requires var s, b := Run(cfg, steps[..n]), steps[n];
      && Reserve(s.db, b.u, b.url, b.tone, b.now, b.cost).Returned?
      && Ready(Run(cfg, steps).db, s.db.nextId, b.u, b.cost)
    ensures var s, b, now := Run(cfg, steps[..n]), steps[n], Run(cfg, steps);
      && |s.jobs| < |now.jobs|
      && var job := now.jobs[|s.jobs|];
        job.userId == b.u && job.requestId == Some(s.db.nextId) && job.charge && job.cost == b.cost
        && Succeeds(now.db, job, w)
  {
    hide Run, Reserve, Succeeds, Strip, IsOpen, SaysOpen, KeysInOrder, LettersMatch, Cooperative;
    var s, b, now := Run(cfg, steps[..n]), steps[n], Run(cfg, steps);
    Reserved(s.db, b.u, b.url, b.tone, b.now, b.cost);
    AcceptedIsPinned(cfg, steps, n);
    JobOfAccepted(cfg, steps, n);
    ProfilesAndJobsStay(cfg, steps, n);
    ReadySucceeds(now.db, now.jobs[|s.jobs|], w);
  }

  /**
   In every run: whatever steps follow an accepted enqueue, its job, delivered when the request is committed, the
   user can pay and nothing goes wrong outside, leaves the request succeeded, with one more letter, and charges the
   price once. The user needs one credit even where letters are free, because the service asks for one.
   */
  lemma AcceptedRequestGetsItsLetter(cfg: Settings, steps: seq<Step>, n: nat, w: World)
    requires n < |steps| && steps[n].BeginEnqueue? && Cooperative(w)
    requires var s, b := Run(cfg, steps[..n]), steps[n];
      && Reserve(s.db, b.u, b.url, b.tone, b.now, b.cost).Returned?
      && Ready(Run(cfg, steps).db, s.db.nextId, b.u, b.cost)
    ensures var s, b, now := Run(cfg, steps[..n]), steps[n], Run(cfg, steps);
      var id, after := s.db.nextId, DeliverTo(now, |s.jobs|, w).db;
      && id in after.requests && after.requests[id].status == GenerationSucceeded
      && |after.letters| == |now.db.letters| + 1
      && after.letters[..|now.db.letters|] == now.db.letters && after.letters[|now.db.letters|].requestId == id
      && b.u in after.users
      && after.users[b.u].credits == now.db.users[b.u].credits - if b.cost > 0 then b.cost else 0
  {
    hide Run, Reserve, RunJob, Succeeds, Heard, Admit, Cooperative;
    AcceptedSucceeds(cfg, steps, n, w);
    DeliveryPays(Run(cfg, steps).db, Run(cfg, steps).jobs[|Run(cfg, steps[..n]).jobs|], w);
  }
}
