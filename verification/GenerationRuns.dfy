/** Letters, spend rows, statuses and snapshots in every run. */
module GenerationRuns {
  import opened Wrappers
  import opened Schema
  import opened Quota
  import opened VacancyCache
  import opened Generation
  import opened GenerationProofs
  import opened System
  import UrlScanner

  function LettersOf(letters: seq<Letter>, id: Id): nat {
    if letters == [] then 0
    else LettersOf(letters[..|letters| - 1], id) + if letters[|letters| - 1].requestId == id then 1 else 0
  }

  lemma LettersAppend(letters: seq<Letter>, letter: Letter, id: Id)
    ensures LettersOf(letters + [letter], id) == LettersOf(letters, id) + if letter.requestId == id then 1 else 0
  {
    assert (letters + [letter])[..|letters|] == letters;
  }

  // ---------- One spend row for each letter ----------

  /** A spend, as the ledger shows it or as a letter asks for it. */
  datatype Charge = Charge(userId: Id, requestId: Id, amount: int)

  /** The ledger rows that belong to requests. */
  function Charges(rows: seq<Transaction>): seq<Charge> {
    if rows == [] then [] else
      var t := rows[|rows| - 1];
      Charges(rows[..|rows| - 1]) + if t.requestId.Some? then [Charge(t.userId, t.requestId.value, t.amount)] else []
  }

  /** What letters ask for whose jobs carried these costs. */
  function Owed(letters: seq<Letter>, costs: seq<int>): seq<Charge>
    requires |letters| == |costs|
  {
    if letters == [] then [] else
      var n := |letters| - 1;
      Owed(letters[..n], costs[..n]) +
      if costs[n] > 0 then [Charge(letters[n].userId, letters[n].requestId, -costs[n])] else []
  }

  /** Each letter has a job that wrote it, for its user and, if it names one, for its request. */
  ghost predicate HasWriters(s: State) {
    && |s.writers| == |s.db.letters|
    && (forall i | 0 <= i < |s.writers| ::
          && s.writers[i] < |s.jobs|
          && s.jobs[s.writers[i]].userId == s.db.letters[i].userId
          && s.jobs[s.writers[i]].requestId in {None, Some(s.db.letters[i].requestId)})
  }

  /** The cost that the job of each letter carried. */
  ghost function Costs(s: State): (r: seq<int>)
    requires HasWriters(s)
    ensures |r| == |s.db.letters| && forall i | 0 <= i < |r| :: r[i] == s.jobs[s.writers[i]].cost
  {
    seq(|s.writers|, i requires 0 <= i < |s.writers| => s.jobs[s.writers[i]].cost)
  }

  /** The rows of requests are, in order, what the letters ask for; they are spends. */
  ghost predicate LettersPaid(s: State) {
    && HasWriters(s)
    && Charges(s.db.transactions) == Owed(s.db.letters, Costs(s))
    && (forall i | 0 <= i < |s.db.transactions| && s.db.transactions[i].requestId.Some? ::
          s.db.transactions[i].kind == Spend)
    && (forall k | 0 <= k < |s.jobs| :: s.jobs[k].charge)
  }

  lemma ChargesAppend(rows: seq<Transaction>, t: Transaction)
    ensures Charges(rows + [t]) ==
            Charges(rows) + if t.requestId.Some? then [Charge(t.userId, t.requestId.value, t.amount)] else []
  {
    assert (rows + [t])[..|rows|] == rows;
  }

  lemma OwedAppend(letters: seq<Letter>, costs: seq<int>, letter: Letter, cost: int)
    requires |letters| == |costs|
    ensures Owed(letters + [letter], costs + [cost]) ==
            Owed(letters, costs) + if cost > 0 then [Charge(letter.userId, letter.requestId, -cost)] else []
  {
    assert (letters + [letter])[..|letters|] == letters && (costs + [cost])[..|costs|] == costs;
  }

  /** Nothing was written, and at most a row for something else was added. */
  lemma NothingWritten(s: State, after: State)
    requires LettersPaid(s) && s.jobs <= after.jobs && after.writers == s.writers && after.db.letters == s.db.letters
    requires AtMostOneRow(s.db.transactions, after.db.transactions)
    requires forall k | |s.jobs| <= k < |after.jobs| :: after.jobs[k].charge
    ensures LettersPaid(after)
  {
    hide Charges, Owed;
    assert HasWriters(after);
    assert Costs(after) == Costs(s);
    if after.db.transactions != s.db.transactions {
      var t := after.db.transactions[|s.db.transactions|];
      assert after.db.transactions == s.db.transactions + [t];
      ChargesAppend(s.db.transactions, t);
    }
  }

  /** The letter and its spend row are committed together. */
  lemma WrittenAndPaid(s: State, after: State, k: nat, mid: Tables, w: World, saved: Saved)
    requires LettersPaid(s) && k < |s.jobs| && after.jobs == s.jobs && after.writers == s.writers + [k]
    requires Wrote(s.db, mid, s.jobs[k], w, saved) && Charged(mid, after.db, s.jobs[k], saved.letter.requestId)
    requires saved.letter.userId == s.jobs[k].userId
    ensures LettersPaid(after)
  {
    hide FromSnapshot, NewRequest, EnsureCanGenerate, Charges, Owed;
    var job := s.jobs[k];
    assert HasWriters(after);
    assert Costs(after) == Costs(s) + [job.cost];
    OwedAppend(s.db.letters, Costs(s), saved.letter, job.cost);
    if job.cost > 0 {
      var t := after.db.transactions[|s.db.transactions|];
      assert after.db.transactions == s.db.transactions + [t];
      ChargesAppend(s.db.transactions, t);
    }
  }

  /** A letter belongs to the user of its job. */
  lemma WrittenForUser(db: Tables, mid: Tables, job: Job, w: World, saved: Saved)
    requires Wrote(db, mid, job, w, saved)
    ensures saved.letter.userId == job.userId
  {
    hide EnsureCanGenerate;
  }

  lemma DeliveryPaid(s: State, k: nat, w: World)
    requires LettersPaid(s)
    ensures LettersPaid(DeliverTo(s, k, w))
  {
    hide RunJob, Wrote, Charged, Generate, LettersPaid, Heard;
    if k < |s.jobs| {
      var job, after := s.jobs[k], DeliverTo(s, k, w);
      DeliveryCases(s.db, job, w);
      if RunJob(s.db, job, w).outcome.Returned? {
        var g := Generate(s.db, job, w);
        WrittenForUser(s.db, g.db, job, w, g.outcome.value);
        WrittenAndPaid(s, after, k, g.db, w, g.outcome.value);
      } else {
        NothingWritten(s, after);
      }
    }
  }

  lemma StepPaid(cfg: Settings, s: State, step: Step)
    requires LettersPaid(s)
    ensures LettersPaid(Apply(cfg, s, step))
  {
    hide LettersPaid, AtMostOneRow;
    if !TouchesQueue(step) {
      hide OnTables;
      PlainStepsKeepGeneration(cfg, s.db, step);
      NothingWritten(s, Apply(cfg, s, step));
    } else if step.DeliverJob? {
      hide DeliverTo;
      DeliveryPaid(s, step.job, step.w);
    } else {
      hide Apply;
      NoMoreRow(s.db.transactions);
      QueueStepFrame(cfg, s, step);
      NothingWritten(s, Apply(cfg, s, step));
    }
  }

  /**
   In every reachable state, for any interleaving of enqueuers and workers, any prices, any number of deliveries of
   each job, and crashes anywhere: the ledger rows of requests are, in order, exactly one for each letter whose job
   carried a positive cost, for that letter's user and request, and of exactly minus that cost.
   */
  lemma {:induction false} EveryLetterIsPaid(cfg: Settings, steps: seq<Step>)
    ensures LettersPaid(Run(cfg, steps))
  {
    hide Apply;
    if steps != [] {
      EveryLetterIsPaid(cfg, steps[..|steps| - 1]);
      StepPaid(cfg, Run(cfg, steps[..|steps| - 1]), steps[|steps| - 1]);
    }
  }

  function ChargesOf(charges: seq<Charge>, id: Id): nat {
    if charges == [] then 0
    else ChargesOf(charges[..|charges| - 1], id) + if charges[|charges| - 1].requestId == id then 1 else 0
  }

  lemma ChargesOfAppend(charges: seq<Charge>, c: Charge, id: Id)
    ensures ChargesOf(charges + [c], id) == ChargesOf(charges, id) + if c.requestId == id then 1 else 0
  {
    assert (charges + [c])[..|charges|] == charges;
  }

  lemma {:induction false} OwedPerRequest(letters: seq<Letter>, costs: seq<int>, id: Id)
    requires |letters| == |costs|
    requires forall i | 0 <= i < |letters| && letters[i].requestId == id :: costs[i] > 0
    ensures ChargesOf(Owed(letters, costs), id) == LettersOf(letters, id)
  {
    if letters != [] {
      var n := |letters| - 1;
      OwedPerRequest(letters[..n], costs[..n], id);
      ChargesOfAppend(Owed(letters[..n], costs[..n]), Charge(letters[n].userId, letters[n].requestId, -costs[n]), id);
      assert Owed(letters[..n], costs[..n]) + [] == Owed(letters[..n], costs[..n]);
    }
  }

  /** So a request that only priced jobs can write for has as many spend rows as letters. */
  lemma AsManyRowsAsLetters(cfg: Settings, steps: seq<Step>, id: Id)
    requires var jobs := Run(cfg, steps).jobs;
      forall k | 0 <= k < |jobs| && jobs[k].requestId in {None, Some(id)} :: jobs[k].cost > 0
    ensures var db := Run(cfg, steps).db;
      ChargesOf(Charges(db.transactions), id) == LettersOf(db.letters, id)
  {
    hide Run, Charges, Owed, ChargesOf, LettersOf;
    EveryLetterIsPaid(cfg, steps);
    OwedPerRequest(Run(cfg, steps).db.letters, Costs(Run(cfg, steps)), id);
  }

  // ---------- Snapshots ----------

  /** Only the status of a request ever changes. */
  ghost predicate Frozen(a: map<Id, Request>, b: map<Id, Request>) {
    forall id | id in a :: id in b && b[id] == a[id].(status := b[id].status)
  }

  ghost predicate HasSnapshot(r: Request) {
    r.snapshotText.Some? && r.snapshotTone.Some?
  }

  /** Keys in use are below the next one, open reservations are not in the table, and all requests have snapshots. */
  ghost predicate KeysInOrder(s: State) {
    && (forall id | id in s.db.requests :: id < s.db.nextId && HasSnapshot(s.db.requests[id]))
    && (forall id | id in s.inflight :: id < s.db.nextId && id !in s.db.requests && HasSnapshot(s.inflight[id].request))
    && (forall k | 0 <= k < |s.jobs| && s.jobs[k].requestId.Some? :: s.jobs[k].requestId.value < s.db.nextId)
  }

  /** Every letter was written for an existing request, from its snapshot. */
  ghost predicate LettersMatch(db: Tables) {
    forall k | 0 <= k < |db.letters| ::
      db.letters[k].requestId in db.requests && FromSnapshot(db.letters[k], db.requests[db.letters[k].requestId])
  }

  lemma WrittenMatches(db: Tables, mid: Tables, after: Tables, job: Job, w: World, saved: Saved)
    requires LettersMatch(db) && Wrote(db, mid, job, w, saved) && Charged(mid, after, job, saved.letter.requestId)
    requires forall id | id in db.requests :: id < db.nextId
    ensures LettersMatch(after) && Frozen(db.requests, after.requests)
  {
    hide NewRequest, EnsureCanGenerate;
    assert after.letters == mid.letters && after.requests == mid.requests;
    forall k | 0 <= k < |after.letters|
      ensures after.letters[k].requestId in after.requests
              && FromSnapshot(after.letters[k], after.requests[after.letters[k].requestId])
    {
      if k < |db.letters| {
        assert after.letters[k] == db.letters[k];
      }
    }
  }

  lemma WrittenKeys(db: Tables, mid: Tables, after: Tables, job: Job, w: World, saved: Saved)
    requires Wrote(db, mid, job, w, saved) && Charged(mid, after, job, saved.letter.requestId)
        && db.nextId <= mid.nextId
    requires forall id | id in db.requests :: id < db.nextId && HasSnapshot(db.requests[id])
    ensures db.nextId <= after.nextId
    ensures forall id | id in after.requests :: id < after.nextId && HasSnapshot(after.requests[id])
    ensures forall id | id in after.requests && id !in db.requests :: id >= db.nextId
  {
    hide FromSnapshot, EnsureCanGenerate;
  }

  lemma DeliveryKeepsSnapshots(s: State, k: nat, w: World)
    requires KeysInOrder(s) && LettersMatch(s.db)
    ensures var after := DeliverTo(s, k, w);
      KeysInOrder(after) && LettersMatch(after.db) && Frozen(s.db.requests, after.db.requests)
  {
    hide RunJob, Wrote, Charged, Generate, Heard, FromSnapshot;
    if k < |s.jobs| {
      var job := s.jobs[k];
      DeliveryCases(s.db, job, w);
      GenerateAdvances(s.db, job, w);
      if RunJob(s.db, job, w).outcome.Returned? {
        var g := Generate(s.db, job, w);
        WrittenMatches(s.db, g.db, RunJob(s.db, job, w).db, job, w, g.outcome.value);
        WrittenKeys(s.db, g.db, RunJob(s.db, job, w).db, job, w, g.outcome.value);
      } else {
        RunFailsAlone(s.db, job, w);
        FailedMatches(s.db, RunJob(s.db, job, w).db, job);
      }
    }
  }

  lemma FailedMatches(db: Tables, after: Tables, job: Job)
    requires LettersMatch(db) && (Untouched(db, after) || MarkedFailed(db, after, job))
    ensures LettersMatch(after) && Frozen(db.requests, after.requests)
  {
    forall k | 0 <= k < |after.letters|
      ensures after.letters[k].requestId in after.requests
              && FromSnapshot(after.letters[k], after.requests[after.letters[k].requestId])
    {
      assert after.letters[k] == db.letters[k];
    }
  }

  lemma BeginKeepsKeys(s: State, u: Id, url: string, tone: Tone, now: Instant, cost: int)
    requires KeysInOrder(s)
    ensures KeysInOrder(Begin(s, u, url, tone, now, cost))
  {
    hide EnsureCanGenerate, UrlScanner.ParseVacancyId, VacancyId;
  }

  lemma CommitKeepsSnapshots(s: State, id: Id)
    requires KeysInOrder(s) && LettersMatch(s.db)
    ensures KeysInOrder(Commit(s, id)) && LettersMatch(Commit(s, id).db)
        && Frozen(s.db.requests, Commit(s, id).db.requests)
  {
    hide PlaceholderFits, FromSnapshot, InsertPlaceholder;
    if id in s.inflight && s.inflight[id].placeholder.Some? {
      InsertKeepsRequests(s.db, s.inflight[id].placeholder.value, id, s.inflight[id].url);
    }
  }

  lemma InsertKeepsRequests(db: Tables, hhId: int, id: Id, url: string)
    ensures var after := InsertPlaceholder(db, hhId, id, id, url);
      after == db.(employers := after.employers, vacancies := after.vacancies)
  {
  }

  /** All that the snapshots ask of a step. */
  ghost predicate KeepsSnapshots(s: State, after: State) {
    && KeysInOrder(after) && LettersMatch(after.db) && Frozen(s.db.requests, after.db.requests)
    && s.db.nextId <= after.db.nextId
  }

  lemma PlainStepKeepsSnapshots(cfg: Settings, s: State, step: Step)
    requires KeysInOrder(s) && LettersMatch(s.db) && !TouchesQueue(step)
    ensures KeepsSnapshots(s, s.(db := OnTables(cfg, s.db, step)))
  {
    hide OnTables, FromSnapshot, AtMostOneRow;
    PlainStepsKeepGeneration(cfg, s.db, step);
  }

  lemma StepKeepsSnapshots(cfg: Settings, s: State, step: Step)
    requires KeysInOrder(s) && LettersMatch(s.db)
    ensures KeepsSnapshots(s, Apply(cfg, s, step))
  {
    if !TouchesQueue(step) {
      hide KeepsSnapshots, OnTables;
      PlainStepKeepsSnapshots(cfg, s, step);
    } else {
      QueueStepKeepsSnapshots(cfg, s, step);
    }
  }

  lemma BeginKeepsSnapshots(s: State, u: Id, url: string, tone: Tone, now: Instant, cost: int)
    requires KeysInOrder(s) && LettersMatch(s.db)
    ensures KeepsSnapshots(s, Begin(s, u, url, tone, now, cost))
  {
    hide Begin, FromSnapshot;
    BeginKeepsKeys(s, u, url, tone, now, cost);
    BeginFrame(s, u, url, tone, now, cost);
  }

  lemma CommittingKeepsSnapshots(s: State, id: Id)
    requires KeysInOrder(s) && LettersMatch(s.db)
    ensures KeepsSnapshots(s, Commit(s, id))
  {
    hide Commit, KeysInOrder, LettersMatch, Frozen;
    CommitKeepsSnapshots(s, id);
    CommitFrame(s, id);
  }

  lemma DeliveringKeepsSnapshots(s: State, k: nat, w: World)
    requires KeysInOrder(s) && LettersMatch(s.db)
    ensures KeepsSnapshots(s, DeliverTo(s, k, w))
  {
    hide DeliverTo, KeysInOrder, LettersMatch, Frozen;
    DeliveryKeepsSnapshots(s, k, w);
    DeliveryAdvances(s, k, w);
  }

  /** Closing a transaction without a commit, and pushing a job without a request. */
  lemma OtherQueueStepKeepsSnapshots(s: State, inflight: map<Id, Reservation>, jobs: seq<Job>)
    requires KeysInOrder(s) && LettersMatch(s.db)
    requires forall id | id in inflight :: id in s.inflight && inflight[id] == s.inflight[id]
    requires jobs == s.jobs || (jobs != [] && jobs[..|jobs| - 1] == s.jobs && jobs[|jobs| - 1].requestId == None)
    ensures KeepsSnapshots(s, s.(inflight := inflight, jobs := jobs))
  {
    hide FromSnapshot, HasSnapshot;
  }

  lemma QueueStepKeepsSnapshots(cfg: Settings, s: State, step: Step)
    requires KeysInOrder(s) && LettersMatch(s.db) && TouchesQueue(step)
    ensures KeepsSnapshots(s, Apply(cfg, s, step))
  {
    hide DeliverTo, Begin, Commit, BotMayEnqueue, KeepsSnapshots, KeysInOrder, LettersMatch;
    match step
    case BeginEnqueue(u, url, tone, now, cost) => BeginKeepsSnapshots(s, u, url, tone, now, cost);
    case CommitEnqueue(id) => CommittingKeepsSnapshots(s, id);
    case DeliverJob(k, w) => DeliveringKeepsSnapshots(s, k, w);
    case AbortEnqueue(id) => OtherQueueStepKeepsSnapshots(s, s.inflight - {id}, s.jobs);
    case EnqueueByBot(u, url, tone, now, cost) =>
      OtherQueueStepKeepsSnapshots(s, s.inflight, s.jobs);
      OtherQueueStepKeepsSnapshots(s, s.inflight, s.jobs + [Job(u, url, tone, true, true, cost, None)]);
  }

  lemma BeginFrame(s: State, u: Id, url: string, tone: Tone, now: Instant, cost: int)
    ensures var after := Begin(s, u, url, tone, now, cost);
      && after.db == s.db.(nextId := after.db.nextId) && s.db.nextId <= after.db.nextId
      && after.delivered == s.delivered && after.log == s.log
  {
    hide Reserve;
  }

  lemma CommitFrame(s: State, id: Id)
    ensures var after := Commit(s, id);
      && after.db == s.db.(employers := after.db.employers, vacancies := after.db.vacancies,
          requests := after.db.requests)
      && after == s.(db := after.db, inflight := after.inflight)
  {
    hide PlaceholderFits;
  }

  lemma DeliveryAdvances(s: State, k: nat, w: World)
    ensures s.db.nextId <= DeliverTo(s, k, w).db.nextId
  {
    hide RunJob, Generate, Heard, Wrote, MarkedFailed;
    if k < |s.jobs| {
      GenerateAdvances(s.db, s.jobs[k], w);
      if RunJob(s.db, s.jobs[k], w).outcome.Returned? {
        RunCommitsTogether(s.db, s.jobs[k], w);
      } else {
        RunFailsAlone(s.db, s.jobs[k], w);
      }
    }
  }

  lemma {:induction false} SnapshotsInEveryRun(cfg: Settings, steps: seq<Step>)
    ensures KeysInOrder(Run(cfg, steps)) && LettersMatch(Run(cfg, steps).db)
  {
    hide Apply;
    if steps != [] {
      SnapshotsInEveryRun(cfg, steps[..|steps| - 1]);
      StepKeepsSnapshots(cfg, Run(cfg, steps[..|steps| - 1]), steps[|steps| - 1]);
    }
  }

  /** What the request with key `id` is, but for its status, or will be once its transaction commits. */
  ghost predicate Pinned(s: State, id: Id, request: Request) {
    && id < s.db.nextId
    && (id in s.db.requests ==> s.db.requests[id] == request.(status := s.db.requests[id].status))
    && (id in s.inflight ==> s.inflight[id].request == request)
  }

  lemma StepKeepsPinned(cfg: Settings, s: State, step: Step, id: Id, request: Request)
    requires KeysInOrder(s) && LettersMatch(s.db) && Pinned(s, id, request)
    ensures Pinned(Apply(cfg, s, step), id, request)
  {
    hide OnTables, DeliverTo, Begin, BotMayEnqueue, LettersMatch, AtMostOneRow;
    if !TouchesQueue(step) {
      PlainStepsKeepGeneration(cfg, s.db, step);
    } else {
      match step
      case BeginEnqueue(u, url, t, now, cost) => BeginKeepsPinned(s, u, url, t, now, cost, id, request);
      case CommitEnqueue(i) => CommitKeepsPinned(s, i, id, request);
      case DeliverJob(k, w) => DeliveryKeepsPinned(s, k, w, id, request);
      case _ =>
    }
  }

  lemma BeginKeepsPinned(s: State, u: Id, url: string, t: Tone, now: Instant, cost: int, id: Id, request: Request)
    requires Pinned(s, id, request)
    ensures Pinned(Begin(s, u, url, t, now, cost), id, request)
  {
    hide Reserve;
  }

  lemma CommitKeepsPinned(s: State, i: Id, id: Id, request: Request)
    requires Pinned(s, id, request)
    ensures Pinned(Commit(s, i), id, request)
  {
    hide PlaceholderFits;
  }

  lemma DeliveryKeepsPinned(s: State, k: nat, w: World, id: Id, request: Request)
    requires KeysInOrder(s) && LettersMatch(s.db) && Pinned(s, id, request)
    ensures Pinned(DeliverTo(s, k, w), id, request)
  {
    hide LettersMatch;
    DeliveryKeepsSnapshots(s, k, w);
    DeliveryAdvances(s, k, w);
    DeliveryCreatesLate(s, k, w);
    hide DeliverTo;
    DeliveryKeepsInflight(s, k, w);
  }

  lemma DeliveryKeepsInflight(s: State, k: nat, w: World)
    ensures DeliverTo(s, k, w).inflight == s.inflight && DeliverTo(s, k, w).jobs == s.jobs
  {
    hide RunJob, Heard;
  }

  /** A delivery creates requests only under new keys. */
  lemma DeliveryCreatesLate(s: State, k: nat, w: World)
    requires KeysInOrder(s)
    ensures forall id | id in DeliverTo(s, k, w).db.requests && id !in s.db.requests :: id >= s.db.nextId
  {
    hide RunJob, Wrote, Charged, Generate, Heard;
    if k < |s.jobs| {
      var job := s.jobs[k];
      DeliveryCases(s.db, job, w);
      GenerateAdvances(s.db, job, w);
      if RunJob(s.db, job, w).outcome.Returned? {
        var g := Generate(s.db, job, w);
        WrittenKeys(s.db, g.db, RunJob(s.db, job, w).db, job, w, g.outcome.value);
      }
    }
  }

  lemma {:induction false} PinnedInEveryRun(cfg: Settings, steps: seq<Step>, n: nat, id: Id, request: Request)
    requires n <= |steps| && Pinned(Run(cfg, steps[..n]), id, request)
    ensures Pinned(Run(cfg, steps), id, request)
    decreases |steps|
  {
    hide Apply, Pinned;
    if n == |steps| {
      assert steps[..n] == steps;
    } else {
      var init := steps[..|steps| - 1];
      assert init[..n] == steps[..n];
      PinnedInEveryRun(cfg, init, n, id, request);
      SnapshotsInEveryRun(cfg, init);
      StepKeepsPinned(cfg, Run(cfg, init), steps[|steps| - 1], id, request);
    }
  }

  lemma BeginPins(s: State, u: Id, url: string, tone: Tone, now: Instant, cost: int)
    requires KeysInOrder(s) && Reserve(s.db, u, url, tone, now, cost).Returned?
    ensures var request := Reserve(s.db, u, url, tone, now, cost).value.request;
      && u in s.db.profiles && request.userId == u
      && request.snapshotText == Some(s.db.profiles[u].resumeText) && request.snapshotTone == Some(tone)
      && Pinned(Begin(s, u, url, tone, now, cost), s.db.nextId, request)
  {
    hide EnsureCanGenerate, UrlScanner.ParseVacancyId, VacancyId;
  }

  /** Whatever steps follow an accepted enqueue, its request stays what it was reserved as. */
  lemma AcceptedIsPinned(cfg: Settings, steps: seq<Step>, n: nat)
    requires n < |steps| && steps[n].BeginEnqueue?
    requires var s, b := Run(cfg, steps[..n]), steps[n]; Reserve(s.db, b.u, b.url, b.tone, b.now, b.cost).Returned?
    ensures var s, b := Run(cfg, steps[..n]), steps[n];
      var request := Reserve(s.db, b.u, b.url, b.tone, b.now, b.cost).value.request;
      && b.u in s.db.profiles && request.userId == b.u
      && request.snapshotText == Some(s.db.profiles[b.u].resumeText) && request.snapshotTone == Some(b.tone)
      && Pinned(Run(cfg, steps), s.db.nextId, request)
  {
    hide Apply, Pinned, KeysInOrder, LettersMatch, Reserve;
    var s, b := Run(cfg, steps[..n]), steps[n];
    SnapshotsInEveryRun(cfg, steps[..n]);
    BeginPins(s, b.u, b.url, b.tone, b.now, b.cost);
    assert steps[..n + 1][..n] == steps[..n];
    ApplyBegin(cfg, s, b);
    PinnedInEveryRun(cfg, steps, n + 1, s.db.nextId,
                     Reserve(s.db, b.u, b.url, b.tone, b.now, b.cost).value.request);
  }

  /**
   Snapshot isolation: whatever steps follow an accepted enqueue, profile updates included, every letter ever
   written for its request was prompted with the resume text and the tone of that moment.
   */
  lemma SnapshotIsolation(cfg: Settings, steps: seq<Step>, n: nat, k: nat)
    requires n < |steps| && steps[n].BeginEnqueue? && k < |Run(cfg, steps).db.letters|
    requires var s, b := Run(cfg, steps[..n]), steps[n];
      && Reserve(s.db, b.u, b.url, b.tone, b.now, b.cost).Returned?
      && Run(cfg, steps).db.letters[k].requestId == s.db.nextId
    ensures var s, letter := Run(cfg, steps[..n]), Run(cfg, steps).db.letters[k];
      && steps[n].u in s.db.profiles
      && letter.prompt.resumeText == s.db.profiles[steps[n].u].resumeText
      && letter.prompt.tone == steps[n].tone == letter.tone
  {
    hide Run, Pinned, KeysInOrder, LettersMatch, Reserve;
    var s, b := Run(cfg, steps[..n]), steps[n];
    AcceptedIsPinned(cfg, steps, n);
    SnapshotsInEveryRun(cfg, steps);
    PinnedLetter(Run(cfg, steps), k, s.db.nextId, Reserve(s.db, b.u, b.url, b.tone, b.now, b.cost).value.request);
  }

  lemma ApplyBegin(cfg: Settings, s: State, b: Step)
    requires b.BeginEnqueue?
    ensures Apply(cfg, s, b) == Begin(s, b.u, b.url, b.tone, b.now, b.cost)
  {
    hide Begin;
  }

  lemma PinnedLetter(s: State, k: nat, id: Id, request: Request)
    requires k < |s.db.letters| && s.db.letters[k].requestId == id && LettersMatch(s.db) && Pinned(s, id, request)
    ensures FromSnapshot(s.db.letters[k], request)
  {
  }

  // ---------- At most one delivery ----------

  ghost predicate Once(s: State, step: Step) {
    step.DeliverJob? ==> step.job !in s.delivered
  }

  /** With single deliveries: jobs have requests of their own, which stay pending until the delivery. */
  ghost predicate OncePerRequest(s: State) {
    && (forall j, k | 0 <= j < k < |s.jobs| && s.jobs[j].requestId.Some? :: s.jobs[j].requestId != s.jobs[k].requestId)
    && (forall k | 0 <= k < |s.jobs| && k !in s.delivered && s.jobs[k].requestId.Some?
        && s.jobs[k].requestId.value in s.db.requests ::
          s.db.requests[s.jobs[k].requestId.value].status == GenerationPending)
    && (forall id | id in s.inflight :: s.inflight[id].request.status == GenerationPending)
    && (forall id | id in s.db.requests ::
          LettersOf(s.db.letters, id) == if s.db.requests[id].status == GenerationSucceeded then 1 else 0)
  }

  lemma {:induction false} NoLetterYet(letters: seq<Letter>, id: Id)
    requires forall k | 0 <= k < |letters| :: letters[k].requestId != id
    ensures LettersOf(letters, id) == 0
  {
    if letters != [] {
      NoLetterYet(letters[..|letters| - 1], id);
    }
  }

  lemma UnknownHasNoLetter(db: Tables, id: Id)
    requires LettersMatch(db) && id !in db.requests
    ensures LettersOf(db.letters, id) == 0
  {
    NoLetterYet(db.letters, id);
  }

  lemma WrittenOnce(db: Tables, mid: Tables, after: Tables, job: Job, w: World, saved: Saved, id: Id)
    requires Wrote(db, mid, job, w, saved) && Charged(mid, after, job, saved.letter.requestId) && LettersMatch(db)
    requires forall i | i in db.requests :: i < db.nextId
    requires job.requestId.Some? ==>
               job.requestId.value in db.requests && db.requests[job.requestId.value].status == GenerationPending
    requires forall i | i in db.requests ::
               LettersOf(db.letters, i) == if db.requests[i].status == GenerationSucceeded then 1 else 0
    requires id in after.requests
    ensures LettersOf(after.letters, id) == if after.requests[id].status == GenerationSucceeded then 1 else 0
    ensures id != saved.letter.requestId ==> id in db.requests && after.requests[id] == db.requests[id]
  {
    hide FromSnapshot, EnsureCanGenerate, LettersMatch;
    LettersAppend(db.letters, saved.letter, id);
    if id !in db.requests {
      UnknownHasNoLetter(db, id);
    }
  }

  lemma DeliveryOnce(s: State, k: nat, w: World)
    requires KeysInOrder(s) && LettersMatch(s.db) && OncePerRequest(s) && k !in s.delivered
    ensures OncePerRequest(DeliverTo(s, k, w))
  {
    hide RunJob, Wrote, Charged, Generate, Heard, LettersMatch, HasSnapshot;
    if k < |s.jobs| {
      var job, after := s.jobs[k], DeliverTo(s, k, w);
      DeliveryCases(s.db, job, w);
      if RunJob(s.db, job, w).outcome.Returned? {
        var g := Generate(s.db, job, w);
        WroteTarget(s.db, g.db, job, w, g.outcome.value);
        forall id | id in after.db.requests
          ensures LettersOf(after.db.letters, id) ==
                  if after.db.requests[id].status == GenerationSucceeded then 1 else 0
          ensures id != g.outcome.value.letter.requestId ==>
                    id in s.db.requests && after.db.requests[id] == s.db.requests[id]
        {
          WrittenOnce(s.db, g.db, after.db, job, w, g.outcome.value, id);
        }
      } else {
        RunFailsAlone(s.db, job, w);
      }
    }
  }

  lemma WroteTarget(db: Tables, mid: Tables, job: Job, w: World, saved: Saved)
    requires Wrote(db, mid, job, w, saved)
    ensures if job.requestId.Some? then job.requestId == Some(saved.letter.requestId)
        && saved.letter.requestId in db.requests
            else saved.letter.requestId >= db.nextId
  {
    hide FromSnapshot, NewRequest, EnsureCanGenerate;
  }

  lemma BeginOnce(s: State, u: Id, url: string, tone: Tone, now: Instant, cost: int)
    requires KeysInOrder(s) && OncePerRequest(s)
    ensures OncePerRequest(Begin(s, u, url, tone, now, cost))
  {
    hide EnsureCanGenerate, UrlScanner.ParseVacancyId, VacancyId, HasSnapshot, LettersOf;
  }

  lemma CommitOnce(s: State, id: Id)
    requires KeysInOrder(s) && LettersMatch(s.db) && OncePerRequest(s)
    ensures OncePerRequest(Commit(s, id))
  {
    hide PlaceholderFits, HasSnapshot, InsertPlaceholder, LettersMatch;
    if id in s.inflight {
      UnknownHasNoLetter(s.db, id);
      if s.inflight[id].placeholder.Some? {
        InsertKeepsRequests(s.db, s.inflight[id].placeholder.value, id, s.inflight[id].url);
      }
    }
  }

  lemma StepOnce(cfg: Settings, s: State, step: Step)
    requires KeysInOrder(s) && LettersMatch(s.db) && OncePerRequest(s) && Once(s, step)
    ensures OncePerRequest(Apply(cfg, s, step))
  {
    hide OnTables, DeliverTo, Begin, Commit, BotMayEnqueue, LettersMatch, KeysInOrder;
    if !TouchesQueue(step) {
      PlainStepsKeepGeneration(cfg, s.db, step);
    } else {
      match step
      case BeginEnqueue(u, url, tone, now, cost) => BeginOnce(s, u, url, tone, now, cost);
      case CommitEnqueue(id) => CommitOnce(s, id);
      case DeliverJob(k, w) => DeliveryOnce(s, k, w);
      case _ =>
    }
  }

  lemma {:induction false} OnceInEveryRun(cfg: Settings, steps: seq<Step>)
    requires Along(cfg, steps, Once)
    ensures OncePerRequest(Run(cfg, steps))
  {
    hide Apply, Once;
    if steps != [] {
      OnceInEveryRun(cfg, steps[..|steps| - 1]);
      SnapshotsInEveryRun(cfg, steps[..|steps| - 1]);
      StepOnce(cfg, Run(cfg, steps[..|steps| - 1]), steps[|steps| - 1]);
    }
  }

  /** When no job is delivered twice, a request has succeeded exactly if it has exactly one letter. */
  lemma SucceededIffOneLetter(cfg: Settings, steps: seq<Step>, id: Id)
    requires Along(cfg, steps, Once) && id in Run(cfg, steps).db.requests
    ensures var db := Run(cfg, steps).db;
      && (db.requests[id].status == GenerationSucceeded <==> LettersOf(db.letters, id) == 1)
      && LettersOf(db.letters, id) <= 1
  {
    hide Run;
    OnceInEveryRun(cfg, steps);
  }

  // ---------- Redelivery ----------

  /** The worker never looks at the status of the request it is given: a finished job runs again like a new one. */
  lemma StatusIsIgnored(db: Tables, job: Job, w: World, status: GenerationStatus)
    requires job.requestId.Some? && job.requestId.value in db.requests
    ensures RunJob(SetRequestStatus(db, job.requestId.value, status), job, w).outcome == RunJob(db, job, w).outcome
  {
    hide GetOrLoad, WriteLetter, EnsureCanGenerate;
    var id := job.requestId.value;
    var other := SetRequestStatus(db, id, status);
    GenerateIgnoresStatus(db, job, w, status);
    if Generate(db, job, w).outcome.Returned? {
      GenerateWrites(db, job, w);
      GenerateWrites(other, job, w);
    }
  }

  lemma GenerateIgnoresStatus(db: Tables, job: Job, w: World, status: GenerationStatus)
    requires job.requestId.Some? && job.requestId.value in db.requests
    ensures Generate(SetRequestStatus(db, job.requestId.value, status), job, w).outcome == Generate(db, job, w).outcome
  {
    hide GetOrLoad, EnsureCanGenerate;
    var id := job.requestId.value;
    var other := SetRequestStatus(db, id, status);
    LoadIgnoresRequests(db, other, job.url, w.now, w.hh);
    LoadKeepsRequests(db, job.url, w.now, w.hh);
    LoadKeepsRequests(other, job.url, w.now, w.hh);
    if Admit(db, job, w.now).Returned? {
      var loaded := GetOrLoad(db, job.url, w.now, w.hh);
      if loaded.outcome.Returned? {
        WriteLetterIgnoresStatus(loaded.db, GetOrLoad(other, job.url, w.now, w.hh).db, id, db.profiles[job.userId],
                                 loaded.outcome.value, job.tone, w.llm, status);
      }
    }
  }

  lemma WriteLetterIgnoresStatus(a: Tables, b: Tables, id: Id, profile: Profile, v: VacancyResult, tone: Tone, llm: Llm,
                                 status: GenerationStatus)
    requires id in a.requests && id in b.requests && b.requests[id] == a.requests[id].(status := status)
        && a.letters == b.letters
    ensures WriteLetter(a, id, profile, v, tone, llm).outcome == WriteLetter(b, id, profile, v, tone, llm).outcome
  {
  }

  lemma LoadIgnoresRequests(a: Tables, b: Tables, text: string, now: Instant, answers: Answers)
    requires b == a.(requests := b.requests)
    ensures GetOrLoad(b, text, now, answers).outcome == GetOrLoad(a, text, now, answers).outcome
  {
    hide UrlScanner.ParseVacancyId, IsOpen, SaysOpen;
  }

  /**
   One run of a request's job keeps "one letter if it succeeded, none otherwise" exactly if the request had not
   succeeded before, or neither a letter can be written nor hh.ru fails. A redelivered job can write a second letter,
   or mark a request that has its letter as failed.
   */
  lemma RedeliveryKeepsOneLetterIff(db: Tables, job: Job, w: World)
    requires job.requestId.Some? && job.requestId.value in db.requests
    requires var id := job.requestId.value;
      LettersOf(db.letters, id) == if db.requests[id].status == GenerationSucceeded then 1 else 0
    ensures var id, after := job.requestId.value, RunJob(db, job, w).db;
      && id in after.requests
      && (LettersOf(after.letters, id) == (if after.requests[id].status == GenerationSucceeded then 1 else 0) <==>
          || db.requests[id].status != GenerationSucceeded
          || (!Succeeds(db, job, w) && !HhFails(db, job, w)))
  {
    hide RunJob, Generate, FromSnapshot, Succeeds, HhFails;
    RunLeaves(db, job, w);
    if Succeeds(db, job, w) {
      RunReturnsIff(db, job, w);
      RunCommitsTogether(db, job, w);
      LettersAppend(db.letters, Generate(db, job, w).outcome.value.letter, job.requestId.value);
    }
  }
}
