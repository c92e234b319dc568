/**
 The vacancy and employer tables as a cache of hh.ru, shared with the enqueuing code that puts placeholder
 rows into the same tables.
 */
module VacancyCache {
  import opened Wrappers
  import opened Text
  import opened Schema
  import UrlScanner

  /** One hour. */
  const CACHE_TTL: nat := 3_600_000_000
  const OPEN_TYPE: string := "open"
  const TRUTHY_TEXT: string := "true"
  const PLACEHOLDER_EMPLOYER: string := "Pending hh.ru employer"
  const PLACEHOLDER_VACANCY: string := "Pending hh.ru vacancy"

  /** What hh.ru answers while a transaction runs. */
  datatype Fetched<T> = Response(payload: T) | Unavailable
  datatype Answers = Answers(vacancy: Fetched<VacancyPayload>, employer: Fetched<EmployerPayload>)

  datatype VacancyResult = VacancyResult(vacancyId: Id, vacancy: Vacancy, employerId: Id, employer: Employer,
        fromCache: bool)

  predicate IsTruthy(value: Truth) {
    match value
    case Flag(flag) => flag
    case Words(text) => Lower(text) == TRUTHY_TEXT
    case OtherValue(truthy) => truthy
  }

  predicate IsOpen(payload: VacancyPayload) {
    !IsTruthy(payload.archived) && payload.typeId == Some(OPEN_TYPE)
  }

  predicate IsFresh(cachedAt: Option<Instant>, now: Instant) {
    cachedAt.Some? && cachedAt.value >= now - CACHE_TTL
  }

  ghost function VacancyId(rows: map<Id, Vacancy>, hhId: int): (r: Option<Id>)
    ensures r.Some? ==> r.value in rows && rows[r.value].hhId == hhId
    ensures r.None? ==> forall id | id in rows :: rows[id].hhId != hhId
  {
    if exists id :: id in rows && rows[id].hhId == hhId then
      var id :| id in rows && rows[id].hhId == hhId;
      Some(id)
    else None
  }

  ghost function EmployerId(rows: map<Id, Employer>, hhId: int): (r: Option<Id>)
    ensures r.Some? ==> r.value in rows && rows[r.value].hhId == hhId
    ensures r.None? ==> forall id | id in rows :: rows[id].hhId != hhId
  {
    if exists id :: id in rows && rows[id].hhId == hhId then
      var id :| id in rows && rows[id].hhId == hhId;
      Some(id)
    else None
  }

  /** The uniqueness constraints of the two tables. */
  ghost predicate UniqueHhIds(db: Tables) {
    && (forall i, j | i in db.vacancies && j in db.vacancies && db.vacancies[i].hhId == db.vacancies[j].hhId :: i == j)
    && (forall i, j | i in db.employers && j in db.employers && db.employers[i].hhId == db.employers[j].hhId :: i == j)
  }

  // ---------- Upserts ----------

  function CachedEmployer(p: EmployerPayload, now: Instant): Employer {
    Employer(p.hhId, p.name, p.url, Some(p), Some(now))
  }

  function CachedVacancy(p: VacancyPayload, employerId: Id, now: Instant): Vacancy {
    Vacancy(p.hhId, employerId, p.title, p.url, Some(p), Some(now))
  }

  ghost function EmployerKey(db: Tables, hhId: int): Id {
    var existing := EmployerId(db.employers, hhId);
    if existing.Some? then existing.value else db.nextId
  }

  ghost function VacancyKey(db: Tables, hhId: int): Id {
    var existing := VacancyId(db.vacancies, hhId);
    if existing.Some? then existing.value else db.nextId
  }

  function Allocated(db: Tables, key: Id): Id {
    if key == db.nextId then key + 1 else db.nextId
  }

  ghost function UpsertEmployer(db: Tables, p: EmployerPayload, now: Instant): Tables {
    var key := EmployerKey(db, p.hhId);
    db.(employers := db.employers[key := CachedEmployer(p, now)], nextId := Allocated(db, key))
  }

  ghost function UpsertVacancy(db: Tables, p: VacancyPayload, employerId: Id, now: Instant): Tables {
    var key := VacancyKey(db, p.hhId);
    db.(vacancies := db.vacancies[key := CachedVacancy(p, employerId, now)], nextId := Allocated(db, key))
  }

  ghost function Store(db: Tables, p: VacancyPayload, q: EmployerPayload, now: Instant): (Tables, VacancyResult) {
    var employerId := EmployerKey(db, q.hhId);
    var withEmployer := UpsertEmployer(db, q, now);
    var vacancyId := VacancyKey(withEmployer, p.hhId);
    (UpsertVacancy(withEmployer, p, employerId, now),
     VacancyResult(vacancyId, CachedVacancy(p, employerId, now), employerId, CachedEmployer(q, now), false))
  }

  /** The cache hit, if there is one. */
  ghost function Hit(db: Tables, hhId: int, now: Instant): Option<VacancyResult> {
    var id := VacancyId(db.vacancies, hhId);
    if id.None? then None else
      var vacancy := db.vacancies[id.value];
      if IsFresh(vacancy.cachedAt, now) && vacancy.employerId in db.employers
         && IsFresh(db.employers[vacancy.employerId].cachedAt, now)
      then Some(VacancyResult(id.value, vacancy, vacancy.employerId, db.employers[vacancy.employerId], true))
      else None
  }

  ghost function Load(db: Tables, now: Instant, answers: Answers): Finished<VacancyResult> {
    match answers.vacancy
    case Unavailable => Finished(db, Raised(HHClient))
    case Response(p) =>
      if !IsOpen(p) then Finished(db, Raised(VacancyClosed))
      else match answers.employer
        case Unavailable => Finished(db, Raised(HHClient))
        case Response(q) =>
          var (after, result) := Store(db, p, q, now);
          Finished(after, Returned(result))
  }

  ghost function GetOrLoad(db: Tables, text: string, now: Instant, answers: Answers): Finished<VacancyResult> {
    match UrlScanner.ParseVacancyId(text)
    case Raised(InvalidVacancyUrl) => Finished(db, Raised(Error.InvalidVacancyUrl))
    case Raised(MultipleVacancyUrls) => Finished(db, Raised(Error.MultipleVacancyUrls))
    case Returned(hhId) =>
      var hit := Hit(db, hhId, now);
      if hit.Some? then Finished(db, Returned(hit.value)) else Load(db, now, answers)
  }

  // ---------- How a load ends, told before it is tried ----------

  /** "true", in any case. */
  predicate SpellsTrue(text: string) {
    |text| == 4 && text[0] in {'t', 'T'} && text[1] in {'r', 'R'} && text[2] in {'u', 'U'} && text[3] in {'e', 'E'}
  }

  /** What hh.ru has to say of an open vacancy: the open type, and none of the ways to call it archived. */
  predicate SaysOpen(p: VacancyPayload) {
    && p.typeId == Some("open")
    && p.archived != Flag(true)
    && p.archived != OtherValue(true)
    && !(p.archived.Words? && SpellsTrue(p.archived.text))
  }

  lemma OpenIffSaid(p: VacancyPayload)
    ensures IsOpen(p) <==> SaysOpen(p)
  {
    if p.archived.Words? {
      LowerSpellsTrue(p.archived.text);
    }
  }

  lemma LowerSpellsTrue(text: string)
    ensures Lower(text) == "true" <==> SpellsTrue(text)
  {
    if Lower(text) == "true" {
      forall i | 0 <= i < 4 ensures LowerChar(text[i]) == "true"[i] {
        assert Lower(text)[i] == LowerChar(text[i]);
      }
    }
  }

  /** A row of the cache that answers now: dated within the hour, like its employer. */
  ghost predicate AnswersNow(db: Tables, id: Id, hhId: int, now: Instant) {
    && id in db.vacancies && db.vacancies[id].hhId == hhId
    && Within(db.vacancies[id].cachedAt, now)
    && db.vacancies[id].employerId in db.employers
    && Within(db.employers[db.vacancies[id].employerId].cachedAt, now)
  }

  predicate Within(cachedAt: Option<Instant>, now: Instant) {
    cachedAt.Some? && now <= cachedAt.value + 3_600_000_000
  }

  /** A hit is the vacancy's row and its employer's, if both are at most an hour old. */
  lemma HitIff(db: Tables, hhId: int, now: Instant, id: Id)
    requires UniqueHhIds(db) && id in db.vacancies && db.vacancies[id].hhId == hhId
    ensures Hit(db, hhId, now) ==
            if AnswersNow(db, id, hhId, now)
            then Some(VacancyResult(id, db.vacancies[id], db.vacancies[id].employerId,
                                    db.employers[db.vacancies[id].employerId], true))
            else None
  {
  }

  /** hh.ru is asked: the text names one vacancy, and the cache has no fresh answer. */
  ghost predicate Asks(db: Tables, text: string, now: Instant) {
    var id := UrlScanner.ParseVacancyId(text);
    id.Returned? && Hit(db, id.value, now).None?
  }

  /** hh.ru does not answer, or not about the employer of an open vacancy. */
  predicate HhSilent(answers: Answers) {
    answers.vacancy.Unavailable? || (SaysOpen(answers.vacancy.payload) && answers.employer.Unavailable?)
  }

  predicate HhSaysClosed(answers: Answers) {
    answers.vacancy.Response? && !SaysOpen(answers.vacancy.payload)
  }

  ghost predicate Loads(db: Tables, text: string, now: Instant, answers: Answers) {
    && UrlScanner.ParseVacancyId(text).Returned?
    && (Asks(db, text, now) ==> !HhSilent(answers) && !HhSaysClosed(answers))
  }

  lemma LoadOutcome(db: Tables, text: string, now: Instant, answers: Answers)
    ensures var outcome := GetOrLoad(db, text, now, answers).outcome;
      && (outcome.Returned? <==> Loads(db, text, now, answers))
      && (outcome == Raised(HHClient) <==> Asks(db, text, now) && HhSilent(answers))
      && (outcome == Raised(VacancyClosed) <==> Asks(db, text, now) && HhSaysClosed(answers))
  {
    hide UrlScanner.ParseVacancyId, IsOpen, SaysOpen, Hit, Store;
    if answers.vacancy.Response? {
      OpenIffSaid(answers.vacancy.payload);
    }
  }

  /** An answer of hh.ru is refused as closed exactly if it calls the vacancy archived or gives it another type. */
  lemma ClosedIff(db: Tables, text: string, now: Instant, p: VacancyPayload, employer: Fetched<EmployerPayload>)
    requires Asks(db, text, now)
    ensures GetOrLoad(db, text, now, Answers(Response(p), employer)).outcome == Raised(VacancyClosed) <==>
            || p.archived == Flag(true)
            || p.archived == OtherValue(true)
            || (p.archived.Words? && SpellsTrue(p.archived.text))
            || p.typeId != Some("open")
  {
    hide UrlScanner.ParseVacancyId, IsOpen, Hit, Store;
    OpenIffSaid(p);
  }

  // ---------- Placeholders ----------

  function PlaceholderEmployer(hhId: int): Employer {
    Employer(-hhId, PLACEHOLDER_EMPLOYER, None, None, None)
  }

  function PlaceholderVacancy(hhId: int, employerId: Id, url: string): Vacancy {
    Vacancy(hhId, employerId, PLACEHOLDER_VACANCY, Some(url), None, None)
  }

  /** The insertion of both placeholder rows under the given keys. */
  function InsertPlaceholder(db: Tables, hhId: int, employerId: Id, vacancyId: Id, url: string): Tables {
    db.(employers := db.employers[employerId := PlaceholderEmployer(hhId)],
        vacancies := db.vacancies[vacancyId := PlaceholderVacancy(hhId, employerId, url)])
  }

  /** Whether the uniqueness constraints let the placeholder rows in. */
  ghost predicate PlaceholderFits(db: Tables, hhId: int) {
    VacancyId(db.vacancies, hhId).None? && EmployerId(db.employers, -hhId).None?
  }

  // ---------- The services, step by step ----------

  method FindVacancy(db: Database, hhId: int) returns (r: Option<Id>)
    requires UniqueHhIds(db.Snapshot())
    ensures r == VacancyId(db.vacancies, hhId)
  {
    if exists id :: id in db.vacancies && db.vacancies[id].hhId == hhId {
      var id :| id in db.vacancies && db.vacancies[id].hhId == hhId;
      return Some(id);
    }
    return None;
  }

  method FindEmployer(db: Database, hhId: int) returns (r: Option<Id>)
    requires UniqueHhIds(db.Snapshot())
    ensures r == EmployerId(db.employers, hhId)
  {
    if exists id :: id in db.employers && db.employers[id].hhId == hhId {
      var id :| id in db.employers && db.employers[id].hhId == hhId;
      return Some(id);
    }
    return None;
  }

  method SaveEmployer(db: Database, payload: EmployerPayload, cachedAt: Instant) returns (id: Id)
    requires UniqueHhIds(db.Snapshot()) && db.nextId !in db.employers
    modifies db
    ensures db.Snapshot() == UpsertEmployer(old(db.Snapshot()), payload, cachedAt)
    ensures id == EmployerKey(old(db.Snapshot()), payload.hhId)
  {
    var existing := FindEmployer(db, payload.hhId);
    if existing.None? {
      id := db.NextId();
      db.employers := db.employers[id :=
          Employer(payload.hhId, payload.name, payload.url, Some(payload), Some(cachedAt))];
      return;
    }
    id := existing.value;
    db.employers := db.employers[id := db.employers[id].(
      name := payload.name, url := payload.url, payload := Some(payload), cachedAt := Some(cachedAt))];
  }

  method SaveVacancy(db: Database, payload: VacancyPayload, employerId: Id, cachedAt: Instant) returns (id: Id)
    requires UniqueHhIds(db.Snapshot()) && db.nextId !in db.vacancies
    modifies db
    ensures db.Snapshot() == UpsertVacancy(old(db.Snapshot()), payload, employerId, cachedAt)
    ensures id == VacancyKey(old(db.Snapshot()), payload.hhId)
  {
    var existing := FindVacancy(db, payload.hhId);
    if existing.None? {
      id := db.NextId();
      db.vacancies := db.vacancies[id :=
        Vacancy(payload.hhId, employerId, payload.title, payload.url, Some(payload), Some(cachedAt))];
      return;
    }
    id := existing.value;
    db.vacancies := db.vacancies[id := db.vacancies[id].(
      title := payload.title, url := payload.url, payload := Some(payload), cachedAt := Some(cachedAt),
      employerId := employerId)];
  }

  method GetOrCreatePlaceholder(db: Database, hhId: int, id: Id, url: string) returns (vacancyId: Id)
    requires UniqueHhIds(db.Snapshot())
    modifies db
    ensures var existing := VacancyId(old(db.vacancies), hhId);
      if existing.Some? then vacancyId == existing.value && db.Snapshot() == old(db.Snapshot())
      else vacancyId == id && db.Snapshot() == InsertPlaceholder(old(db.Snapshot()), hhId, id, id, url)
  {
    hide PLACEHOLDER_EMPLOYER, PLACEHOLDER_VACANCY;
    var existing := FindVacancy(db, hhId);
    if existing.Some? {
      return existing.value;
    }
    db.employers := db.employers[id := PlaceholderEmployer(hhId)];
    db.vacancies := db.vacancies[id := PlaceholderVacancy(hhId, id, url)];
    return id;
  }

  method GetOrLoadVacancy(db: Database, messageText: string, now: Instant, answers: Answers)
      returns (r: Outcome<VacancyResult, Error>)
    requires TablesValid(db.Snapshot())
    modifies db
    ensures Finished(db.Snapshot(), r) == GetOrLoad(old(db.Snapshot()), messageText, now, answers)
  {
    var parsed := UrlScanner.ParseHhVacancyId(messageText);
    match parsed {
      case Raised(InvalidVacancyUrl) => return Raised(Error.InvalidVacancyUrl);
      case Raised(MultipleVacancyUrls) => return Raised(Error.MultipleVacancyUrls);
      case Returned(hhId) =>
        var cached := FindVacancy(db, hhId);
        if cached.Some? && IsFresh(db.vacancies[cached.value].cachedAt, now) {
          var vacancy := db.vacancies[cached.value];
          if vacancy.employerId in db.employers && IsFresh(db.employers[vacancy.employerId].cachedAt, now) {
            return Returned(VacancyResult(cached.value, vacancy, vacancy.employerId, db.employers[vacancy.employerId],
                true));
          }
        }
        if answers.vacancy.Unavailable? {
          return Raised(HHClient);
        }
        var payload := answers.vacancy.payload;
        if !IsOpen(payload) {
          return Raised(VacancyClosed);
        }
        if answers.employer.Unavailable? {
          return Raised(HHClient);
        }
        UpsertEmployerKeepsUnique(db.Snapshot(), answers.employer.payload, now);
        var employerId := SaveEmployer(db, answers.employer.payload, now);
        var vacancyId := SaveVacancy(db, payload, employerId, now);
        return Returned(VacancyResult(vacancyId, db.vacancies[vacancyId], employerId, db.employers[employerId], false));
    }
  }

  // ---------- The tables stay valid ----------

  /** Every vacancy has its employer, and a placeholder employer comes with its vacancy and is never fresh. */
  ghost predicate TablesValid(db: Tables) {
    && UniqueHhIds(db)
    && (forall id | id in db.vacancies :: id < db.nextId && db.vacancies[id].employerId in db.employers)
    && (forall id | id in db.employers :: id < db.nextId)
    && (forall id | id in db.employers && db.employers[id].hhId <= 0 ::
          db.employers[id].cachedAt == None && VacancyId(db.vacancies, -db.employers[id].hhId).Some?)
  }

  /** A valid state never refuses a placeholder that the lookup found missing. */
  lemma PlaceholderAlwaysFits(db: Tables, hhId: int)
    requires hhId >= 0 && TablesValid(db) && VacancyId(db.vacancies, hhId).None?
    ensures PlaceholderFits(db, hhId)
  {
  }

  lemma InsertPlaceholderKeepsValid(db: Tables, hhId: int, employerId: Id, vacancyId: Id, url: string)
    requires hhId >= 0 && TablesValid(db) && PlaceholderFits(db, hhId)
    requires employerId !in db.employers && vacancyId !in db.vacancies && employerId < db.nextId
        && vacancyId < db.nextId
    ensures TablesValid(InsertPlaceholder(db, hhId, employerId, vacancyId, url))
  {
    hide PLACEHOLDER_EMPLOYER, PLACEHOLDER_VACANCY, VacancyId, EmployerId, UniqueHhIds;
    var after := InsertPlaceholder(db, hhId, employerId, vacancyId, url);
    assert after.vacancies[vacancyId].hhId == hhId;
    InsertPlaceholderKeepsUnique(db, hhId, employerId, vacancyId, url);
    forall id | id in after.employers && after.employers[id].hhId <= 0
      ensures after.employers[id].cachedAt == None && VacancyId(after.vacancies, -after.employers[id].hhId).Some?
    {
      if id != employerId {
        VacancyStays(db.vacancies, after.vacancies, -db.employers[id].hhId);
      }
    }
  }

  lemma InsertPlaceholderKeepsUnique(db: Tables, hhId: int, employerId: Id, vacancyId: Id, url: string)
    requires UniqueHhIds(db) && PlaceholderFits(db, hhId)
    ensures UniqueHhIds(InsertPlaceholder(db, hhId, employerId, vacancyId, url))
  {
    hide PLACEHOLDER_EMPLOYER, PLACEHOLDER_VACANCY;
  }

  /** A vacancy that is found stays findable when rows keep their hh.ru ids. */
  lemma VacancyStays(a: map<Id, Vacancy>, b: map<Id, Vacancy>, hhId: int)
    requires VacancyId(a, hhId).Some?
    requires forall id | id in a :: id in b && b[id].hhId == a[id].hhId
    ensures VacancyId(b, hhId).Some?
  {
    var id := VacancyId(a, hhId).value;
    assert id in b && b[id].hhId == hhId;
  }

  lemma UpsertEmployerKeepsUnique(db: Tables, q: EmployerPayload, now: Instant)
    requires TablesValid(db)
    ensures var after := UpsertEmployer(db, q, now); UniqueHhIds(after) && after.nextId !in after.vacancies
  {
    hide VacancyId;
  }

  lemma UpsertEmployerKeepsValid(db: Tables, q: EmployerPayload, now: Instant)
    requires TablesValid(db) && q.hhId > 0
    ensures TablesValid(UpsertEmployer(db, q, now))
    ensures EmployerKey(db, q.hhId) in UpsertEmployer(db, q, now).employers
  {
    hide UniqueHhIds, VacancyId;
    UpsertEmployerKeepsUnique(db, q, now);
  }

  lemma UpsertVacancyKeepsUnique(db: Tables, p: VacancyPayload, employerId: Id, now: Instant)
    requires UniqueHhIds(db)
    ensures UniqueHhIds(UpsertVacancy(db, p, employerId, now))
  {
  }

  lemma UpsertVacancyFrame(db: Tables, p: VacancyPayload, employerId: Id, now: Instant)
    requires forall id | id in db.vacancies :: id < db.nextId
    ensures var key, after := VacancyKey(db, p.hhId), UpsertVacancy(db, p, employerId, now);
      && after == db.(vacancies := db.vacancies[key := CachedVacancy(p, employerId, now)], nextId := after.nextId)
      && key < after.nextId && db.nextId <= after.nextId
      && (key in db.vacancies ==> db.vacancies[key].hhId == p.hhId)
  {
  }

  lemma UpsertVacancyKeepsValid(db: Tables, p: VacancyPayload, employerId: Id, now: Instant)
    requires TablesValid(db) && employerId in db.employers
    ensures TablesValid(UpsertVacancy(db, p, employerId, now))
  {
    hide UniqueHhIds, VacancyId, EmployerId, UpsertVacancy, VacancyKey;
    var after := UpsertVacancy(db, p, employerId, now);
    UpsertVacancyKeepsUnique(db, p, employerId, now);
    UpsertVacancyFrame(db, p, employerId, now);
    forall id | id in after.employers && after.employers[id].hhId <= 0
      ensures VacancyId(after.vacancies, -after.employers[id].hhId).Some?
    {
      VacancyStays(db.vacancies, after.vacancies, -db.employers[id].hhId);
    }
  }

  /** hh.ru answers about what was asked, with positive ids. */
  ghost predicate Honest(hhId: int, answers: Answers) {
    && (answers.vacancy.Response? ==> answers.vacancy.payload.hhId == hhId)
    && (answers.vacancy.Response? && answers.employer.Response? ==>
          answers.employer.payload.hhId == answers.vacancy.payload.employerHhId)
    && (answers.employer.Response? ==> answers.employer.payload.hhId > 0)
  }

  ghost predicate HonestFor(text: string, answers: Answers) {
    var id := UrlScanner.ParseVacancyId(text);
    id.Returned? ==> Honest(id.value, answers)
  }

  /** No row is lost, no row changes its hh.ru id, and rows about other vacancies and employers stay as they are. */
  ghost predicate KeepsOtherRows(a: Tables, b: Tables, vacancy: int, employer: int) {
    && (forall id | id in a.vacancies ::
          && id in b.vacancies && b.vacancies[id].hhId == a.vacancies[id].hhId
          && (a.vacancies[id].hhId != vacancy ==> b.vacancies[id] == a.vacancies[id]))
    && (forall id | id in a.employers ::
          && id in b.employers && b.employers[id].hhId == a.employers[id].hhId
          && (a.employers[id].hhId != employer ==> b.employers[id] == a.employers[id]))
  }

  lemma StoreLeavesOthers(db: Tables, p: VacancyPayload, q: EmployerPayload, now: Instant)
    requires TablesValid(db)
    ensures KeepsOtherRows(db, Store(db, p, q, now).0, p.hhId, q.hhId)
  {
  }

  /** A new row takes one key of the sequence, an old one none. */
  lemma StoreTakesKeys(db: Tables, p: VacancyPayload, q: EmployerPayload, now: Instant)
    requires TablesValid(db)
    ensures Store(db, p, q, now).0.nextId ==
            db.nextId + (if exists id :: id in db.employers && db.employers[id].hhId == q.hhId then 0 else 1)
            + (if exists id :: id in db.vacancies && db.vacancies[id].hhId == p.hhId then 0 else 1)
  {
    hide UniqueHhIds;
  }

  /** A load changes at most the rows of the vacancy and the employer that hh.ru answered about. */
  lemma LoadLeavesOthers(db: Tables, text: string, now: Instant, answers: Answers)
    requires TablesValid(db)
    ensures var after := GetOrLoad(db, text, now, answers).db;
      || after == db
      || (answers.vacancy.Response? && answers.employer.Response?
          && KeepsOtherRows(db, after, answers.vacancy.payload.hhId, answers.employer.payload.hhId))
  {
    hide UrlScanner.ParseVacancyId, IsOpen, Hit, Store, TablesValid, KeepsOtherRows;
    if answers.vacancy.Response? && answers.employer.Response? {
      StoreLeavesOthers(db, answers.vacancy.payload, answers.employer.payload, now);
    }
  }

  lemma GetOrLoadKeepsValid(db: Tables, text: string, now: Instant, answers: Answers)
    requires TablesValid(db) && HonestFor(text, answers)
    ensures TablesValid(GetOrLoad(db, text, now, answers).db)
  {
    hide UrlScanner.ParseVacancyId, TablesValid, UpsertEmployer, UpsertVacancy;
    var id := UrlScanner.ParseVacancyId(text);
    if id.Returned? && answers.vacancy.Response? && answers.employer.Response? {
      var q := answers.employer.payload;
      UpsertEmployerKeepsValid(db, q, now);
      UpsertVacancyKeepsValid(UpsertEmployer(db, q, now), answers.vacancy.payload, EmployerKey(db, q.hhId), now);
    }
  }

  // ---------- The cache says what hh.ru said ----------

  /** The answers hh.ru gave, with the instant of the transaction that asked. */
  datatype Said = SaidVacancy(at: Instant, vacancy: VacancyPayload)
        | SaidEmployer(at: Instant, employer: EmployerPayload)

  /** What a load hears: nothing on a hit, and no employer for a closed vacancy. */
  ghost function Heard(db: Tables, log: seq<Said>, text: string, now: Instant, answers: Answers): seq<Said> {
    var id := UrlScanner.ParseVacancyId(text);
    if id.Raised? || Hit(db, id.value, now).Some? || answers.vacancy.Unavailable? then log
    else
      log + [SaidVacancy(now, answers.vacancy.payload)] +
      if SaysOpen(answers.vacancy.payload) && answers.employer.Response?
      then [SaidEmployer(now, answers.employer.payload)] else []
  }

  ghost predicate EmployerTrue(e: Employer, log: seq<Said>) {
    e.cachedAt.Some? ==>
      && e.payload.Some?
      && SaidEmployer(e.cachedAt.value, e.payload.value) in log
      && e.hhId == e.payload.value.hhId && e.name == e.payload.value.name && e.url == e.payload.value.url
  }

  ghost predicate VacancyTrue(db: Tables, v: Vacancy, log: seq<Said>) {
    v.cachedAt.Some? ==>
      && v.payload.Some?
      && SaidVacancy(v.cachedAt.value, v.payload.value) in log
      && SaysOpen(v.payload.value)
      && v.hhId == v.payload.value.hhId && v.title == v.payload.value.title && v.url == v.payload.value.url
      && v.employerId in db.employers && db.employers[v.employerId].hhId == v.payload.value.employerHhId
  }

  ghost predicate CacheTrue(db: Tables, log: seq<Said>) {
    && (forall id | id in db.employers :: EmployerTrue(db.employers[id], log))
    && (forall id | id in db.vacancies :: VacancyTrue(db, db.vacancies[id], log))
  }

  lemma LongerLog(db: Tables, log: seq<Said>, more: seq<Said>)
    requires CacheTrue(db, log)
    ensures CacheTrue(db, log + more)
  {
    forall id | id in db.employers ensures EmployerTrue(db.employers[id], log + more) {
      assert EmployerTrue(db.employers[id], log);
    }
    forall id | id in db.vacancies ensures VacancyTrue(db, db.vacancies[id], log + more) {
      assert VacancyTrue(db, db.vacancies[id], log);
    }
  }

  lemma InsertPlaceholderKeepsTrue(db: Tables, log: seq<Said>, hhId: int, employerId: Id, vacancyId: Id, url: string)
    requires CacheTrue(db, log) && employerId !in db.employers && vacancyId !in db.vacancies
    ensures CacheTrue(InsertPlaceholder(db, hhId, employerId, vacancyId, url), log)
  {
    var after := InsertPlaceholder(db, hhId, employerId, vacancyId, url);
    forall id | id in after.employers ensures EmployerTrue(after.employers[id], log) {
      assert id != employerId ==> EmployerTrue(db.employers[id], log);
    }
    forall id | id in after.vacancies ensures VacancyTrue(after, after.vacancies[id], log) {
      assert id != vacancyId ==> VacancyTrue(db, db.vacancies[id], log);
    }
  }

  lemma UpsertEmployerKeepsTrue(db: Tables, log: seq<Said>, q: EmployerPayload, now: Instant)
    requires CacheTrue(db, log) && TablesValid(db) && SaidEmployer(now, q) in log
    ensures CacheTrue(UpsertEmployer(db, q, now), log)
  {
    var after, key := UpsertEmployer(db, q, now), EmployerKey(db, q.hhId);
    forall id | id in after.employers ensures EmployerTrue(after.employers[id], log) {
      assert id != key ==> EmployerTrue(db.employers[id], log);
    }
    forall id | id in after.vacancies ensures VacancyTrue(after, after.vacancies[id], log) {
      assert VacancyTrue(db, db.vacancies[id], log);
    }
  }

  lemma UpsertVacancyKeepsTrue(db: Tables, log: seq<Said>, p: VacancyPayload, employerId: Id, now: Instant)
    requires CacheTrue(db, log) && SaidVacancy(now, p) in log && SaysOpen(p)
    requires employerId in db.employers && db.employers[employerId].hhId == p.employerHhId
    ensures CacheTrue(UpsertVacancy(db, p, employerId, now), log)
  {
    var after, key := UpsertVacancy(db, p, employerId, now), VacancyKey(db, p.hhId);
    forall id | id in after.employers ensures EmployerTrue(after.employers[id], log) {
      assert EmployerTrue(db.employers[id], log);
    }
    forall id | id in after.vacancies ensures VacancyTrue(after, after.vacancies[id], log) {
      assert id != key ==> VacancyTrue(db, db.vacancies[id], log);
    }
  }

  lemma GetOrLoadKeepsTrue(db: Tables, log: seq<Said>, text: string, now: Instant, answers: Answers)
    requires CacheTrue(db, log) && TablesValid(db) && HonestFor(text, answers)
    ensures CacheTrue(GetOrLoad(db, text, now, answers).db, Heard(db, log, text, now, answers))
  {
    hide UrlScanner.ParseVacancyId, TablesValid, CacheTrue, UpsertVacancy, IsOpen, SaysOpen, Hit;
    var heard := Heard(db, log, text, now, answers);
    if answers.vacancy.Response? {
      OpenIffSaid(answers.vacancy.payload);
    }
    LongerLog(db, log, heard[|log|..]);
    assert heard == log + heard[|log|..];
    var id := UrlScanner.ParseVacancyId(text);
    if id.Returned? && Hit(db, id.value, now).None? && answers.vacancy.Response? && SaysOpen(answers.vacancy.payload)
       && answers.employer.Response? {
      var p, q := answers.vacancy.payload, answers.employer.payload;
      assert SaidVacancy(now, p) in heard && SaidEmployer(now, q) in heard;
      UpsertEmployerKeepsTrue(db, heard, q, now);
      UpsertVacancyKeepsTrue(UpsertEmployer(db, q, now), heard, p, EmployerKey(db, q.hhId), now);
    }
  }

  /** Contents that hh.ru gave at most an hour ago, an open vacancy, and the employer its own payload names. */
  ghost predicate Vouched(r: VacancyResult, log: seq<Said>, now: Instant) {
    && r.vacancy.cachedAt.Some? && r.vacancy.cachedAt.value >= now - 3_600_000_000
    && r.employer.cachedAt.Some? && r.employer.cachedAt.value >= now - 3_600_000_000
    && r.vacancy.payload.Some? && SaidVacancy(r.vacancy.cachedAt.value, r.vacancy.payload.value) in log
    && r.employer.payload.Some? && SaidEmployer(r.employer.cachedAt.value, r.employer.payload.value) in log
    && r.vacancy == CachedVacancy(r.vacancy.payload.value, r.employerId, r.vacancy.cachedAt.value)
    && r.employer == CachedEmployer(r.employer.payload.value, r.employer.cachedAt.value)
    && SaysOpen(r.vacancy.payload.value)
    && r.employer.hhId == r.vacancy.payload.value.employerHhId
  }

  lemma HitSound(db: Tables, log: seq<Said>, hhId: int, now: Instant)
    requires CacheTrue(db, log) && Hit(db, hhId, now).Some?
    ensures Vouched(Hit(db, hhId, now).value, log, now)
    ensures Hit(db, hhId, now).value.vacancy.hhId == hhId
  {
    hide IsOpen, SaysOpen;
    var hit := Hit(db, hhId, now).value;
    assert EmployerTrue(db.employers[hit.employerId], log);
    assert VacancyTrue(db, db.vacancies[hit.vacancyId], log);
  }

  /** A cached result is the vacancy that was asked for, vouched for by hh.ru; a placeholder never is one. */
  lemma CacheSound(db: Tables, log: seq<Said>, text: string, now: Instant, answers: Answers, r: VacancyResult)
    requires CacheTrue(db, log) && GetOrLoad(db, text, now, answers).outcome == Returned(r) && r.fromCache
    ensures UrlScanner.ParseVacancyId(text) == Returned(r.vacancy.hhId)
    ensures Vouched(r, log, now)
    ensures GetOrLoad(db, text, now, answers).db == db
  {
    hide UrlScanner.ParseVacancyId, Vouched, Hit, CacheTrue, IsOpen, SaysOpen;
    HitSound(db, log, UrlScanner.ParseVacancyId(text).value, now);
  }

  /** A hit asks hh.ru nothing; without a hit, a successful result is exactly what hh.ru just answered. */
  lemma HitOrFreshAnswer(db: Tables, text: string, now: Instant, answers: Answers, other: Answers)
    requires var r := GetOrLoad(db, text, now, answers).outcome; r.Returned?
    ensures var r := GetOrLoad(db, text, now, answers);
      if r.outcome.value.fromCache then GetOrLoad(db, text, now, other) == r
      else
        && answers.vacancy.Response? && answers.employer.Response? && SaysOpen(answers.vacancy.payload)
        && r.outcome.value.vacancy == CachedVacancy(answers.vacancy.payload, r.outcome.value.employerId, now)
        && r.outcome.value.employer == CachedEmployer(answers.employer.payload, now)
        && r.outcome.value.vacancyId in r.db.vacancies
            && r.db.vacancies[r.outcome.value.vacancyId] == r.outcome.value.vacancy
        && r.outcome.value.employerId in r.db.employers
            && r.db.employers[r.outcome.value.employerId] == r.outcome.value.employer
  {
    hide UrlScanner.ParseVacancyId, IsOpen, SaysOpen;
    if answers.vacancy.Response? {
      OpenIffSaid(answers.vacancy.payload);
    }
  }

  lemma StoredIsHit(db: Tables, p: VacancyPayload, q: EmployerPayload, now: Instant, later: Instant)
    requires TablesValid(db) && q.hhId > 0
    ensures var (after, r) := Store(db, p, q, now);
      Hit(after, p.hhId, later) == if now >= later - 3_600_000_000 then Some(r.(fromCache := true)) else None
  {
    hide TablesValid, UpsertEmployer, UpsertVacancy;
    var withEmployer, employerId := UpsertEmployer(db, q, now), EmployerKey(db, q.hhId);
    UpsertEmployerKeepsValid(db, q, now);
    UpsertVacancyKeepsValid(withEmployer, p, employerId, now);
    UpsertedVacancy(withEmployer, p, employerId, now);
    UpsertedEmployer(db, q, now);
  }

  lemma UpsertedEmployer(db: Tables, q: EmployerPayload, now: Instant)
    ensures var key, after := EmployerKey(db, q.hhId), UpsertEmployer(db, q, now);
      key in after.employers && after.employers[key] == CachedEmployer(q, now)
  {
  }

  lemma UpsertedVacancy(db: Tables, p: VacancyPayload, employerId: Id, now: Instant)
    requires TablesValid(UpsertVacancy(db, p, employerId, now))
    ensures var key, after := VacancyKey(db, p.hhId), UpsertVacancy(db, p, employerId, now);
      && VacancyId(after.vacancies, p.hhId) == Some(key)
      && key in after.vacancies && after.vacancies[key] == CachedVacancy(p, employerId, now)
      && after.employers == db.employers
  {
    var key, after := VacancyKey(db, p.hhId), UpsertVacancy(db, p, employerId, now);
    assert after.vacancies[key].hhId == p.hhId;
  }

  /** A loaded vacancy is answered from the cache for exactly one hour, whatever hh.ru would say by then. */
  lemma CachedForOneHour(db: Tables, text: string, now: Instant, answers: Answers, later: Instant, other: Answers)
    requires TablesValid(db) && HonestFor(text, answers)
    requires var r := GetOrLoad(db, text, now, answers).outcome; r.Returned? && !r.value.fromCache
    ensures var r := GetOrLoad(db, text, now, answers);
      var again := GetOrLoad(r.db, text, later, other);
      if now >= later - 3_600_000_000 then again == Finished(r.db, Returned(r.outcome.value.(fromCache := true)))
      else again.outcome.Returned? ==> !again.outcome.value.fromCache
  {
    hide UrlScanner.ParseVacancyId, TablesValid, IsOpen, SaysOpen, Hit, Store;
    HitIsCached(db, text, now, answers);
    StoredIsHit(db, answers.vacancy.payload, answers.employer.payload, now, later);
    NotCached(GetOrLoad(db, text, now, answers).db, text, later, other);
  }

  lemma HitIsCached(db: Tables, text: string, now: Instant, answers: Answers)
    requires GetOrLoad(db, text, now, answers).outcome.Returned?
    ensures var id, r := UrlScanner.ParseVacancyId(text), GetOrLoad(db, text, now, answers);
      && id.Returned?
      && (!r.outcome.value.fromCache ==>
            && Hit(db, id.value, now).None? && answers.vacancy.Response? && answers.employer.Response?
            && r.db == Store(db, answers.vacancy.payload, answers.employer.payload, now).0
            && r.outcome.value == Store(db, answers.vacancy.payload, answers.employer.payload, now).1)
  {
    hide UrlScanner.ParseVacancyId, IsOpen, SaysOpen;
  }

  /** Only a hit is marked as cached. */
  lemma NotCached(db: Tables, text: string, now: Instant, answers: Answers)
    ensures var id, r := UrlScanner.ParseVacancyId(text), GetOrLoad(db, text, now, answers);
      id.Returned? && r.outcome.Returned? && r.outcome.value.fromCache ==> Hit(db, id.value, now).Some?
  {
    hide UrlScanner.ParseVacancyId, IsOpen, SaysOpen;
  }
}
