/**
 The tables of the database, once as a value (`Tables`) and once as an object that a session updates
 (`Database`). Primary keys of users, employers, vacancies and requests come from sequences, which a
 rollback does not rewind; rows of the other tables are never deleted, so their position is their key.
 Instants count microseconds, as in `Calendar`.
 */
module Schema {
  import opened Wrappers
  import opened QuotaWindow

  type Id = nat
  type Instant = nat

  datatype Tone = Formal | Confident | Concise
  datatype Role = Regular | Admin
  datatype GenerationStatus = GenerationPending | GenerationSucceeded | GenerationFailed
  datatype PaymentStatus = Pending | Succeeded | Failed | Canceled | Refunded | RefundManualReview
  datatype TransactionType = WelcomeBonus | TopUp | Promo | Spend | Adjustment | Refund
  datatype PromoKind = FixedCredits | TopUpDiscount
  datatype SubscriptionStatus = Active | Expired

  /** How a user signs in: by e-mail through the API, or through Telegram. */
  datatype Contact = Email(address: string) | Telegram(id: int)

  datatype User = User(
    contact: Contact,
    role: Role,
    plan: Plan,
    credits: int,
    discountPercent: int,
    discountValidUntil: Option<Instant>,
    discountPromo: Option<string>)

  datatype Profile = Profile(id: Id, resumeText: string)

  /** A JSON value in a boolean position. */
  datatype Truth = Flag(flag: bool) | Words(text: string) | OtherValue(truthy: bool)

  datatype VacancyPayload = VacancyPayload(
    hhId: int, title: string, employerHhId: int, url: Option<string>, archived: Truth, typeId: Option<string>)

  datatype EmployerPayload = EmployerPayload(hhId: int, name: string, url: Option<string>)

  datatype Employer = Employer(
    hhId: int, name: string, url: Option<string>, payload: Option<EmployerPayload>, cachedAt: Option<Instant>)

  datatype Vacancy = Vacancy(
    hhId: int, employerId: Id, title: string, url: Option<string>, payload: Option<VacancyPayload>,
    cachedAt: Option<Instant>)

  datatype Request = Request(
    userId: Id, profileId: Id, vacancyId: Id, status: GenerationStatus, tone: Tone,
    snapshotText: Option<string>, snapshotTone: Option<Tone>, createdAt: Instant)

  /** `build_cover_letter_prompt`, uninterpreted: a prompt is what it was built from. */
  datatype Prompt = Prompt(resumeText: string, vacancy: Vacancy, employer: Employer, tone: Tone)

  datatype Letter = Letter(
    requestId: Id, userId: Id, profileId: Id, vacancyId: Id, employerId: Id, tone: Tone, text: string, prompt: Prompt)

  datatype Transaction = Transaction(
    userId: Id, kind: TransactionType, amount: int, balanceAfter: int,
    requestId: Option<Id>, intentId: Option<Id>, promo: Option<string>)

  datatype Intent = Intent(
    userId: Id, creditsAmount: int, amountRub: int, discountPercent: int, status: PaymentStatus)

  datatype PromoCode = PromoCode(
    kind: PromoKind, value: int, validUntil: Instant, maxActivations: int, activations: int, isActive: bool)

  datatype Redemption = Redemption(code: string, userId: Id)

  datatype Subscription = Subscription(
    userId: Id, plan: Plan, status: SubscriptionStatus, startsAt: Instant, expiresAt: Instant)

  datatype Tables = Tables(
    users: map<Id, User>,
    profiles: map<Id, Profile>,
    employers: map<Id, Employer>,
    vacancies: map<Id, Vacancy>,
    requests: map<Id, Request>,
    letters: seq<Letter>,
    transactions: seq<Transaction>,
    intents: seq<Intent>,
    promos: map<string, PromoCode>,
    redemptions: seq<Redemption>,
    subscriptions: seq<Subscription>,
    nextId: Id)

  const EMPTY := Tables(map[], map[], map[], map[], map[], [], [], [], map[], [], [], 1)

  datatype Error =
    | NotFound | Conflict | BadRequest | IntegrityError | UserAlreadyExists | InvalidAmount
    | UserNotFound | ProfileNotFound | RequestNotFound | InvalidPaidPlan
    | InsufficientCredits | QuotaExceeded | ForbiddenTone | InvalidVacancyUrl | MultipleVacancyUrls
    | VacancyClosed | HHClient | LLMClient | EmptyLLMResponse | Crash

  /** A finished transaction: the tables it leaves and what it answers. */
  datatype Finished<T> = Finished(db: Tables, outcome: Outcome<T, Error>)

  /** An exception leaves the session: nothing is kept except consumed sequence values. */
  function RolledBack<T>(before: Tables, after: Tables, error: Error): Finished<T> {
    Finished(before.(nextId := after.nextId), Raised(error))
  }

  class Database {
    var users: map<Id, User>
    var profiles: map<Id, Profile>
    var employers: map<Id, Employer>
    var vacancies: map<Id, Vacancy>
    var requests: map<Id, Request>
    var letters: seq<Letter>
    var transactions: seq<Transaction>
    var intents: seq<Intent>
    var promos: map<string, PromoCode>
    var redemptions: seq<Redemption>
    var subscriptions: seq<Subscription>
    var nextId: Id

    function Snapshot(): Tables
      reads this
    {
      Tables(users, profiles, employers, vacancies, requests, letters, transactions, intents, promos,
             redemptions, subscriptions, nextId)
    }

    constructor ()
      ensures Snapshot() == EMPTY
    {
      users, profiles, employers, vacancies, requests := map[], map[], map[], map[], map[];
      letters, transactions, intents, promos, redemptions, subscriptions := [], [], [], map[], [], [];
      nextId := 1;
    }

    method RestoreAccounts(before: Tables)
      modifies this`users, this`profiles, this`transactions, this`intents, this`promos, this`redemptions,
        this`subscriptions
      ensures users == before.users && profiles == before.profiles && transactions == before.transactions
      ensures intents == before.intents && promos == before.promos && redemptions == before.redemptions
      ensures subscriptions == before.subscriptions
    {
      users, profiles, transactions, intents := before.users, before.profiles, before.transactions, before.intents;
      promos, redemptions, subscriptions := before.promos, before.redemptions, before.subscriptions;
    }

    method RestoreGeneration(before: Tables)
      modifies this`employers, this`vacancies, this`requests, this`letters
      ensures employers == before.employers && vacancies == before.vacancies
      ensures requests == before.requests && letters == before.letters
    {
      employers, vacancies, requests, letters := before.employers, before.vacancies, before.requests, before.letters;
    }

    /** `session.rollback()`; sequences keep their values. */
    method Rollback(before: Tables)
      modifies this
      ensures Snapshot() == before.(nextId := old(nextId))
    {
      RestoreAccounts(before);
      RestoreGeneration(before);
    }

    method NextId() returns (id: Id)
      modifies this`nextId
      ensures id == old(nextId) && nextId == id + 1
    {
      id := nextId;
      nextId := nextId + 1;
    }
  }
}
