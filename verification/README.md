# CoverAI: a verified model

CoverAI writes cover letters for hh.ru vacancies. A user signs in through an API or a Telegram bot, buys credits,
and asks for letters; a worker fetches the vacancy, calls a language model, saves the letter and debits the price.
This project models the parts of that service that carry state and proves what holds over every input and every run.

| Files | What they model |
|---|---|
| `Text.dfy` | the two whitespace normalisers and the truncation of prompt texts |
| `HtmlCapture.dfy`, `HtmlStream.dfy`, `HtmlTree.dfy` | the event machine that reads hh.ru pages, its meaning on arbitrary event streams, and its meaning on document trees |
| `UrlScanner.dfy` | finding the one vacancy link in a chat message |
| `Calendar.dfy` | civil dates and the start of a quota period in Moscow time |
| `Schema.dfy` | the tables, as a value (`Tables`) and as an object that is updated in place (`Database`) |
| `Ledger.dfy`, `Payments.dfy`, `Promo.dfy`, `Subscriptions.dfy` | every writer of credits, discounts and plans |
| `VacancyCache.dfy` | the vacancy and employer tables as a one-hour cache, shared with placeholder rows |
| `Quota.dfy`, `Generation.dfy`, `GenerationProofs.dfy`, `GenerationTerms.dfy` | plan limits, both enqueuers, the worker's transaction, and the terms of a letter in the fields of the rows |
| `System.dfy` | all of it as one state machine: steps, runs, open transactions, redelivered jobs |
| `Books.dfy`, `IntentRuns.dfy`, `GenerationRuns.dfy`, `LetterRuns.dfy`, `QuotaRuns.dfy`, `CacheRuns.dfy`, `PromoRuns.dfy`, `DiscountRuns.dfy`, `SubscriptionRuns.dfy`, `EnqueueRuns.dfy`, `Progress.dfy` | what holds in every run, which enqueues are accepted after it, and that an accepted request gets its letter |
| `FailingRuns.dfy` | runs from the empty database in which documented promises fail |

Each operation appears twice: as a method that updates a `Database` step by step, and as a function on `Tables` that
the method's postcondition names; the theorems are about the functions and about runs built from them.
`dafny verify dfyconfig.toml` checks everything.

## How the program is read

- A database transaction is one atomic step that commits or is rolled back; a rollback restores every table but does
  not rewind the sequences that hand out keys. Enqueuing through the API is the exception: its job is in Redis before
  its transaction ends, so it is a step that pushes (`BeginEnqueue`) and a later one that commits or aborts. A commit
  is refused if another transaction has meanwhile inserted the same hh.ru vacancy.
- One transaction reads the clock once. The source dates a request's row by the database's clock and checks the quota by
  its own; what a difference between the two changes is `CheckKeepsQuotaIff`. A job may be delivered any number of
  times, to any number of workers, at any moment; a crash is an exit before the commit.
- hh.ru's answers, the model's completion and the clock are parameters. The prompt is an uninterpreted constructor
  over what it is built from. Resolving HTML character references is a parameter of the page reader.
- The price of a credit and the welcome bonus do not change within a run; the price of a letter may, every job carries
  its own.
- Instants are microseconds since 0001-01-01T00:00 UTC and Moscow is three hours ahead of UTC, as it has been since
  26 October 2014; dates are Gregorian with leap years.
- Case folding and decimal digits are those of ASCII.

## Where the code and its documentation disagree

The model follows the code. `docs/bdd-specification.md` promises more in these places, and the lemmas named here say
exactly when the promise is kept.

- Every hh.ru error, model error or closed vacancy leaves the request failed (lines 692 and 891): only an hh.ru that is
  asked and silent does, everything else rolls the mark back and the request stays pending (`PendingFailsIffHhFails`,
  `OtherErrorsLeaveNoTrace`, `StillPendingRun`).
- Parallel requests cannot get round a limit (line 760): no lock is taken, the check is not repeated at the commit
  (`CommitKeepsQuotaIff`, `ParallelEnqueuesExceedQuota`, `OverQuotaRun`) nor by the worker (`RedeliveryKeepsQuotaIff`,
  `RedeliveredOverQuotaRun`).
- A processed payment is not credited again (line 832): true while it is succeeded; after a refund, or an attempted
  one, the success webhook credits it again (`CreditedOnceIff`, `PromisedNetInRunIff`, `PaidTwiceRun`).
- Expired, disabled and exhausted promo codes are refused (lines 964 and 973): by the API, not by the bot
  (`BotRefusesIff`, `LimitKeptIff`, `BotPaysUsedUpCode`).
- A discount ends with its code, and an expired one is not charged but cleared (lines 912 and 945): the bot records no
  expiry when it redeems, and looks at none when it tops up (`ChargedAsPromisedIff`, `DiscountWithoutEndRun`,
  `BotChargesExpiredRun`).
- The standard limit counts the 30-day period that was paid for (line 717): the code counts the Moscow calendar month
  (`CountsPaidPeriodIff`).
- A renewal adds a month to the running period, and a change of plan runs for 30 days (lines 1044 and 1054): the expiry
  sweep takes the plan away when the first period ends (`SweepServesIff`, `LosesIff`, `LostRenewalRun`,
  `LostPlanChangeRun`).
- A finished job is not special: delivered again it writes and charges again (`StatusIsIgnored`,
  `RedeliveryKeepsOneLetterIff`, `SecondLetterRun`).

## Model

Theorems first, those about whole runs before those about one component; then the operations step by step.

| member | source | states |
|---|---|---|
| Books.BooksAlwaysKept | src/coverai/infra/db/models.py:67-74 | in every run: contacts are unique, no balance is negative, pending discounts lie between 0 and 100 percent, balance = opening + rows for every user, each row shows the balance it led to, one welcome bonus per regular user, every intent has an owner, every promo code's three counts agree |
| Books.DeliveryKeepsBooks | src/coverai/workers/tasks.py:78-134 | a worker run keeps the books, however it ends |
| GenerationRuns.EveryLetterIsPaid | src/coverai/workers/tasks.py:121-134 | in every run, for any interleaving, prices, redelivery and crash: the ledger rows of requests are, in order, exactly one for each letter whose job carried a positive cost, for that letter's user and request, of exactly minus that cost |
| GenerationRuns.AsManyRowsAsLetters | src/coverai/workers/tasks.py:164-187 | in every run, a request that only priced jobs can write for has as many spend rows as letters |
| GenerationRuns.SnapshotsInEveryRun | src/coverai/services/generation/cover_letter_service.py:106-124 | in every run each letter belongs to an existing request, which has snapshots that the letter was written from |
| GenerationRuns.SnapshotIsolation | src/coverai/services/generation/generation_queue_service.py:66-77 | whatever steps follow an accepted enqueue, a letter for its request was prompted with the resume text and tone of that moment |
| GenerationRuns.SucceededIffOneLetter | src/coverai/services/generation/cover_letter_service.py:102 | when no job is delivered twice, a request has succeeded exactly if it has exactly one letter |
| GenerationRuns.StatusIsIgnored | src/coverai/services/generation/cover_letter_service.py:126-141 | a run ends the same way whatever the status of its request was |
| GenerationRuns.RedeliveryKeepsOneLetterIff | src/coverai/services/generation/cover_letter_service.py:126-141 | one letter if succeeded and none otherwise is kept by a run exactly if the request had not succeeded before, or the run can neither write a letter nor be failed by hh.ru |
| LetterRuns.EveryLetterIsAnAnswer | src/coverai/services/generation/cover_letter_service.py:143-177 | in every run each letter's text is what the model answered to a delivery of the job that wrote it, without the whitespace around it, and is not empty |
| LetterRuns.LettersFitInEveryRun | src/coverai/services/generation/cover_letter_service.py:75-89 | in every run with honest hh.ru answers each letter was prompted with the vacancy its job's link names, which hh.ru had called open, and the employer which that vacancy names, and its keys lead to the rows of both; so do the requests of jobs |
| IntentRuns.NetInEveryRun | src/coverai/api/routes/payments.py:62-170 | in every run an intent's rows add up to its credits while succeeded or in manual review and to nothing otherwise, plus its credits for each success webhook that met manual review |
| IntentRuns.PromisedNetInRunIff | src/coverai/api/routes/payments.py:70-89 | the promised net holds exactly in the runs where no success webhook met manual review |
| IntentRuns.CreditedOnceIff | src/coverai/api/routes/payments.py:70-89 | in every run an intent has at most one top-up row and one refund row, as its status asks, exactly if its own success webhook never came back after a refund or an attempt at one |
| IntentRuns.StepSettles | src/coverai/api/routes/payments.py:58-170 | after any run, each webhook and the refund take an intent to the status they are named for, or leave it as it is |
| QuotaRuns.QuotaNeverExceeded | src/coverai/services/billing/quota_service.py:80-90 | with serialised transactions, single deliveries and a constant plan, no Moscow day or month ever holds more counted requests than the plan allows, over both enqueuing paths |
| QuotaRuns.RedeliveryKeepsQuotaIff | src/coverai/workers/tasks.py:113-114 | any run of a request's own job keeps the quota exactly if it cannot write a letter, or the request had not failed, or its period has room |
| QuotaRuns.CommitKeepsQuotaIff | src/coverai/services/generation/generation_queue_service.py:64-77 | a commit keeps the quota exactly if the period still has room then |
| CacheRuns.CacheKeptInEveryRun | src/coverai/services/vacancy/vacancy_service.py:30-120 | in every run with honest hh.ru answers the two tables are valid and true, and open reservations hold unused keys |
| CacheRuns.CacheSoundInEveryRun | src/coverai/services/vacancy/vacancy_service.py:38-53 | in every such run a cached result is vouched for by what hh.ru said within the last hour |
| CacheRuns.CommitAcceptedIff | src/coverai/services/generation/generation_queue_service.py:102-126 | in every run with honest answers the commit of an open enqueue is accepted exactly if nobody has meanwhile inserted the vacancy it wants to insert |
| PromoRuns.LimitsKeptWithoutBot | src/coverai/api/helpers/promo.py:42-46 | in every run without bot redemptions no code is activated more often than it may be |
| PromoRuns.LimitKeptIff | src/coverai/api/helpers/promo.py:42-46 | in every run a code is within its limit exactly if the bot never paid it out with no activation left |
| DiscountRuns.ChargedAsPromisedIff | docs/bdd-specification.md:945-954 | in every run a pending discount is that of the code redeemed last; the amount the API asks is the one that code promises exactly if the expiry on record and the one of the code agree about now, the bot's exactly if the code is still valid, or if credits cost nothing |
| DiscountRuns.ApiUsersAreChargedAsPromised | docs/bdd-specification.md:912-926 | in every run, whoever redeems through the API only is always charged as promised there |
| DiscountRuns.PriceInEveryRun | src/coverai/api/routes/payments.py:33-35 | in every run every intent costs its credits at the price of one less its own discount, which lies between 0 and 100 percent, rounded down to whole roubles; so between nothing and the full price |
| SubscriptionRuns.PaidPlanHasPeriod | src/coverai/services/billing/billing_service.py:47-55 | in every run, whoever is on a paid plan, the administrator apart, has an active period of that plan |
| SubscriptionRuns.ServedUnlessLost | src/coverai/services/billing/billing_service.py:58-76 | whoever has an active period is on a paid plan, in every run where no sweep ends one of several running periods and no administrator one of several |
| SubscriptionRuns.LosesIff | src/coverai/services/billing/billing_service.py:66-74 | from a user on the plan paid for, exactly those two steps lead to one who is not |
| SubscriptionRuns.StepServesIff | src/coverai/api/routes/admin.py:102-117 | for every step and state, whether a user has the paid plan that an active period calls for afterwards |
| Progress.AcceptedRequestGetsItsLetter | src/coverai/services/generation/generation_queue_service.py:43-85 | in every run, whatever steps follow an accepted enqueue: its job, delivered when the request is committed, the user can pay and nothing goes wrong outside, succeeds the request, adds one letter and charges the price once |
| EnqueueRuns.EnqueueInRunIff | src/coverai/services/generation/generation_queue_service.py:43-85 | after every run with honest answers, an enqueue that nothing interrupts is accepted exactly for a user with a profile who can pay, has the tone in the plan, names one vacancy and is below the limit of the plan; it leaves the pushed job and a pending request with the snapshots, about the vacancy of the link, and a refused one leaves nothing |
| EnqueueRuns.SerialCommit | src/coverai/services/generation/generation_queue_service.py:102-126 | a commit that directly follows its push is accepted and inserts the reserved request |
| EnqueueRuns.AbortedNeverCommits | src/coverai/infra/db/session.py:26-32 | an aborted enqueue leaves its job in the queue and the tables alone, and no later commit inserts its request |
| EnqueueRuns.BotPushIff | src/coverai/bot/runtime.py:253-288 | after any run, the bot pushes a job without a request exactly for users who can pay, on the free plan only without a pending or succeeded request of this UTC day |
| FailingRuns.ParallelEnqueuesExceedQuota | docs/bdd-specification.md:760-769 | after any run with honest answers, two overlapping enqueues of a free user that would each be admitted are both admitted, both commit and exceed the limit, unless both want to insert the same vacancy |
| FailingRuns.OverQuotaRun | docs/bdd-specification.md:760-769 | a run from the empty database in which that happens, for any two vacancies |
| FailingRuns.RedeliveredOverQuotaRun | src/coverai/workers/tasks.py:113-114 | a run from the empty database in which a failed job, delivered again, takes a free user over the limit |
| FailingRuns.SecondLetterRun | src/coverai/services/generation/cover_letter_service.py:126-141 | a run from the empty database in which one job, delivered twice, writes two letters and leaves exactly two spend rows of its cost |
| FailingRuns.PaidTwiceRun | docs/bdd-specification.md:832-839 | a run from the empty database in which one payment is credited twice and its rows no longer add up |
| FailingRuns.BotPaysUsedUpCode | docs/bdd-specification.md:964-979 | a run from the empty database that uses a code up; after its expiry the API refuses it and the bot pays it out beyond its limit |
| FailingRuns.DiscountWithoutEndRun | docs/bdd-specification.md:945-954 | a run from the empty database in which the API asks the reduced amount after the code has expired, because the bot recorded no expiry |
| FailingRuns.BotChargesExpiredRun | src/coverai/bot/runtime.py:200-211 | a run from the empty database after which, at the same time, the API asks the full price and the bot the one reduced by the expired discount |
| FailingRuns.StillPendingRun | docs/bdd-specification.md:891-899 | a run from the empty database in which a model error, an empty answer or a closed vacancy leaves the request pending |
| FailingRuns.LostRenewalRun | docs/bdd-specification.md:1044-1051 | a run from the empty database in which a renewed user is on the free plan while the second period runs |
| FailingRuns.LostPlanChangeRun | docs/bdd-specification.md:1054-1062 | a run from the empty database in which a change to the pro plan is undone by the end of an older period |
| FailingRuns.LostByAdminRun | src/coverai/api/routes/admin.py:102-117 | a run from the empty database in which the administrator ends one of two periods and the plan with both |
| GenerationProofs.RunCommitsTogether | src/coverai/workers/tasks.py:121-134 | a run that returns committed one letter, its request's success and the debit together |
| GenerationProofs.RunFailsAlone | src/coverai/workers/tasks.py:108-134 | a run that raises inside its transaction leaves everything alone, except that an hh.ru error marks its own request failed |
| GenerationProofs.RunReturnsIff | src/coverai/workers/tasks.py:78-134 | a run returns a letter exactly if it is admitted, the vacancy loads, the model answers with text, the user can pay and nothing crashes |
| GenerationProofs.PendingFailsIffHhFails | docs/bdd-specification.md:891-899 | a run marks a pending request as failed exactly if it does not crash, is admitted, has to ask hh.ru, and hh.ru does not answer |
| GenerationProofs.OtherErrorsLeaveNoTrace | docs/bdd-specification.md:692-698 | an unreachable model, an empty answer and a closed vacancy raise their errors and leave every table as it was |
| GenerationProofs.RunLeavesAllIff | src/coverai/workers/tasks.py:108-134 | a run changes something exactly if it writes a letter, or hh.ru fails it and its request is not marked failed already |
| GenerationTerms.LetterIsTheAnswer | src/coverai/services/generation/cover_letter_service.py:143-177 | a run that returns added one letter: the model's answer without the whitespace around it, prompted with the dated vacancy row that the job's link names, the employer row it points to, and the resume and tone of the request or else of the user and the job; its keys are those of the request and of that employer |
| GenerationTerms.UnusableAnswerMarks | src/coverai/services/generation/cover_letter_service.py:91-98 | inside the open transaction a model error, and an answer that is nothing but whitespace, mark the request as failed and write nothing else |
| GenerationTerms.RunErrors | src/coverai/workers/tasks.py:78-134 | a crash, a job that is not admitted, a bad link and a balance below the price end a run with their own errors, and nothing is kept |
| GenerationTerms.AdmittedIff | src/coverai/services/generation/cover_letter_service.py:62-77 | which jobs the service admits, in the fields of the rows, and the error of each other one; a job that brings its request is not checked against the quota |
| GenerationTerms.EnqueueAcceptedIff | src/coverai/services/generation/generation_queue_service.py:50-64 | which enqueues the API accepts, in the fields of the rows, and the error of each other one |
| GenerationTerms.ReservedTerms | src/coverai/services/generation/generation_queue_service.py:65-77 | an accepted request is pending, carries the user's profile and its snapshots, and is about the row of the vacancy the link names, or the row to be inserted if there is none |
| GenerationTerms.InsertedTerms | src/coverai/services/generation/generation_queue_service.py:102-126 | a commit inserts that request and, for a vacancy not yet there, an undated pair of placeholder rows, the employer under the negative hh.ru id |
| GenerationTerms.BotEnqueueIff | src/coverai/bot/runtime.py:253-278 | the bot pushes a job exactly for users who can pay, on the free plan only if they have no pending or succeeded request of this UTC day |
| HtmlTree.MachineReadsForest | src/coverai/clients/hh.py:334-387 | from any open captures, the events of a document forest leave every open capture at its depth, extended by the forest's text and first link, and publish exactly the marked elements' subtree texts and first links, in the order of their end tags |
| HtmlTree.DocumentTexts | src/coverai/clients/hh.py:324-387 | reading a whole document leaves no capture open, and every data-qa key holds the texts and links of its marked elements |
| HtmlTree.DocumentWords | src/coverai/clients/hh.py:363-380 | reading a whole document without character references: for every data-qa key the published texts are the words of its marked elements' character data, in document order and one space apart, elements without words left out, and the published links the first ones |
| HtmlTree.MachineReadsScripts | src/coverai/clients/hh.py:344-366 | a document adds exactly its JSON-LD scripts, each all of its character data, in document order |
| HtmlStream.MachineComputesStream | src/coverai/clients/hh.py:334-387 | on every event stream, balanced or not: a capture is open until end tags since its opening outnumber start tags, and what is published is what lies in between, told without a stack |
| HtmlStream.AtMostOneClosed | src/coverai/clients/hh.py:368-380 | no end tag of any stream closes two captures |
| HtmlStream.MachineComputesScripts | src/coverai/clients/hh.py:344-366 | on every stream the collected scripts are all the character data between the last JSON-LD start tag and the next script end tag |
| HtmlStream.MachineComputesMeta | src/coverai/clients/hh.py:389-393 | on every stream each meta key has the content of the last meta tag that names it, by property or else by name, in any case |
| HtmlCapture.EndTagPopsInnermost | src/coverai/clients/hh.py:363-380 | an end tag completes at most the innermost capture, removal by field equality removes that one, and nothing else changes |
| HtmlCapture.RunKeepsStack | src/coverai/clients/hh.py:316-380 | after every event stream open captures have positive, strictly decreasing depths |
| HtmlCapture.RunConcat | src/coverai/clients/hh.py:334-387 | reading two streams in a row is reading their concatenation |
| HtmlCapture.TagMeaning | src/coverai/clients/hh.py:339-360 | the last attribute of a name counts, in any case: which elements are marked, what their link is, and which scripts are JSON-LD |
| HtmlCapture.PublishedWords | src/coverai/clients/hh.py:376-378 | the text of a completed capture is the words of its pieces, in order and one space apart |
| HtmlCapture.JoinConcat | src/coverai/clients/hh.py:376 | the separator stands once between two lists of pieces, and none of them is lost |
| HtmlCapture.JoinOne | src/coverai/clients/hh.py:376 | no pieces give the empty text, one piece gives itself |
| HtmlCapture.JoinIsGlue | src/coverai/clients/hh.py:365 | joined without a separator, pieces stand one behind the other |
| UrlScanner.FindUrlsSplits | src/coverai/services/config.py:94 | a character that no URL contains cuts the scan in two independent scans |
| UrlScanner.FirstMatch | src/coverai/services/config.py:94 | the first match starts where a scheme first has a URL character behind it, runs to the first whitespace, angle bracket or parenthesis, and the scan goes on behind it |
| UrlScanner.NoMatch | src/coverai/services/config.py:94 | a text in which no match starts has none |
| UrlScanner.StripTrailingIs | src/coverai/services/vacancy/hh_url_parser.py:17 | exactly the trailing punctuation is cut off |
| UrlScanner.VacancyIdsSplit | src/coverai/services/vacancy/hh_url_parser.py:13-35 | the vacancies of two texts joined by whitespace are those of the first, then those of the second |
| UrlScanner.VacancyUrlRoundTrip | src/coverai/services/vacancy/hh_url_parser.py:16-28 | either scheme, any regional subdomain, final slash, query, fragment and trailing punctuation: a vacancy link parses back to its id |
| UrlScanner.VacancyUrlIsOneMatch | src/coverai/services/vacancy/hh_url_parser.py:13-35 | such a link is one match and yields one id |
| UrlScanner.LinkInText | src/coverai/services/vacancy/hh_url_parser.py:30-35 | a link among other words is found, a second one is refused |
| UrlScanner.CountDecides | src/coverai/services/vacancy/hh_url_parser.py:30-35 | one vacancy link is returned; none and several raise their own errors |
| UrlScanner.LinkAcceptedIff | src/coverai/services/vacancy/hh_url_parser.py:16-28 | a link is a vacancy exactly if its host is hh.ru or ends in a dot and hh.ru, in any case, and its path is that of a vacancy, whatever its user information, port, query and fragment |
| UrlScanner.HostAcceptedIff | src/coverai/services/vacancy/hh_url_parser.py:38-41 | the accepted hosts are hh.ru and those that end in a dot and hh.ru, no look-alike |
| UrlScanner.PathAcceptedIff | src/coverai/services/vacancy/hh_url_parser.py:23-27 | the accepted paths are /vacancy/, digits and at most one slash |
| UrlScanner.CanonicalHost | src/coverai/services/vacancy/hh_url_parser.py:38-41 | hh.ru and its subdomains are accepted as hosts |
| QuotaWindow.PeriodStartIsStart | src/coverai/services/billing/quota_service.py:101-119 | the period start is a Moscow midnight (free) or a first-of-month midnight (standard) and not after now |
| QuotaWindow.PeriodStartIsGreatest | src/coverai/services/billing/quota_service.py:101-119 | and it is the greatest such instant |
| QuotaWindow.PeriodStartIsMonotone | src/coverai/services/billing/quota_service.py:101-119 | later instants have no earlier period starts |
| QuotaWindow.PeriodStartIsIdempotent | src/coverai/services/billing/quota_service.py:101-119 | the start of a period is its own start |
| QuotaWindow.SamePeriodIffSameStart | src/coverai/services/billing/quota_service.py:101-119 | two instants share a start exactly if they share the Moscow civil day or month |
| QuotaWindow.StartDays | src/coverai/services/billing/quota_service.py:101-119 | the month start never exceeds the day start, and now lies within the day and the month that begin there |
| QuotaWindow.StartsAtMoscowMidnight | src/coverai/services/config.py:30 | days and months of the quota begin at 21:00 UTC, and now lies within 24 hours of the start of its day |
| Calendar.CivilRoundTrip | src/coverai/services/billing/quota_service.py:101-102 | reading the civil clock and counting back gives the instant, and the reading is a valid date |
| Calendar.ElapsedRoundTrip | src/coverai/services/billing/quota_service.py:104-117 | counting a valid civil reading and reading the clock again gives the reading |
| Text.NormalizersAgree | src/coverai/clients/hh.py:565-567 | collapsing runs of whitespace and stripping equals splitting into words and joining them, on every string |
| Text.NormalizerIsIdempotent | src/coverai/services/prompts/text_normalizer.py:22-24 | normalising keeps the words and changes nothing the second time |
| Text.SplitOfJoin | src/coverai/services/prompts/text_normalizer.py:22-24 | splitting joined words gives the words back |
| Text.SplitCut | src/coverai/services/prompts/text_normalizer.py:22-24 | whitespace cuts a text in two parts with words of their own |
| Text.SplitOfWord | src/coverai/services/prompts/text_normalizer.py:22-24 | a word is its own list of words, and the empty text has none |
| Text.StripTrims | src/coverai/services/generation/cover_letter_service.py:158 | stripping leaves the piece of a text between the whitespace at its ends |
| Text.NothingLeftIff | src/coverai/services/generation/cover_letter_service.py:158-160 | nothing is left of a text exactly if it is nothing but whitespace |
| Text.SpacesListed | src/coverai/clients/hh.py:567 | what counts as whitespace, one character at a time |
| Text.LowerIs | src/coverai/services/vacancy/hh_url_parser.py:19 | lowering pairs the two ASCII alphabets and leaves every other character alone |
| Text.TruncatedPrefix | src/coverai/services/prompts/text_normalizer.py:27-32 | truncation returns the text, or the longest right-trimmed prefix that is shorter than the limit and an ellipsis, of length at most the limit plus two |
| Text.TruncateBoundIff | src/coverai/services/prompts/text_normalizer.py:27-32 | that bound holds for every text exactly if the limit is at least one |
| VacancyCache.GetOrLoadKeepsValid | src/coverai/services/vacancy/vacancy_service.py:30-120 | loading keeps hh.ru ids unique, every vacancy's employer present, and placeholder employers stale and paired with their vacancy |
| VacancyCache.InsertPlaceholderKeepsValid | src/coverai/services/generation/generation_queue_service.py:102-126 | so does inserting a placeholder |
| VacancyCache.PlaceholderAlwaysFits | src/coverai/services/generation/generation_queue_service.py:107-126 | a vacancy the lookup does not find can always be inserted with its placeholder employer |
| VacancyCache.GetOrLoadKeepsTrue | src/coverai/services/vacancy/vacancy_service.py:45-63 | every dated row says what hh.ru said at that date, about an open vacancy and the employer its payload names |
| VacancyCache.CacheSound | src/coverai/services/vacancy/vacancy_service.py:38-53 | a cached result is the vacancy asked for, with contents hh.ru gave at most an hour ago; never a placeholder; nothing is written |
| VacancyCache.HitOrFreshAnswer | src/coverai/services/vacancy/vacancy_service.py:38-63 | a hit does not depend on hh.ru; any other success is exactly what hh.ru just answered, and is stored |
| VacancyCache.CachedForOneHour | src/coverai/services/vacancy/vacancy_service.py:129-133 | a loaded vacancy is answered from the cache, unchanged, for exactly one hour, whatever hh.ru would say by then |
| VacancyCache.LoadOutcome | src/coverai/services/vacancy/vacancy_service.py:38-63 | loading returns, meets a silent hh.ru, or meets a closed vacancy, exactly by the link, the cache and the answers |
| VacancyCache.ClosedIff | src/coverai/services/vacancy/vacancy_service.py:136-150 | a vacancy that hh.ru answers is refused as closed exactly if it is archived, said by a boolean, by the word true in any case or by another truthy value, or not of the type open |
| VacancyCache.HitIff | src/coverai/services/vacancy/vacancy_service.py:36-53 | the cache answers exactly with the row of the vacancy and its employer's, if both are dated within the last 3600 seconds |
| VacancyCache.LoadLeavesOthers | src/coverai/services/vacancy/vacancy_service.py:67-120 | a load changes at most the rows of the vacancy and the employer that hh.ru answered about, and no row's hh.ru id |
| VacancyCache.StoreTakesKeys | src/coverai/services/vacancy/vacancy_service.py:67-120 | a new row takes one key, an updated one none |
| Quota.CheckCoversPeriod | src/coverai/repos/sqlalchemy/generation_request_repo.py:77-96 | the counting query covers every counted request of the current period |
| Quota.CheckedRequestKeepsQuota | src/coverai/services/billing/quota_service.py:80-90 | a request created at the instant of a passed check keeps every period within the limit |
| Quota.CheckKeepsQuotaIff | src/coverai/repos/sqlalchemy/generation_request_repo.py:77-96 | a checked request whose row gets another date keeps the limit exactly if both instants share a period, or the period of the row has room |
| Quota.CountsPaidPeriodIff | docs/bdd-specification.md:717-724 | the count is that of the paid period, whatever the requests are, exactly if the period began with the Moscow month |
| Quota.OneMoreKeepsQuotaIff | src/coverai/services/billing/quota_service.py:62-90 | without a check, one more request keeps the limit exactly if its period has room |
| Quota.MayGenerateIff | src/coverai/services/billing/quota_service.py:80-90 | the check passes exactly on the pro plan, on the free plan with no pending or succeeded request since the Moscow day began, and on the standard plan with fewer than 300 since the month began; everybody else has used up the plan or does not exist |
| Quota.UsageShown | src/coverai/services/billing/quota_service.py:34-78 | the usage shown is the plan, its limit, the start of its period and the pending and succeeded requests since then |
| Payments.ConfirmNet | src/coverai/api/routes/payments.py:62-91 | a success webhook keeps every intent's net in line with its status, except that meeting manual review adds the credits a second time |
| Payments.RefundNet | src/coverai/api/routes/payments.py:133-170 | a refund keeps every intent's net in line with its status |
| Payments.ConfirmOnceIff | src/coverai/api/routes/payments.py:70-71 | the success webhook keeps one row of each kind exactly if the intent was not refunded and is not in manual review |
| Payments.RefundOnce | src/coverai/api/routes/payments.py:140-147 | a refund keeps at most one row of each kind |
| Payments.WebhooksInAnyOrder | src/coverai/api/routes/payments.py:58-129 | for every sequence of success, failure and cancellation webhooks to a pending intent: the owner is credited exactly if a success is among them, and the status is succeeded then and the first outcome otherwise |
| Payments.DiscountedPrice | src/coverai/api/routes/payments.py:34-35 | a discounted price is the rest of the full one, rounded down to whole roubles; for 0 to 100 percent it lies between nothing and the full price |
| Payments.ApiPaymentTerms | src/coverai/api/routes/payments.py:19-47 | a payment through the API is pending, for the credits asked, at their price less the discount unless its recorded expiry has passed; an unknown user and a number of credits that is not positive are refused |
| Payments.BotPaymentTerms | src/coverai/bot/runtime.py:192-235 | a top-up through the bot is succeeded, at the price less the discount whatever its expiry, credits the user and uses up the percentage |
| Payments.ConfirmEffect | src/coverai/api/routes/payments.py:62-91 | a success webhook credits the owner of an intent not yet succeeded and clears the whole pending discount |
| Payments.RefundIff | src/coverai/api/routes/payments.py:133-170 | a succeeded intent is refunded exactly if the balance reaches its credits and goes to manual review otherwise; what never succeeded is refused, what was refunded or reviewed is left as it is |
| Payments.CloseIff | src/coverai/api/routes/payments.py:94-129 | failure and cancellation change pending intents only |
| Payments.NothingToSettle | src/coverai/api/routes/payments.py:62-170 | webhooks and refunds answer not found without an intent, and without its owner where a balance would change |
| Payments.DiscountEndsWithConfirmation | src/coverai/api/routes/payments.py:73-77 | after a confirmation the user's next intent is at full price |
| Payments.ExpiredDiscountIsDropped | src/coverai/api/routes/payments.py:26-32 | in a payment created through the API, a discount whose recorded expiry has passed is neither charged nor kept |
| Payments.LateConfirmPaysTwice | src/coverai/api/routes/payments.py:70-89 | a success webhook that meets a refund, made or attempted, leaves a second top-up row |
| PromoCodes.GrantBalances | src/coverai/api/routes/promocodes.py:61-82 | a grant keeps activations = redemption rows, no user twice, and a credit code's ledger rows = value times activations, for every code |
| PromoCodes.RedeemBalances | src/coverai/bot/runtime.py:144-190 | both redemption paths keep that, whatever they answer |
| PromoCodes.ApiKeepsLimit | src/coverai/api/helpers/promo.py:34-47 | an API redemption exceeds no code's limit |
| PromoCodes.BotKeepsLimitIff | src/coverai/bot/runtime.py:156-174 | a bot redemption keeps the limit of every code exactly if it does not pay that code out with no activation left |
| PromoCodes.BotRefusesIff | docs/bdd-specification.md:964-979 | the bot refuses codes that are expired, disabled or used up exactly if the code is redeemable anyway or one of its own checks fails |
| PromoCodes.ApiPaysIff | src/coverai/api/helpers/promo.py:34-47 | the API pays a code out exactly if it is active, not past its last instant, below its limit, not yet redeemed by this user, and no discount above 100 percent |
| PromoCodes.RedeemErrors | src/coverai/api/routes/promocodes.py:47-66 | the answers to codes that are not paid out, through the API and the bot; they change nothing |
| PromoCodes.ApiPays | src/coverai/api/routes/promocodes.py:61-87 | what a payout through the API changes: one activation, one redemption, and either the credits with their row or the percentage, expiry and code of the pending discount |
| PromoCodes.BotPaysOut | src/coverai/bot/runtime.py:170-190 | what a payout through the bot changes: the same, but of a discount only the percentage |
| PromoCodes.NewCodeIff | src/coverai/api/routes/promocodes.py:20-44 | which codes can be created, and that they start active and unused |
| PromoCodes.ApiChargesAsPromisedIff | src/coverai/api/routes/payments.py:26-35 | the API charges as the code promises exactly if the recorded expiry and that of the code agree about now |
| PromoCodes.BotChargesAsPromisedIff | src/coverai/bot/runtime.py:200-211 | the bot charges as the code promises exactly if the code is still valid |
| Subscriptions.LatestActive | src/coverai/repos/sqlalchemy/subscription_repo.py:30-44 | the active row of a user that expires last, the newest among equals |
| Subscriptions.LatestIs | src/coverai/repos/sqlalchemy/subscription_repo.py:30-44 | the lookup finds a row exactly if it is an active one of the user that no other outlasts |
| Subscriptions.ActivationTerms | src/coverai/services/billing/billing_service.py:22-56 | an activation lasts 2592000 seconds, from the end of the latest period if that is of the same plan and from now otherwise; it ends a latest period of another plan and changes no other row |
| Subscriptions.SweepTerms | src/coverai/services/billing/billing_service.py:58-76 | a sweep ends exactly the active rows that expired before the cutoff and frees exactly their users |
| Subscriptions.AdminExpireTerms | src/coverai/api/routes/admin.py:102-117 | the administrator ends the latest active row of a user, if there is one, and takes the plan in any case |
| Subscriptions.RenewalsTile | src/coverai/services/billing/billing_service.py:36-55 | any number of activations of one plan from no active row tile the time from the first one in 30-day periods, and the active lookup returns the last |
| Subscriptions.ActivationAppends | src/coverai/services/billing/billing_service.py:36-55 | one activation that is not a change of plan appends the next period and becomes the active one |
| Subscriptions.SweepTwice | src/coverai/services/billing/billing_service.py:58-76 | sweeping at two instants equals sweeping at the later one |
| Subscriptions.SweepServesIff | src/coverai/services/billing/billing_service.py:66-74 | a sweep leaves a paying user served exactly unless one period ended while another is still running |
| Subscriptions.AdminExpireServesIff | src/coverai/api/routes/admin.py:102-117 | ending a subscription leaves the user served exactly if no other period is active |
| Subscriptions.RenewalIsLost | docs/bdd-specification.md:1044-1053 | a renewed user is swept to the free plan a month before the paid time ends |
| Subscriptions.PlanChangeIsLost | src/coverai/services/billing/billing_service.py:40-44 | after renewal and change of plan, the end of the first period takes the new plan away |
| Ledger.PostConserves | src/coverai/repos/credit_ledger_sqlalchemy.py:26-36 | posting an amount keeps, for every user, balance = opening balance + rows, and every row's balance correct |
| Ledger.RegisterConserves | src/coverai/services/users/user_registration_service.py:61-69 | registration keeps the ledger conserved and contacts unique |
| Ledger.SeedAdminConserves | src/coverai/api/bootstrap.py:11-30 | the seeded administrator's hundred credits are an opening balance without a row, and keep the ledger conserved |
| Ledger.RegisterTerms | src/coverai/services/users/user_registration_service.py:21-69 | a new contact becomes a regular user on the free plan whose balance and one row are the bonus; a known contact and a bonus that is not positive are refused |
| Ledger.SeedAdminTerms | src/coverai/api/bootstrap.py:11-30 | the seeded administrator is on the pro plan with a hundred credits and no row; a known address changes nothing |
| Ledger.AdjustTerms | src/coverai/api/routes/admin.py:71-97 | an adjustment moves the balance by its amount and posts it, unless the user is unknown or the balance would be negative |
| System.PlainStepsKeepGeneration | src/coverai/repos/sqlalchemy/generation_request_repo.py:58-75 | registration, payment, promo, subscription and profile steps leave requests, letters and the cache alone and add no row for a request |
| System.ProfileTerms | src/coverai/services/profile/profile_service.py:16-68 | saving a profile replaces the text under the key it has or takes a new key, and changes nobody else's |
| HtmlParser.VacancyHtmlParser.HandleStartTag | src/coverai/clients/hh.py:334-361 | the in-place handler does what one start-tag event does to the parser state, and keeps the stack discipline |
| HtmlParser.VacancyHtmlParser.HandleEndTag | src/coverai/clients/hh.py:363-380 | the in-place handler, with its two loops and its list removal, does what one end-tag event does |
| HtmlParser.VacancyHtmlParser.HandleData | src/coverai/clients/hh.py:382-387 | the in-place handler gives a piece of text to the script buffer and to every open capture |
| HtmlParser.VacancyHtmlParser.Feed | src/coverai/clients/hh.py:324-387 | feeding any stream to the mutable parser yields the state that the event function computes |
| HtmlParser.IndexOfEqual | src/coverai/clients/hh.py:374-375 | where list removal finds its element: the first one equal field by field |
| UrlScanner.ParseHhVacancyId | src/coverai/services/vacancy/hh_url_parser.py:13-35 | the loop over matches returns the id if there is exactly one vacancy link, and otherwise says whether there were none or several |
| Schema.Database.Rollback | src/coverai/infra/db/session.py:26-32 | an exception that leaves the session restores every table; consumed keys stay consumed |
| Ledger.GrantWelcomeBonus | src/coverai/repos/credit_ledger_sqlalchemy.py:15-39 | the bonus and its row are posted together |
| Ledger.RegisterApiUser | src/coverai/services/users/user_registration_service.py:21-36 | a new e-mail becomes a user with one bonus, a known one is refused, and a bonus that is not positive undoes the registration |
| Ledger.GetOrCreateTelegramUser | src/coverai/services/users/user_registration_service.py:38-59 | a known Telegram user is returned and nothing changes; a new one is registered |
| Ledger.AdjustUserBalance | src/coverai/api/routes/admin.py:71-97 | an adjustment is posted, or refused and undone if the balance would be negative |
| Payments.CreatePaymentIntent | src/coverai/api/routes/payments.py:19-47 | an intent at the discounted price, an expired discount being dropped first |
| Payments.Confirm | src/coverai/api/routes/payments.py:62-91 | credits, discount, status and row change together unless the intent is already succeeded |
| Payments.RefundIntent | src/coverai/api/routes/payments.py:133-170 | a succeeded intent is refunded if the balance suffices and goes to manual review otherwise; other states refuse or repeat their answer |
| Payments.CreateMockTopUp | src/coverai/bot/runtime.py:192-235 | the bot's top-up is an intent born succeeded with its row; a non-positive amount is refused and undone |
| PromoCodes.CreatePromoCode | src/coverai/api/routes/promocodes.py:20-44 | a new code starts active and unused; a taken code or a value that is not positive is refused |
| PromoCodes.RedeemThroughApi | src/coverai/api/routes/promocodes.py:47-87 | the checks in their order, then activation, redemption row and grant together |
| PromoCodes.RedeemThroughBot | src/coverai/bot/runtime.py:144-190 | the same without the validity checks, setting only the percentage of a discount |
| Subscriptions.Activate | src/coverai/services/billing/billing_service.py:22-56 | a renewal starts where the current period ends; a change of plan ends the latest period and starts now |
| Subscriptions.ListDue | src/coverai/repos/sqlalchemy/subscription_repo.py:61-71 | exactly the active rows that expire before the cutoff |
| Subscriptions.ExpireSubscriptions | src/coverai/services/billing/billing_service.py:58-76 | the loop flips exactly the due rows and frees exactly their users |
| Subscriptions.ExpireByAdmin | src/coverai/api/routes/admin.py:102-117 | the latest period ends and the user is on the free plan |
| VacancyCache.SaveEmployer | src/coverai/services/vacancy/vacancy_service.py:67-91 | insert under a new key, or update in place under the old one |
| VacancyCache.SaveVacancy | src/coverai/services/vacancy/vacancy_service.py:93-120 | insert under a new key, or update in place under the old one, employer included |
| VacancyCache.GetOrCreatePlaceholder | src/coverai/services/generation/generation_queue_service.py:102-126 | the existing vacancy, or a pair of placeholder rows |
| VacancyCache.GetOrLoadVacancy | src/coverai/services/vacancy/vacancy_service.py:30-65 | hit, load, refusal of a closed vacancy and hh.ru errors, with the tables each leaves |
| Generation.EnqueueGeneration | src/coverai/services/generation/generation_queue_service.py:43-85 | the checks in their order; then placeholder, pending request with snapshots, and the pushed job agree |
| Generation.GenerateForVacancyUrl | src/coverai/services/generation/cover_letter_service.py:52-104 | the tables inside the open transaction for every way the service returns or raises |
| Generation.GenerateAndSaveLetter | src/coverai/services/generation/cover_letter_service.py:143-177 | prompt from the snapshot, stripped text, letter row; a model error or an empty answer marks the request failed |
| Generation.DebitGenerationCredits | src/coverai/workers/tasks.py:164-187 | the debit and its row, or nothing if the balance does not suffice |
| Generation.GenerateCoverLetter | src/coverai/workers/tasks.py:78-134 | one transaction: two errors are caught inside and commit, everything else rolls back |

## Left out

- Building a vacancy from page data (`clients/hh.py:426-660`: data-qa and JSON-LD candidates, merging, `urljoin`) and from API JSON: first-non-empty selections over the values that the page reader delivers.
- HTTP, Telegram messages, keyboards, metrics, logging, passwords, tokens, resume files and text extraction: input, output and library code without state of their own.
- The fields `error_message`, `completed_at`, `confirmed_at`, `description`, `metadata_json`, and timestamps other than `created_at` of requests: written and never read by what is modelled.
- The width of integer columns: credits and keys are unbounded, so an overflow error of the database is not modelled.
- Isolation anomalies and row locks of the database: a transaction sees the last committed tables. Two transactions overlap only where one has pushed its job and not yet ended.
- Sending the letter to Telegram after the commit, and the `RuntimeError` of a user without a Telegram id: the outcome of a run is the one of its transaction.
- Removing users, profiles or rows: no modelled operation deletes anything.
- Normalising what a user types: promo codes, e-mail addresses and resume texts arrive normalised.
- Resume profiles: only their key and text, and that saving replaces the text.
- Payments.Confirm: takes the row that the external id was found to mean, because the bot's top-ups share one external id and the lookup picks any of them.
- Subscriptions.ExpireByAdmin: the admin query does not order rows that expire at the same instant; the model takes the newest, as the repository's query does.
- UrlScanner.LinkAcceptedIff: is about links without semicolons in the path, which cut off parameters, and without trailing punctuation, which `StripTrailingIs` describes.
- UrlScanner.ParseHhVacancyId: leaves out texts with square brackets in a link's host, on which the standard URL parser raises, and decimal digits outside ASCII.
- HtmlTree.DocumentWords: asks that no character data holds an ampersand, so that resolving character references a second time changes nothing; with one, `MachineReadsForest` and `DocumentTexts` hold for any way to resolve them.
- HtmlTree.MachineReadsScripts: asks that script elements hold only character data, which the tokenizer guarantees.
- Lookups by hh.ru id ask for unique ids, which is the tables' constraint and holds in every run.
- VacancyCache.GetOrLoadVacancy: asks for valid tables, which every run with honest hh.ru answers has; honest means that hh.ru answers about the vacancy and employer asked for, with positive employer ids.
- Calendar.CivilRoundTrip: the Moscow offset is constant, so dates before 26 October 2014 are not those of the time-zone database.
- QuotaRuns.QuotaNeverExceeded: asks that no other transaction runs between a push and its commit, that no job is delivered twice and that the user's plan does not change; the lemmas on commits, redeliveries and failing runs say what happens without the first two.
- No route sets a promo code inactive, so no run has a disabled code; the theorems on one redemption cover it.
- `update_credits` and `apply_credit_delta` of the user repository: they would write balances without a row, but nothing calls them.
- Paying for subscriptions (`subscription_payments`) and the admin listings: creation of rows that nothing else modelled reads.
