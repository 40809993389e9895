# Verified model of the payment service

This project models a payment service that sells token packages: a client creates a transaction, charges it through
a payment provider, and the provider's callbacks change the transaction's status, credit coins through a queue and notify
the user. Three parts are modelled and proved.

1. **The payment lifecycle** (`Lifecycle*.dfy`, `Callback*.dfy`, `ChargeHandling.dfy`, `PaymentTheorems.dfy`). A step is what one request does
   between two awaits. Requests in progress are flights that hold the row and log list they loaded. `Exec` runs any list of
   actions: payments, charges, deliveries of genuine charges in any order and any number of times, and an exception at any
   await. The invariant `Inv` is stated for snapshots against the parts of the state that only grow (origins, provider charges,
   ledger of log rows), which is why it survives a stale read-modify-write. The theorems hold of every run. Conservation runs
   end to end: accepted deliveries are counted where they arrive and balanced against log rows, credits and notifications,
   per call, per charge and per transaction.
2. **The read-through cache** (`OnceCache.dfy`, `CacheService.dfy`). Calls, cachers that read a value and return it later or
   throw, un-awaited writes that land late or never, expiry and removal in any order.
3. **Paging** (`Pagination.dfy`, `Windows.dfy`, `History.dfy`). Slices, next/previous flags, and the windows of a user's history.

`Repository.dfy`, `Services.dfy` and `CacheService.dfy` hold the services as classes that load entities, assign their
fields and save in place. The payment methods are proved equal to functions that `HandlingIsARun` and `ChargingIsARun` place among
the runs of the machine, under every fault; the contract of `Once` itself says that a call, in any surroundings and with any
outcome of its cacher, is the run that `OnceIsARun` describes.

## What is assumed of the environment

- A repository `save` is one atomic write. It leaves properties that are not named unchanged, replaces the whole log relation by the given list
  (a log left out keeps its row and loses its link), and fails on a non-null source that another row holds.
- The log relation loads in insertion order. The history query sorts by creation time, newest first, and then by id.
- The provider charges a source at most once, gives every charge a new non-empty id, and delivers charges with the id and metadata they were
  created with; the delivered status is arbitrary. No run of the model charges a source twice; the correlation theorems rest on it, because a
  delivery is looked up by its source alone.
- Prices and coin counts are exact integers; a null field is `None`. The clock is read once per step.
- The store of the cache serves an entry strictly before its landing time plus its time to live. A cacher reads what it returns at
  one moment between the call's question and its answer; a computation is dated by that moment.

## What the code does that its documentation or names do not say

- The property `updated_at` that a charge saves is not a column property (the field is `updatedAt`), so a charge never sets the timestamp: `StatusIsLastCallback`.
- The product id in a charge's provider metadata is read from a metadata key that no code in the repository writes. This is an observation on
  the source outside the model: `Charge` has no such field.
- Duplicate successful deliveries are not recognised and no status is final: `OneMoreDelivery`, `EveryDuplicateCreditsAgain`.
- Two kinds of save cut the links of logs, whose rows stay. A callback's save cuts the logs attached since it loaded its row
  (`StaleSaveDetachesExactly`), so of two callbacks that have loaded the same row the second cuts the log of the first
  (`OverlapCutsALink`; runs with such callbacks exist from every state with a deliverable charge, `OverlapOccurs`). A charge's
  save cuts all of them, so a re-charge detaches every earlier log, webhook logs included (`RechargeDetachesAll`).
- A re-charge makes the deliveries of every earlier charge of its transaction find no row (`RechargeReplacesTheOthers`); a callback that had
  loaded the row before writes the old source back, and then it is the newer charge whose deliveries find none (`StaleSaveUndoesARecharge`).
- A charge whose save fails stays at the provider without a log or reference in the tables: `ChargingIsARun`.
- A time to live of a fraction of a second becomes the default: `TtlHonouredExactly`. A removal does not cancel a write on its way,
  nor a cacher that has read its value and not returned it: `RemovalIsFinalExactly`.
- The next-page flag is wrong exactly below page -1: `NextFlagIsRightExactlyFromMinusOne`.
- A notification names the package's coins without the bonus that is credited: `EveryNotificationIsDue`, `EveryCreditIsPaidFor`.

## Model

| member | source | states |
|---|---|---|
| LifecycleTheorems.EveryCreditIsPaidFor | src/services/callback.service.ts:109-145 | in every run each credit traces to a successful webhook log, a provider charge of 100 times the pay-time price, the paying user, and coins equal to the package's coins, bonus and first matching payment bonus; every other field of the message agrees with the package's columns |
| LifecycleTheorems.EveryChargeIsForItsTransaction | src/services/payment.service.ts:102-117 | every charge, re-charges included, has the amount, currency and user of its own transaction |
| LifecycleTheorems.EveryNotificationIsDue | src/services/callback.service.ts:147-152 | every notification goes to the transaction's user, names its package's token and coins, and reports the status of one of its webhook logs |
| CallbackTheorems.EveryDueNotificationIsPushed | src/services/notification.service/index.ts:56-62 | the converse: an undisturbed delivery of status `successful` or `failed` for a transaction with a user pushes exactly one notification, to that user with status, symbol and coins, and completes; any other status or no user pushes none |
| CallbackHandling.UndisturbedOutcome | src/services/callback.service.ts:119-153 | on any tables: what is credited and pushed by status once the row is found and saved |
| CallbackHandling.CallbackSaves | src/services/callback.service.ts:89-106 | on any tables: which columns and which log a callback's save changes, and that all else stays |
| LifecycleTheorems.DeliveryFindsItsOwnRow | src/services/callback.service.ts:75-106 | a delivery that finds a row finds the row its charge was made for; amount, user, reference, code, card and all attached logs are that charge's, under any interleaving |
| LifecycleTheorems.SourcesBelongToTheirRows | src/entities/transaction-status.entity.ts:19-34 | a row's source and provider reference come together from one charge made for that row; sources are never shared |
| LifecycleTheorems.UniqueIndexNeverRefuses | src/migrations/postgres/1719822147448-postgres.ts:6-10 | no save in any run, however stale, ever meets a source held by another row |
| LifecycleTheorems.AttachedLogShape | src/services/payment.service.ts:34-48 | no attached logs exactly without a source; otherwise one `api` log `charge.create`, `pending`, first and only `webhook` logs of the six charge events after it |
| LifecycleTheorems.StatusIsLastCallback | src/services/callback.service.ts:97-106 | status is that of the last committed callback, timestamp set exactly if there is one, and equal to the last attached log's status if several are attached |
| LifecycleTheorems.SavesStampTheClock | src/services/callback.service.ts:89-103 | every log carries the clock of its save and every row that of its last committed callback, set or cleared by nothing else |
| LifecycleTheorems.StaleSaveDetachesExactly | src/services/callback.service.ts:97-106 | which logs lose their link to a callback save, both directions, and that no other transaction is touched |
| LifecycleTheorems.OverlapCutsALink | src/services/callback.service.ts:75-106 | of two callbacks that have loaded the same row, the first attaches its log and the save of the second cuts that log's link |
| CallbackTheorems.OverlapOccurs | src/services/callback.service.ts:75-106 | every reached state with a deliverable charge continues to one with two callbacks holding the same loaded row and logs |
| LifecycleTheorems.RechargeDetachesAll | src/services/payment.service.ts:34-48 | after a charge's save its log is the only one attached, every earlier log of the transaction has lost its link, no other link changes |
| LifecycleTheorems.RechargeReplacesTheOthers | src/services/payment.service.ts:41-48 | from a charge's save on deliveries of every other charge of the transaction find no row |
| LifecycleTheorems.StaleSaveUndoesARecharge | src/services/callback.service.ts:97-106 | a callback that loaded its row before a re-charge writes the old source back: the newer charge is on no row and its deliveries are ignored |
| LifecycleTheorems.LogRowsAreConserved | src/entities/transaction-log.entity.ts:19-20 | log rows are never deleted or rewritten, number exactly the saves of the run, and link only to their own transaction |
| LifecycleTheorems.FixedColumnsNeverChange | src/services/payment.service.ts:78-90 | pay-time columns and terms of a row are the same in every later state |
| LifecycleTheorems.RowsHoldWhatWasPaidFor | src/services/payment.service.ts:57-88 | in every reached state each pay-time column and term of a row is the request's or the package's own |
| LifecycleTheorems.DerivationDefinedExactly | src/services/callback.service.ts:109-117 | after a callback save the message derivation throws exactly for a package without coin count and without bonus |
| LifecycleTheorems.EffectsFollowThePlan | src/services/callback.service.ts:106-153 | effects of a callback are a prefix of save, credit if successful, notify if successful or failed; all of it exactly when completed |
| LifecycleConservation.AcceptedAreRecorded | src/controllers/callback.controller.ts:12-22 | for every class of calls, a single call included: accepted deliveries are the webhook logs written plus the callbacks waiting for their log or ended without one |
| LifecycleConservation.ChargesAreCreditedAsAccepted | src/services/callback.service.ts:119-156 | charge by charge, credits naming its id never exceed its accepted successful deliveries, and equal them exactly when no successful callback of it waits, failed or was ignored before its credit |
| LifecycleConservation.CreditsAreConserved | src/services/callback.service.ts:119-156 | exact balance of a transaction from accepted successful deliveries through logs and credits to notifications, with the callbacks that wait or failed at each stage; total coins are credits times coins owed |
| LifecycleConservation.NothingLostNothingWaiting | src/services/callback.service.ts:119-156 | credits equal accepted successful deliveries exactly when no successful callback waits, failed or was ignored before its credit, and coins are then that many times the package's; the same exactly for logs and for notifications |
| LifecycleConservation.NoLogWithoutAcceptance | src/controllers/callback.controller.ts:12-22 | every webhook log has an earlier delivery of its charge, status and event key that passed every check in the state it arrived in, and no call has more logs than accepted deliveries |
| LifecycleSteps.ReachedSatisfiesInv | src/services/payment.service.ts:94-123 | the whole invariant holds after every interleaving of the steps |
| LifecycleInvariant.SourceSitsOnItsRow | src/services/callback.service.ts:75-80 | a charge's source on a row means the row is the charge's and its first log too |
| CallbackHandling.HandlingIsARun | src/services/callback.service.ts:72-157 | an uninterrupted callback with any fault has exactly the tables and effects of a run of the steps |
| CallbackTheorems.OneMoreDelivery | src/services/callback.service.ts:72-157 | in any reachable state one more delivery attaches its log last, overwrites the status and credits again if successful |
| CallbackTheorems.EveryDuplicateCreditsAgain | src/services/callback.service.ts:119-145 | n duplicates of a successful delivery credit n times the coins |
| PaymentTheorems.PaymentEndsInCredit | src/services/payment.service.ts:52-123 | from any reachable state: pay, charge with a fresh supported source, one successful callback leave a successful row, two logs and exactly the owed coins, credited once |
| PaymentTheorems.ChargeSucceeds | src/services/payment.service.ts:94-140 | a charge with a fresh supported source always saves source, reference, code, card and its one log, and answers with the provider's and the transaction's own values field by field |
| PaymentTheorems.ChargeEnds | src/services/payment.service.ts:94-140 | on any tables: exactly when each error is answered, that an error changes nothing, and what a success answers |
| ChargeHandling.ChargingIsARun | src/services/payment.service.ts:94-123 | an uninterrupted charge with any of its calls failing has exactly the tables and provider charges of a run of the steps; an error leaves the tables as they were |
| TransactionTables.SaveAttaches | src/entities/transaction-status.entity.ts:46-47 | after a save the attached logs are exactly the given list followed by the new log |
| TransactionTables.SaveKeepsOthers | src/entities/transaction-status.entity.ts:46-47 | a save leaves the attached logs of other transactions alone |
| TransactionTables.SaveRespectsTheIndex | src/migrations/postgres/1719822147448-postgres.ts:6-10 | a save is refused exactly when the rows would break the unique index, null sources excepted |
| TransactionTables.FindBySource | src/services/callback.service.ts:75-80 | the lookup returns a row holding the source, and nothing only if no row does |
| TransactionTables.LookupFindsTheRow | src/services/callback.service.ts:75-80 | under the unique index the lookup returns the one row that holds the source |
| Repository.Database.SaveRow | src/entities/transaction-status.entity.ts:46-47 | the in-place save has the tables of the save function, and changes nothing when refused |
| Services.CallbackService.Process | src/services/callback.service.ts:73-153 | the body of the try: returns normally only without a row or with everything due done; undisturbed, it does so exactly unless a due notification has no user; anything thrown truncated the effects or is the failed derivation |
| Services.CallbackService.CreateTransactionLog | src/services/callback.service.ts:72-157 | drops whatever is thrown and returns normally; tables, credits and notifications are those of the handled callback for every fault, and undisturbed exactly what is due is credited and posted |
| Services.CallbackService.Record | src/services/callback.service.ts:89-106 | the assigned entity and the saved tables, with the new log appended to the loaded ones; a failing save changes no table |
| Services.CallbackController.HandleOmiseCallBack | src/controllers/callback.controller.ts:12-25 | validates before it writes; only validation errors reach the caller, and then nothing has changed |
| Services.NotificationService.PushNotification | src/services/notification.service/index.ts:30-41 | a null payload is refused before posting; a post is recorded exactly on success |
| Services.PaymentService.CreatePaymentTransaction | src/services/payment.service.ts:52-92 | inserts exactly the pending row of the package's terms; a missing package or a failing insert changes nothing |
| Services.PaymentService.SaveTransactionStatus | src/services/payment.service.ts:28-50 | only source, reference, metadata and the log relation change, and nothing when the save fails |
| Services.PaymentService.FindTransactionsByUserRefId | src/services/payment.service.ts:149-157 | returns the user's non-pending rows from the offset on, as many as asked for and there are, creation times descending |
| Services.PaymentService.Charge | src/services/payment.service.ts:94-140 | tables and response of the handled charge; each error, a failing save included, leaves the tables as they were |
| Sources.ChargeableExactly | src/services/omise.service.ts:32-48 | chargeable exactly for card tokens and for sources of one of the nine supported types |
| Sources.PaymentTypeByPrefix | src/services/omise.service.ts:32-48 | the type by prefix: a card for tokens, the provider's answer for sources, nothing otherwise |
| Packages.TermsHoldTheCoinsOwed | src/services/payment.service.ts:57-76 | stored amount plus bonus are the coins owed, with the first matching payment bonus |
| Packages.TermsHoldThePackage | src/services/payment.service.ts:69-76 | every stored term is its own column of the package |
| Packages.NullCountsAsZero | src/services/payment.service.ts:59-75 | a null bonus or price counts as zero, any other as itself |
| Packages.ComposedFromColumns | src/services/callback.service.ts:109-142 | every field of a composed message is the charge's or its own column of the package, the name spelling a null amount as `null` |
| Packages.FirstBonusIsFirstMatch | src/services/payment.service.ts:61-63 | the search finds the first bonus of the payment type, and none only if there is none |
| Packages.PackageNameRoundTrip | src/services/callback.service.ts:113-139 | package name parses back to amount and bonus for all integers, and agrees with coin value and itemised fields |
| Text.TextIsCanonical | src/services/callback.service.ts:115-139 | printed integers have a sign only when negative and no leading zeros |
| Packages.ComposeFailsExactlyWithoutCoins | src/services/callback.service.ts:112-117 | exactly when the derivation throws |
| Validation.AcceptsInAnyCase | src/services/callback.service.ts:33-70 | acceptance by the characters sent: agent and one of the six event names in any mixture of cases, agent `omise/` and version, id given, charge found |
| Validation.ErrorsExactly | src/services/callback.service.ts:33-70 | exactly when each of the seven errors is reported, for all inputs |
| Text.FoldingForgetsCase | src/services/callback.service.ts:40-45 | lower-casing maps each of the 26 capitals to its small letter and nothing else |
| Validation.AcceptsExactly | src/services/callback.service.ts:33-70 | the ordered checks accept exactly on id, agent with version, charge event and existing charge; the substring tests add nothing |
| Validation.ErrorsInOrder | src/services/callback.service.ts:47-69 | which error is reported when several conditions fail |
| OnceCache.OnceAgreesWithTheCacher | src/services/cache-manager.service.ts:115-134 | with deterministic cachers every answer of every run is the cacher's, and stored answers are truthy |
| OnceCache.StalenessIsBounded | src/services/cache-manager.service.ts:68-80 | a stored answer was read by its cacher less than effective time to live plus the delay of its landing ago; an answer from the cacher was read between question and answer |
| OnceCache.StoredAnswersRepeatEarlierOnes | src/services/cache-manager.service.ts:122-133 | from an empty cache each stored answer repeats an earlier cacher answer for the same key, kept for the time its caller asked for |
| OnceCache.IgnoringTheCacheIsFresh | src/services/cache-manager.service.ts:122-129 | a call that ignores the cache gets no stored answer; whatever happens in between, its answer is newer than every computation before it asked and read after it |
| OnceCache.RemovalIsFinalExactly | src/services/cache-manager.service.ts:73-80 | nothing computed before a removal is ever served again exactly when no servable write was on its way and no cacher held a servable value it had read and not returned |
| OnceCache.TtlHonouredExactly | src/services/cache-manager.service.ts:130-132 | a requested time to live is an upper bound exactly outside [0, 1); not a number means the default |
| OnceCache.ServedUntilExpiry | src/services/cache-manager.service.ts:63-71 | a landed truthy write is served exactly while its time to live lasts, unless the key is removed or written again; a falsy one never |
| OnceCache.ComputedAnswersAreWrittenOnce | src/services/cache-manager.service.ts:129-133 | for every class of writes: cacher answers are the writes on their way plus those landed or lost, so each computed value is written once |
| OnceCache.OnlyLandingsAndRemovalsStore | src/services/cache-manager.service.ts:68-80 | the store changes exactly where a write lands or a key is removed |
| OnceCache.CacherReadsTheMoment | src/services/cache-manager.service.ts:129 | a cacher's value is that of the moment it reads, not of the question |
| OnceCache.AskedByForm | src/services/cache-manager.service.ts:32-50 | by the form of the options: answered from the store exactly with a truthy live entry and no request to ignore the cache |
| OnceCache.ReturnedByForm | src/services/cache-manager.service.ts:129-133 | by the form of the options: the time to live a write requests, and the whole seconds it is kept for |
| OnceCache.RemovalClearsExactly | src/services/cache-manager.service.ts:73-80 | a removal takes out the named key, or all, and nothing else |
| CacheService.CacheManagerService.Once | src/services/cache-manager.service.ts:115-134 | over the form of the options: the stored value exactly with a truthy live entry and no request to ignore the cache, otherwise the cacher's outcome and one write of it with the requested time to live; in every surrounding the service is left as by the run of an undisturbed call |
| CacheService.CacheManagerService.GetData | src/services/cache-manager.service.ts:63-66 | an absent or expired entry reads as undefined |
| CacheService.CacheManagerService.SetData | src/services/cache-manager.service.ts:68-71 | the issued write has the effective time to live |
| CacheService.CacheManagerService.RemoveData | src/services/cache-manager.service.ts:73-80 | exactly the cleared keys disappear and the others keep their entries; it is the removal step |
| CacheService.OnceIsARun | src/services/cache-manager.service.ts:115-134 | an undisturbed call with a hit, a miss or a throwing cacher leaves and answers what the run of its steps does, and no call waiting |
| Pagination.NextFlagIsRightExactlyFromMinusOne | src/utils/pagination.util.ts:50-52 | the next-page flag says whether the next page has rows exactly from page -1 on |
| Pagination.PreviousFlagIsRight | src/utils/pagination.util.ts:54-56 | the previous-page flag says whether there is a previous page with rows, for every page number |
| Pagination.FlagsAgree | src/utils/pagination.util.ts:18-48 | the three forms agree with one another for every page number, default to pages of 20, and agree with the pages |
| Pagination.PageHoldsItsItems | src/utils/pagination.util.ts:5-16 | a page holds exactly the items whose index divided by the page size is its number |
| Pagination.PagesAreFullButTheLast | src/utils/pagination.util.ts:5-16 | null, negative and out-of-range pages are empty; a page before a non-empty one is full |
| Pagination.PagesTile | src/utils/pagination.util.ts:5-16 | concatenated pages give back the list |
| Pagination.WalkReadsEverythingOnce | src/utils/pagination.util.ts:18-32 | following the next-page flag from page 0 stops and reads every item once, in order |
| History.HistoryWindowsTile | src/services/payment.service.ts:149-157 | consecutive windows form one list, creation times descending and ids ascending among equal ones, of exactly the user's non-pending rows |
| History.WindowOfHistory | src/services/payment.service.ts:149-157 | which rows of that list a window holds |
| History.FirstTen | src/services/payment.service.ts:149 | without offset and limit the window is the first ten |
| History.HistoryShowsFinishedCallbacks | src/services/payment.service.ts:149-157 | in every run a row is listed exactly for its own user and when its last committed callback was not pending |
| Windows.WindowsTile | src/services/payment.service.ts:152-153 | consecutive offset/limit windows reproduce the list as far as they reach |
| Windows.WindowHoldsItsItems | src/services/payment.service.ts:152-153 | a window holds the items from its offset on, as many as asked for and there are |

## Left out

- Framework wiring, guards, interceptors, logging, health checks, file storage and configuration: no behaviour beyond one branch each.
- The provider, catalogue, queue, push, database and cache libraries themselves: environment steps or the semantics listed above.
- Floating-point prices, string-typed offsets and limits, a limit of zero, and lookups by an undefined source: integers and defined values are assumed.
- Case folding beyond ASCII in `ToLower`.
- Catalogue entries without a token or a bonus list: the request fails before anything is written.
- Column widths: a value that is too long is one of the failures any save may have.
- The `description` of rows and messages, which no modelled code writes, and the constant fields of the queue message.
- Push texts, icons and links: third-party formatting; only the null payload is modelled.
- Authenticity of callbacks: deliveries are genuine.
- A cache option given explicitly as undefined, and direct writes to the cache by other code.
- Reading a single transaction by id: a plain lookup.
- The log and the misspelt timestamp that a charge's response copies from the saved object.
- Removal of the unique index: the tables are modelled with the index in place.
