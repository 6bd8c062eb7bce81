# OpenVPN administration service: a verified model

This project models the parts of the service that are easy to get wrong and proves what holds of them on every
input and every run. Nothing is executed; everything is checked by the Dafny verifier
(`dafny verify dfyconfig.toml`).

## What is modelled

**The certificate job pipeline and the user service around it.** `JobPipeline` is a labelled step system: submitters
register a job and then block on a bounded queue, workers take, begin, finish and post jobs, a collector receives
them, and a closed shutdown channel competes with both channels. Registration and enqueueing are separate steps, and
so are the collector's receive and the status update that follows. `CertService` puts the users of the pipeline around
it: `CreateUser`, `DeleteUser`, `GetUserConfig` and renewals as calls with a program counter each, the user rows, the
cache rows and the `.ovpn` files. Each statement another goroutine can observe is a step of its own, among them the
read and the whole-row write in `generateCertificate` and the pieces in which a config file is written. Whatever
easy-rsa, the database or the file system decide is an argument of the step. Any number of calls and workers
interleave. `CertificateWorkers` is the same pipeline as a class over shared job objects, each method proved to make
exactly one step of `JobPipeline`.

`CallOutcomes` says what each call answers and leaves behind, `JobOutcomes` how a job ends and what it writes, for
every interleaving with the rest.

Generated identifiers are new and only compared for equality, so a call's identifiers are its number. A run starts
with an empty database and an empty clients directory.

**The login limiter.** `LoginLimiting` has the limiter as a class and specifies it by the complete history of attempts;
`LoginBounds` bounds the rate of failures one key can cause, alone and with several requests in flight.

**The line parsers.** `StatusFile` reads both layouts of OpenVPN's status file, `PkiIndex` the certificate index; each
is a loop proved against a fold over lines, and the fold is proved to undo a printer. `UserView` is the merge of both
into the list of users, proved against a declarative description, with the admission check for new clients and the
dashboard's counts. Text is a sequence of characters; lengths of lines count characters.

**Loops with sharp specifications.** `Pem` has the two certificate extractors, `Migrations` the migration runner with
an interruption at any statement, `JobList` the listing loop, `Decimal` the digit loop, `ConfigStores` the cache table.

## What the proofs found

- A revoked user of a running service can lose that status again exactly while the user's own creation is live: its
  generate job is not registered yet, or not yet collected and not failed (`ReactivationIff`). Among services that do
  any work that is possible in some run of each (`UndoneIff`); if `DeleteUser` is only called for users whose
  `CreateUser` has returned, of those with two or more workers, two being the default, and no others
  (`OrderlyUndoneIff`, `RevocationIsFinal`).
- `Stop` can hang exactly when more jobs are queued, held or posted than the results channel takes and some worker has
  not left (`ReachableHangsIff`); in every other state it returns under every scheduler (`ReachableStops`), with other
  calls interleaved too (`InterleavedStops`).
- The jobs sent and not yet collected exceed two buffers and one job for each worker, by one, exactly when both
  buffers are full, every worker is busy and the collector has a job in hand (`BacklogIsBounded`). Every service that
  does any work has such a run (`BacklogFills`).
- What `GetUserConfig` reads can end up cached beside a different file exactly when a worker still has bytes of that
  file to write at the moment of the read (`StaleIff`). A later call then returns half a config though the file is
  whole (`TornReadIsCached`).
- A config of a user can still be cached exactly if a row is there, a call carries what it read, the file exists, or
  the user's creation is live, has its file still to create and the loops run; it can still be returned exactly if so
  or a call is about to overwrite a row (`ConfigLastsIff`). For a deleted user, with one worker and deletions after
  creation, the creation is out (`DeletedConfigIff`), and a `GetUserConfig` in flight is enough: in some run of every
  service that does any work, a call made after `DeleteUser` returned, the revocation was collected, the file was
  removed and the rows were dropped returns the revoked user's config (`DeletedUserIsServed`).
- The row write of a generate job restores the status it read, whatever was stored in between (`SerialIsStored`).
- A user gets a second cached row, at once or by letting the insertions under way go on, exactly if a call found no
  row for the user while another stood before its insertion (`SecondRowIff`). Of any two such rows one begins the
  other; whole copies agree (`CacheReadsAsMap`).
- `Migrate` takes every error of its look-up for "not applied". If the look-up for a recorded version fails and its
  statements have an effect, the migration runs again. `RepeatsIff` says exactly when.
- `extractCertPEM` slices out of range exactly when both markers occur and some end marker stops before every begin
  marker (`PanicsIff`). On a text whose first marker is a line of its own, the line-by-line extractor returns nothing
  there (`EndLineFirst`).
- A lock holds to its end exactly if no success of the key and no failure reported five minutes or more after its
  window began comes first (`LockHoldsIff`). Both need a request in flight: with several at once a key can be free
  ten minutes early (`LockDropped`); one at a time it is locked for exactly fifteen (`FifthFailureLocks`). The
  specification of the limiter by its history therefore speaks of the newest window.
- `ListJobs` announces the newest jobs first, but scans the whole map once for each job in it, in no particular order:
  without a limit every match is returned as often as there are jobs (`JobList.ListJobs`).
- The admission check passes over an unreadable index, so it can admit a name whose certificate is valid.

## Model

| member | source | states |
|---|---|---|
| JobPipeline.CoreStepInv | internal/service/certificate_worker.go:144-241 | every pipeline step keeps the invariant that ties each job's place to the queues, the program counters and its fields |
| JobPipeline.LoopsKeepWaiting | internal/service/certificate_worker.go:154-240 | the worker and collector loops register nothing and leave waiting submitters waiting |
| PipelineFacts.SpotUnique | internal/service/certificate_worker.go:154-241 | a job is never in two places at once |
| PipelineFacts.StepMovesStatusForward | internal/service/certificate_worker.go:188-214 | no step changes a job's kind, user or name or moves its status backwards |
| PipelineFacts.ConservedStep | internal/service/certificate_worker.go:158-222 | what was sent equals what is queued, held, posted, in the collector's hands and collected |
| PipelineFacts.InOrderStep | internal/service/certificate_worker.go:174-222 | with one worker, collected, delivered, posted, held and queued jobs are in sending order, and every step keeps that |
| CertificateWorkers.CertificateWorker.constructor | internal/service/certificate_worker.go:111-122 | a new worker is the pipeline's start state |
| CertificateWorkers.CertificateWorker.RegisterJob | internal/service/certificate_worker.go:145-156 | the map write alone: the job is registered and not yet sent |
| CertificateWorkers.CertificateWorker.SendJob | internal/service/certificate_worker.go:158-160 | the send arm: the registered object joins the end of the queue |
| CertificateWorkers.CertificateWorker.ReceiveJob | internal/service/certificate_worker.go:178-180 | a worker takes the oldest queued object |
| CertificateWorkers.CertificateWorker.BeginJob | internal/service/certificate_worker.go:189-191 | status and start time, set through the shared object wherever else it is held |
| CertificateWorkers.CertificateWorker.FinishJob | internal/service/certificate_worker.go:203-211 | completion time and final status by outcome |
| CertificateWorkers.CertificateWorker.PostResult | internal/service/certificate_worker.go:213 | the object joins the end of the results |
| CertificateWorkers.CertificateWorker.ReceiveResult | internal/service/certificate_worker.go:222-225 | the collector takes the oldest result and its map write changes nothing |
| CertificateWorkers.CertificateWorker.GetJob | internal/service/certificate_worker.go:167-171 | returns the registered object with its current fields, or none |
| ServiceTheorems.EveryJobInOnePlace | internal/service/certificate_worker.go:144-241 | in every reachable state each registered job is in exactly one place, which fixes its status and its two times |
| ServiceTheorems.AtMostOnce | internal/service/certificate_worker.go:158-222 | no job is sent, taken or collected twice, and each needs the one before |
| ServiceTheorems.StatusOnlyForward | internal/service/certificate_worker.go:188-214 | along every run a job's status only moves forward and its kind, user and name stay |
| ServiceTheorems.BacklogIsBounded | internal/service/certificate_worker.go:115-116 | queued, held and posted jobs never exceed two buffers and one per worker; sent jobs are those, the delivered one and the collected; the uncollected exceed that bound exactly when every place is taken |
| BacklogRuns.BacklogFills | internal/service/certificate_worker.go:115-222 | for every number of workers and every capacity from one on, a run that takes every place with nothing collected |
| ServiceTheorems.StatusHasReason | internal/service/certificate_worker.go:228-302 | an active user's generate job completed and was collected; a revoked user had DeleteUser called, for any number of workers and despite the whole-row write |
| ServiceTheorems.NamesAreUnique | internal/service/user_service.go:41-59 | no interleaving of checks and insertions gives two users one name |
| CallOutcomes.RefusalChangesNothing | internal/service/user_service.go:37-166 | a statement ends its call with an error exactly if it failed or found the name taken, the user missing or the file missing, and then changes nothing else |
| CallOutcomes.RejectedIff | internal/service/user_service.go:37-166 | over every run a call is answered with an error if and only if one of its own statements refused it; failures at the cache never do |
| CallOutcomes.CallStands | internal/service/user_service.go:37-166 | in every run, what each call has done so far is there, from its opening to its answer: its user, its job and their names, or none of them if refused |
| CallOutcomes.CallCanMove | internal/service/certificate_worker.go:158-163 | no call is ever stuck: it can make its next statement, and one that waits for the queue can give up |
| CallOutcomes.SubmitEither | internal/service/certificate_worker.go:158-163 | sent or given up, the call goes on alike; the job is last in the queue or registered and never sent |
| CallOutcomes.NamesArePlain | api/handlers.go:310-313 | after every run all users' and config files' names are one to thirty-two letters, digits, underscores and hyphens |
| JobOutcomes.UserAdded | internal/service/user_service.go:41-59 | a user appears only by its own CreateUser's insertion, inactive, without a serial number, under a name nobody has |
| JobOutcomes.RowAfter | internal/service/certificate_worker.go:228-303 | what any step does to a user's row: the name stays, the serial number changes only by the row write of a generate job, the status only by that, by DeleteUser and by the collector storing a completed job's outcome |
| JobOutcomes.SerialIsStored | internal/service/certificate_worker.go:278-304 | a generate job that found a serial number stores exactly it, with name and status as read, whatever others do before and between the read and the write, and changes no other row |
| JobOutcomes.SerialWasInspected | internal/service/certificate_worker.go:278-304 | after every run a stored serial number is one that the user's own job found |
| JobOutcomes.JobOutcome | internal/service/certificate_worker.go:188-212 | whatever else runs meanwhile, a job ends as completed if and only if it is no renewal and neither issuing, rendering and writing the config nor revoking failed |
| JobOutcomes.FileAfter | internal/service/certificate_worker.go:345-420 | what any step does to a config file: created empty, extended by its writer and removed by jobs of its name, and nothing else |
| JobOutcomes.FileIsWhole | internal/service/certificate_worker.go:416-420 | when the write of a config succeeds, in whatever pieces, the file holds all of it, unless it was removed |
| ServiceTheorems.RenewalsDoNothing | internal/service/certificate_worker.go:194-236 | a renew job never completes; a worker has no statement to run for it, and no step of the worker or the collector that has it in hand changes a user, a file or a cached row |
| ServiceTheorems.CacheIsGenuine | internal/service/user_service.go:140-166 | a cached config is what the user's own generate job wrote, equal to the file while that exists; or, if this very copy was read with bytes still to come, a beginning of it |
| ServiceTheorems.ReplyIsGenuine | internal/service/user_service.go:140-166 | the same of every config GetUserConfig returned |
| ServiceTheorems.CacheReadsAsMap | internal/repository/config_repository.go:32-75 | of any two rows of one user one copy begins the other, a whole copy begins with every other, and whole copies agree |
| CallOutcomes.CacheAfter | internal/repository/config_repository.go:32-93 | what any step does to a cached row: inserted by the call of its number, overwritten by a call that found it, dropped with its user's rows, and nothing else |
| CacheTheorems.StaleIff | internal/service/user_service.go:157-163 | a continuation in which what this call read is cached and differs from the existing file exists if and only if a worker has bytes of that file left to write at the read |
| CacheTheorems.RowsStep | internal/repository/config_repository.go:32-62 | without a race a user keeps at most one row, and a step starts a race exactly if it finds no row while another call stands before its insertion |
| CacheTheorems.DoublesIff | internal/repository/config_repository.go:45-56 | from at most one row, the insertions under way leave two in some order exactly if they race with each other or with a row |
| CacheTheorems.SecondRowIff | internal/repository/config_repository.go:32-62 | over whole runs, a second row arises or can be made to exactly if two look-ups overlapped so; otherwise each user has at most one row to the end |
| DeletedConfigs.ConfigLastsIff | internal/service/user_service.go:140-166 | for any number of workers, a known user's config is cached or returned in no continuation without a source: a row, a copy in flight, the file, or a live creation before its file; each source yields one, the last while the loops run |
| DeletedConfigs.DeletedConfigIff | internal/service/user_service.go:104-137 | with one worker and deletions after creation, for a user whose revocation was collected: exactly if a row, a copy in flight or the file is there |
| DeletedConfigs.DeletedUserIsServed | internal/service/user_service.go:104-166 | for every one or more workers and every capacity, a run in which a revoked user's config is returned to a call made after the deletion returned, with file and rows gone |
| ServiceTheorems.RevocationIsFinal | internal/service/certificate_worker.go:228-302 | with one worker and deletions after creation, a user whose revocation was stored by the collector is revoked in every later state |
| Revocations.DeadStaysRevoked | internal/service/certificate_worker.go:228-302 | for any number of workers, a revoked user whose creation is no longer live stays revoked in every run |
| Reactivation.ReactivationIff | internal/service/certificate_worker.go:188-302 | for any number of workers before a shutdown, a revoked user can lose that status in some run if and only if the creation is live |
| ServiceTheorems.OneWorkerIsSequential | internal/service/certificate_worker.go:158-240 | with one worker, jobs are collected in sending order and the status updates issued are the outcomes in that order |
| ServiceTheorems.ReachableDrains | internal/service/certificate_worker.go:126-241 | before a shutdown, with a worker and a buffer, the loops alone collect every sent job under every scheduler |
| ServiceTheorems.ReachableStops | internal/service/certificate_worker.go:138-141 | after the close, if the results channel has room for all jobs in flight or every worker has left, every scheduler brings all goroutines to their exit |
| ServiceTheorems.ReachableHangsIff | internal/service/certificate_worker.go:138-241 | after the close, a run of the loops into a permanent block exists exactly if more is in flight than the results channel takes and a worker has not left |
| Registers.RegistersStep | internal/service/user_service.go:37-73 | every step keeps names unique and unchanged, and every job owned by the call that registered it |
| Statuses.StatusesStep | internal/service/certificate_worker.go:216-302 | every step keeps a reason for each user's status and for each row a worker read and has yet to write |
| Configs.ConfigsStep | internal/service/certificate_worker.go:416-420 | every step keeps files, cached rows and data in hand genuine |
| OneWorker.OrderStep | internal/service/certificate_worker.go:228-302 | with one worker, every step keeps revocations final, late collector updates and stale row writes included |
| Progress.SystemStepsDescend | internal/service/certificate_worker.go:174-241 | every step of a loop lowers a well-founded measure |
| Progress.WorkMeansProgress | internal/service/certificate_worker.go:126-241 | before a shutdown, some loop can move while a sent job is uncollected |
| Progress.EverythingDrains | internal/service/certificate_worker.go:126-241 | left to its loops under any scheduler, the service collects every sent job |
| Progress.InterleavedDescends | internal/service/certificate_worker.go:126-241 | other calls interleaved with the loops put nothing off: without a send and without the close, no step raises the measure, one loop step among them lowers it, and no more gets in flight |
| Progress.InterleavedDrains | internal/service/certificate_worker.go:126-241 | before a shutdown, in every run so interleaved, once no loop can move every job sent before is collected |
| Progress.InterleavedStops | internal/service/certificate_worker.go:138-141 | after the close, with room for all jobs in flight or no worker left, in every run so interleaved, once no loop can move all loops have ended |
| Progress.StopReturns | internal/service/certificate_worker.go:138-141 | with room for all jobs in flight, or with no worker left, all loops end under any scheduler |
| Progress.StuckForever | internal/service/certificate_worker.go:213-239 | once the collector has left, the results are full and a worker waits to post, no step of anyone changes that |
| Progress.StopCanHangIff | internal/service/certificate_worker.go:138-241 | the exact condition for a hanging Stop |
| WitnessRuns.StopHangs | internal/service/certificate_worker.go:174-241 | a reachable state with one worker and a buffer of one, a user created and deleted, from which Stop hangs |
| WitnessRuns.TwoWorkersReactivate | internal/service/certificate_worker.go:104-236 | for every two or more workers and every capacity, a run with orderly deletions, the certificate issued before it is revoked, after which a user whose revocation was collected is not revoked |
| WitnessRuns.EarlyDeleteReactivates | internal/service/user_service.go:57-116 | the same for every one or more workers, with a deletion that begins before the creation has returned |
| WitnessRuns.UndoneIff | internal/service/certificate_worker.go:228-302 | a collected revocation can be undone in some run exactly of services with a worker and a place in the channels |
| WitnessRuns.OrderlyUndoneIff | internal/service/certificate_worker.go:104-302 | with deletions after creation, exactly of those with two workers or more |
| WitnessRuns.TwoRowsForOneUser | internal/repository/config_repository.go:32-62 | two concurrent saves leave two rows for one user |
| WitnessRuns.TornReadIsCached | internal/service/user_service.go:140-163 | a run in which a later call returns half a config from the cache although the file is written to its end |
| LoginLimiting.QueryTells | api/login_security.go:37-53 | the table refuses a key exactly when the history does, and the lazy deletion loses nothing the history can tell, for the key and all others |
| LoginLimiting.FailureTells | api/login_security.go:55-69 | recording a failure in the table and in the history keeps them in agreement |
| LoginLimiting.LoginLimiter.Allowed | api/login_security.go:37-53 | the answer is the one recomputed from the full log |
| LoginLimiting.LoginLimiter.Fail | api/login_security.go:55-69 | one failure is logged, and the table stays in agreement for every key |
| LoginLimiting.LoginLimiter.Succeed | api/login_security.go:71-75 | one success is logged; the key's entry goes, no other changes |
| LoginLimiting.HandleLogin | api/v1.go:56-67 | refused exactly when the history says so; a wrong password logs a failure, a right one a success, a bad body nothing |
| LoginBounds.FifthFailureLocks | api/login_security.go:12-69 | one login at a time, after a fifth failure of a window at time t every visit that asks before t and fifteen minutes is refused and records nothing, right credentials or not, and a later one is admitted |
| LoginBounds.StartedLockHoldsIff | api/login_security.go:37-75 | with requests in flight, from any state a started limiter can reach, a lock holds throughout a run exactly if the run has no success of the key and no failure of it past the window |
| LoginBounds.LockDropped | api/login_security.go:55-69 | a run in which a late failure frees a locked key early |
| LoginBounds.HandleInTurn | api/v1.go:56-67 | sequential requests of one key record exactly the failures the specification of such runs lists |
| LoginBounds.NineSpanAWindow | api/login_security.go:12-69 | any nine consecutive failures span at least five minutes |
| LoginBounds.RateBound | api/login_security.go:12-69 | any half-open five minutes hold at most eight failures of a key |
| LoginBounds.EightIsReached | api/login_security.go:12-69 | a run with eight failures within five minutes |
| LoginBounds.LongRunBound | api/login_security.go:12-69 | a run of length D holds at most four failures for each five minutes of D, and five more |
| LoginBounds.LongRunIsReached | api/login_security.go:12-69 | for every D a run of length D with exactly so many |
| LoginBounds.FailuresStayBounded | api/v1.go:61-65 | with at most c requests of a key between check and report, its counter never exceeds 4 + c, in every interleaving, with abandoned requests |
| LoginBounds.StartedStaysBounded | api/v1.go:61-65 | the same for every run of a limiter from its start |
| LoginBounds.FailuresReachTheBound | api/v1.go:61-65 | an interleaving that reaches 4 + c |
| LoginBounds.InFlightCounts | api/v1.go:61-65 | over every run the requests between check and report are those let through less those that failed, succeeded or were dropped |
| Decimal.Itoa | internal/ovpn/logs.go:97-110 | the decimal numeral of n without leading zeros, every write inside the 20-byte buffer; the empty text for a negative n |
| Decimal.NumeralReadsBack | internal/ovpn/logs.go:97-110 | the numeral has digits only, no leading zero, and the value n |
| Decimal.ParsePrint | internal/ovpn/status.go:56-58 | every signed 64-bit number survives printing and parsing |
| Decimal.ParseIntIs | internal/ovpn/status.go:56-58 | which texts are accepted, their value, and the value returned on failure: the limit if the leading digits go beyond 64 bits, else 0 |
| Text.SplitJoin | internal/ovpn/status.go:47 | splitting takes apart what joining put together |
| Text.ScanPrint | internal/ovpn/status.go:37-40 | printed lines within the scanner's limit scan back |
| Text.ScanIs | internal/ovpn/status.go:35-40 | the lines before the first one of the limit's length, each without one carriage return at its end; a failure exactly if there is such a line |
| Text.RawLinesOf | internal/ovpn/status.go:37-40 | line feeds end lines, and what follows the last one is a line unless it is empty |
| Text.TrimSpaceTakes | internal/ovpn/status.go:38 | trimming takes exactly the white space around a text |
| StatusFile.ReadSessions | internal/ovpn/status.go:26-123 | the loop computes the fold over lines; it fails exactly on a missing file or a line of a mebibyte or more; legacy sessions come in some order, each name once |
| StatusRoundTrip.RowsOverruleLegacy | internal/ovpn/status.go:116-121 | one accepted CLIENT_LIST row anywhere makes all legacy rows irrelevant |
| StatusRoundTrip.RowsRoundTrip | internal/ovpn/status.go:45-69 | rows printed in the version 2 layout, of nine columns or more, with any other lines before and after, read back in order |
| StatusRoundTrip.SessionIsRead | internal/ovpn/status.go:46-69 | a client row of nine columns or more is one session, with peer and cipher if there are twelve and thirteen columns, and no time if the ninth is no number |
| StatusRoundTrip.ShortRowSkipped | internal/ovpn/status.go:47-50 | a client row of fewer than nine columns is no session |
| LegacyRoundTrip.FeedRow | internal/ovpn/status.go:90-112 | which legacy rows show a client, which give a known client its address, and which are skipped |
| LegacyRoundTrip.LegacyRoundTrip | internal/ovpn/status.go:71-121 | clients and routes printed in the legacy layout read back as one session for each client, in some order, with the virtual address of its last route |
| LegacyRoundTrip.OnlyColumns | internal/ovpn/status.go:72-88 | a row is taken for a heading or a section word only if its first column is one of the skipped words |
| PkiIndex.ReadIndex | internal/ovpn/pki.go:36-86 | the loop yields the certificates of all acceptable rows in order; it fails exactly on a missing file, with none, or a line of a mebibyte or more |
| PkiIndex.RowIsRead | internal/ovpn/pki.go:48-83 | a printed V, R or E row reads back, with other attributes before and after the name, white space around times and serial number, unreadable times and further columns |
| PkiIndex.IndexRoundTrip | internal/ovpn/pki.go:43-85 | certificates printed with any junk rows between them read back in order |
| UserView.CollectUsers | api/v1.go:96 | one entry for each name that is not a server's, built from its last valid row or, with none valid, its last row, with its last session and static address; fails exactly on an unreadable index |
| UserView.EntryShows | api/v1.go:96 | what each entry shows, field by field, of the row that decides, the static address and the name's last session |
| UserView.EveryNameListed | api/v1.go:96 | every name without the server prefix has exactly one entry |
| UserView.ViewIsDetermined | api/v1.go:96 | the inputs fix the list up to its order |
| UserView.ViewShowsValid | internal/ovpn/manager.go:106-113 | the list shows a name valid exactly when the index has a valid row for it and it is no server's |
| UserView.AdmitClient | internal/ovpn/manager.go:91-113 | which requests are refused and why, the password measured in bytes; refused as existing exactly if nothing else is wrong, the index is readable and has a valid row |
| UserView.ValidNameIs | internal/ovpn/manager.go:74 | the names admitted are one to sixty-four letters, digits, underscores, dots and hyphens |
| UserView.CountUsers | api/v1.go:94 | exact total, revoked and expiring counts; the last two together never exceed the first |
| Pem.ExtractByLine | internal/service/certificate_worker.go:426-446 | the loop copies from the first line with the begin words to the first line with the end words |
| Pem.IndexIs | internal/ovpn/manager.go:228-238 | the text itself unless both markers occur; then from the first begin marker to the end of the first end marker, a failure if that comes first |
| Pem.BlockIsStretch | internal/service/certificate_worker.go:426-446 | by line: from the first line with the begin words to the first with the end words |
| Pem.BlockIsRest | internal/service/certificate_worker.go:426-446 | without a line with the end words, to the end of the text |
| Pem.BlockIsEmpty | internal/service/certificate_worker.go:426-446 | nothing without a line with the begin words, or after an earlier line with the end words |
| Pem.ByIndex | internal/ovpn/manager.go:228-238 | the positions found are the markers' and the slice is the certificate |
| Pem.ByLine | internal/service/certificate_worker.go:426-446 | the lines copied are the certificate |
| Pem.ExtractorsAgree | internal/service/certificate_worker.go:426-446 | with line feeds only and marker-free lines before and inside, both extractors return the certificate, whatever follows |
| Pem.ExtractionIsIdempotent | internal/ovpn/manager.go:228-238 | extracting again changes nothing, by either extractor |
| Pem.PanicsIff | internal/ovpn/manager.go:228-238 | slicing by position fails at run time exactly for texts with both markers in which some end marker stops before every begin marker |
| Pem.EndLineFirst | internal/ovpn/manager.go:228-238 | with an end marker's line first, one extractor fails at run time and the other returns nothing |
| Migrations.Database.Migrate | internal/db/db.go:59-107 | the loop's effect and answer for every combination of failing statements, a file stopped after any of its own statements included |
| Migrations.RunSucceedsIff | internal/db/db.go:59-107 | a run succeeds if and only if every recorded migration is looked up with an answer and every unrecorded one is read, executed and recorded; it has then executed exactly those, all their statements, and recorded them in order |
| Migrations.RunStopsAt | internal/db/db.go:75-104 | any other run stops at the first migration that does not pass, all pending ones before it applied, and leaves of that one what its statements did |
| Migrations.EveryRunKeeps | internal/db/db.go:75-104 | after any series of interrupted and complete runs the recorded versions are a prefix of file order, each was executed to its last statement, and at most the next one was begun unrecorded |
| Migrations.RunExecutesUnrecorded | internal/db/db.go:75-104 | with look-ups answered, a run executes unrecorded versions only, once each and in order; only the first can have been executed before; success records all |
| Migrations.QuietAfterSuccess | internal/db/db.go:85-89 | after a successful run no later run with look-ups answered executes or records anything |
| Migrations.RepeatsIff | internal/db/db.go:85-103 | a run executes a recorded version again exactly if a look-up for one fails, it is read and takes effect, and the run gets there |
| Migrations.RecordedVersionRunsAgain | internal/db/db.go:85-103 | two runs in which that happens |
| JobList.ListJobs | internal/service/certificate_worker.go:480-503 | without a limit each match is listed as often as there are jobs; with one the length is the smaller of the limit and that, spread evenly; nothing for a negative limit |
| ConfigStores.ConfigStore.Save | internal/repository/config_repository.go:32-62 | one call at a time, saving is a map update: the user's row changes or one row is added, a failed statement changes nothing |
| ConfigStores.ConfigStore.Get | internal/repository/config_repository.go:64-75 | returns what was last saved, or nothing |
| ConfigStores.ConfigStore.Delete | internal/repository/config_repository.go:86-93 | removes the user's row and no other; a failed statement changes nothing |

## Left out

- easy-rsa, openssl, systemctl and journalctl: each call is a step with any outcome.
- Runs that start with rows or files from an earlier process; a run here starts empty.
- `ovpn.Manager` and the pipeline writing into one clients directory: they are separate here, as in the program that starts the server without a pipeline.
- The order of effects in `RevokeClient`, the assembly of a bundle around the extracted certificate, and `portListed`.
- `ReadStaticIPs`: the static addresses are an argument of `CollectUsers`; how the two sources override each other is not modelled.
- Other fields of user rows, connection updates, the deletion of user rows, and listing and counting with filters.
- Memory visibility between goroutines: every assignment to a job is one indivisible step in a single order.
- Failures of reading randomness, and defaults for worker count and queue size.
- HTTP, JSON, JWT, routing, audit and API-key storage, configuration loading, file modes, log tailing.
- Layouts of dates: a date is an integer with a text form that reads back (`PkiIndex`) or any reading function (`StatusFile`).
- The text encoding: lengths of lines count characters, not bytes of UTF-8.
- Reading a migration's number from its file name.
- `StatusFile.ReadSessions` and `Pem.ExtractByLine` have their loops in methods of their own.
- `CertificateWorkers.CertificateWorker` covers the pipeline only; the service calls and the work inside a job are steps on values in `CertService`.
- `JobList.ListJobs` works on a snapshot of the jobs; its inner loop is a method of its own.
- `ConfigStores.ConfigStore.Save` is sequential; its two statements interleave with others in `CertService`.
- DeletedConfigs.ConfigLastsIff: whether a live creation still gets to write its file is not decided after the close, without a worker, or without a place in the channels.
