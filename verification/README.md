# Verified model of the zero-trust demonstrator

This project models the parts of the FACIS zero-trust demonstrator whose behaviour is hard to see from any one
function, and proves what they promise. `dafny verify dfyconfig.toml` checks all of it.

- **The admission verifier** (`Refs`, `Dsse`, `Profile`, `ProfileSpec`, `VerifierCache`, `VerifierRuns`,
  `VerifierTheorems`, `VerifierTiming`): digest references and their cache key, the pre-authentication encoding, the
  checks of the signing profile with their loops, the cache class, and a transition system of requests, flights,
  policy swaps and time. The theorems hold for every interleaving.
- **The admission provider** (`Provider`): the trust policy re-read from its file, the answer to a request for several
  images whose verifications complete in any order, and the latency histogram.
- **The journey engine** (`Journey`, `JourneyRun`, `JourneyRuns`, `JourneyTheorems`, `JourneySpec`): the per-user run, its
  commands and command history, the pending service request with its deadline, and the answer that may come late,
  twice or never.
- **The session boundary of the user interface** (`Sessions`, `SessionRuns`, `SessionTheorems`, `SessionSpec`): the class
  with its Maps, every method being a stretch between two awaits, and every interleaving of those stretches.
- **The acceptance features** (`Grouping`, `Gherkin`, `Pack`, `PackValid`, `PackCheck`, `PackTheorems`, `PackText`,
  `PackExact`, `PackSpec`, `Patterns`): validation of the annex, the scenarios made of its rows, the generated feature files as text
  and what that text reads as, the independent check that holds all feature files to the annex, and the patterns
  registered for pending clauses.
- **Algorithms** (`LineDiff`, `Challenge`, `Burst`, `Report`): the line diff, the challenge parser, the burst proof's
  recording and aggregation, and the requirement report.

How it is built. Code that changes state step by step is a class or a method with loops, proved equal to a function of
the old state or the inputs; the lemmas are about that function. Concurrency is a transition system whose steps are the
atomic steps of the program, and a theorem is about every run of it. The transition systems are stated over the step
functions as parameters with laws (`Setup`, `Engine`, `Ops`), and the theorem modules put the program's own functions
in their place (`RealSetup`, `Real`). The specification modules (`ProfileSpec`, `VerifierTiming`, `JourneySpec`,
`SessionSpec`, `PackSpec`) say what each operation is for without the functions that compute it. The registry, SHA-256, ECDSA, RS256, JSON and schema validation are arbitrary
functions (`Profile.World`, `Profile.Codec`), random identifiers are fresh ones, and clocks never run backwards.

What the proofs brought to light:

- `UIAuth` checks its limit of 500 sessions before it awaits the tokens, so logins that are past the check together can
  exceed it without bound (`ConcurrentLoginsPassTheLimit`). From a reachable state the logins under way can take the
  sessions over the limit exactly if sessions and exchanges under way are more than the limit together
  (`PassesLimitIff`); counting both at the check would keep the limit (`LimitHoldsWhenThrottled`).
- A remembered logout token is forgotten by a reset: `ReplayedLogoutRefused` holds over every run without one, and
  after one the token is taken again (`ReplayedAfterReset`).
- The annex's validation does not look at the requirements, but the generator writes them into the scenarios' names.
  A requirement of two lines whose second reads as a step is valid, and the feature check then rejects the generator's
  own file (`GeneratorFailsChecker`). The generated files are accepted when no further line of a name is more than
  description, in particular when every requirement is one line (`GeneratorSatisfiesChecker`, `OneLineRequirements`);
  among names whose further lines are blank, description or steps, exactly then (`GeneratedAcceptedIff`).
- A row identifier listed twice can never be complete in the requirement report: only its last place is filled in
  (`CompleteIff`, `DuplicateRowIsUncovered`).
- `lineDiff` is empty only for equal texts, but for texts that differ in a final newline only it shows a line that is
  neither added nor removed (`FinalNewlineOnly`, with the exact condition in `MarksALineIff`).
- An atlas scenario that ends without success and without a failing step would stop the journey engine in the middle of
  finishing the run (`FinishesSoundlyIff`); the catalogue has none, and `Journey.SpecOk` is what the engine needs of it.
- A verdict is stored only if the policy object it was computed under is still installed, so a policy installed anew
  under the same revision drops verdicts that would still hold; they are computed again, never served wrongly.
- ADM-NOT-DIGEST and ADM-REGISTRY-DENIED are answered without verification; `Coherence` says exactly when.

## Model

| member | source | states |
|---|---|---|
| Refs.ParseThenPrint | internal/cosignverify/cosignverify.go:174-190 | an accepted image string is exactly what its parsed reference prints as |
| Refs.PrintThenParse | internal/cosignverify/cosignverify.go:174-190 | every well-formed reference parses back from its printed form |
| Refs.ParsedIffWellFormed | internal/cosignverify/cosignverify.go:179-190 | some image string parses to a reference if and only if it is well-formed (explicit host, repository without colon, canonical digest) |
| Refs.ParsedIff | internal/cosignverify/cosignverify.go:179-190 | an image string parses to a reference if and only if it is written host, slash, repository, @ and sha256: with 64 lower-case hexadecimal digits, the host having a dot or a port or being localhost |
| Refs.KeyInjective | internal/cosignverify/cosignverify.go:220 | two well-formed references with revisions share a cache key only if both are equal |
| Refs.CheckAllowed | internal/cosignverify/cosignverify.go:192-200 | the loop over the repositories finds an entry exactly when one covers the reference |
| Refs.CoversBySegments | internal/cosignverify/cosignverify.go:192-200 | an entry covers a name if and only if its path segments are a prefix of the name's, so never a partial segment |
| Refs.AllowsMeans | internal/cosignverify/cosignverify.go:192-200 | a policy allows a reference exactly if some entry is its name or begins it up to a slash |
| Dsse.PaePrefixFree | internal/cosignverify/cosignverify.go:451-454 | equal encodings, even with something appended, come from equal parts, although the decimal lengths vary in width |
| Dsse.PaeInjective | internal/cosignverify/cosignverify.go:451-454 | equal pre-authentication encodings mean equal payload type and payload |
| Dsse.PaeWritten | internal/cosignverify/cosignverify.go:451-454 | the encoding written out: version, decimal length and content of the type, then of the payload |
| Profile.VerifySig | internal/cosignverify/cosignverify.go:386-393 | true exactly when some key of the policy verifies the signature |
| Profile.VerifySignature | internal/cosignverify/cosignverify.go:395-432 | the loop over the signature layers answers as the specification of the first deciding layer says |
| Profile.VerifyAttestation | internal/cosignverify/cosignverify.go:462-543 | the loop over the attestation layers with its flags answers as the outcomes of the first 16 layers decide |
| Profile.PredicateReturnedIff | internal/cosignverify/cosignverify.go:462-543 | a predicate is returned if and only if it is that of the first layer that passes every check, and no layer up to it broke off |
| Profile.RejectsMeaning | internal/cosignverify/cosignverify.go:486-538 | a layer is rejected if and only if it is readable, signed and bound and a statement of the wanted type, and its predicate does not validate |
| Profile.ClaimsMeaning | internal/cosignverify/cosignverify.go:486-538 | of the layers passed over exactly those are remembered that claim the type, by annotation or by statement |
| Profile.FailureCodeIs | internal/cosignverify/cosignverify.go:462-543 | without a predicate the code is down if the tag or a layer cannot be read, else invalid if some layer attests with a predicate that does not validate, else attestation-invalid if some layer claims the type, else missing |
| ProfileSpec.SignatureIs | internal/cosignverify/cosignverify.go:395-432 | the signature check passes exactly if one of the first 16 layers at the tag has the simple-signing type and a signature by a policy key over a readable document of this very image, and nothing broke off up to it; down exactly if the tag cannot be read or such a break comes first; unsigned otherwise |
| ProfileSpec.PlatformIs | internal/cosignverify/cosignverify.go:547-582 | the platform check passes exactly for a single image manifest whose configuration can be read and names the admitted platform, and which code each other case gives |
| ProfileSpec.AttestationIs | internal/cosignverify/cosignverify.go:462-543 | the predicate returned and the code of a failure, in terms of what the layers and the documents in them hold |
| Profile.VerifyOnce | internal/cosignverify/cosignverify.go:320-346 | the stages run in order and the first failure is the answer |
| Profile.AdmittedMeans | internal/cosignverify/cosignverify.go:320-346 | an admitted image has a trusted signature, the admitted platform, and both attestations bound to it |
| Profile.NoKeysNothingAdmitted | internal/cosignverify/cosignverify.go:386-393 | a policy without keys admits nothing |
| ProfileSpec.VerifyIs | internal/cosignverify/cosignverify.go:320-346 | the answer of the plain verification, if and only if: the four checks in their order, each said outright |
| VerifierCache.Verifier.SetPolicy | internal/cosignverify/cosignverify.go:165-171 | installs the policy and empties the cache, flights stay |
| VerifierCache.Verifier.Lookup | internal/cosignverify/cosignverify.go:275-285 | answers exactly from an entry that is there and has not expired, and with its verdict |
| VerifierCache.Verifier.Start | internal/cosignverify/cosignverify.go:242-256 | under one lock: cached answer, joined flight, refusal at the limit, or a new registered flight |
| VerifierCache.Verifier.Store | internal/cosignverify/cosignverify.go:293-318 | stores exactly a verdict under the installed policy, after sweeping and if need be emptying a full cache |
| VerifierCache.Verifier.Finish | internal/cosignverify/cosignverify.go:267-270 | takes the flight out of the registered ones |
| VerifierCache.StoreBounded | internal/cosignverify/cosignverify.go:287-318 | a store never takes the cache above its bound |
| VerifierRuns.NextKeepsInv | internal/cosignverify/cosignverify.go:211-318 | every step of every interleaving keeps the invariant: honest flights, single flight, honest cache, bounds, honest requests |
| VerifierRuns.RunKeepsInv | internal/cosignverify/cosignverify.go:211-318 | so does every run |
| VerifierRuns.CachedIsWitnessed | internal/cosignverify/cosignverify.go:220-223 | what a request finds cached was verified for its own image and revision, by injectivity of the key |
| VerifierTheorems.Coherence | internal/cosignverify/cosignverify.go:211-285 | any answer other than down is what a flight of this very run got from the plain verification of exactly that image, in what that flight read from the registry, under a policy of the revision the request loaded; or it is one of the two early refusals, exactly when due |
| VerifierTheorems.AdmittedUnderTheLoadedPolicy | internal/cosignverify/cosignverify.go:211-346 | where equal revisions mean equal policies, an admitted image was verified by a flight of the run under the very policy the request loaded, and is admissible in what that flight read |
| VerifierTheorems.FinishedWorkIsNeverLost | internal/cosignverify/cosignverify.go:242-315 | while policy and expiry leave it alone, and no other store finds the cache full of unexpired entries, a verification under way is the only one for its key, and once stored every lookup for that key is answered with its result, whoever still waits |
| VerifierTiming.AnsweredInTime | internal/cosignverify/cosignverify.go:242-318 | over every run: a request that reads a verdict from the cache gets what a flight of the run got from the plain verification of this very image, stored no longer ago than the lifetime of an admission or of a refusal |
| VerifierTiming.AnswersWhileItLasts | internal/cosignverify/cosignverify.go:275-318 | and conversely a stored verdict answers every request for its image and revision within its lifetime, as long as the policy stays and no store empties a full cache, and starts no further flight |
| VerifierTiming.StartMeans | internal/cosignverify/cosignverify.go:242-256 | a request without a recent verdict waits for the flight of its image and revision, else is answered down if 256 are under way, else launches one |
| VerifierTiming.DownHasACause | internal/cosignverify/cosignverify.go:211-285 | over every run: down is answered only to a request whose context ended, at 256 flights under way, or when its flight got no capacity or its verification ended so |
| VerifierTheorems.FlightCanProceed | internal/cosignverify/cosignverify.go:256-271 | until it is closed a flight always has a next step of its own |
| VerifierTheorems.ReachableStatesAreSound | internal/cosignverify/cosignverify.go:139-171 | every reachable state: each entry computed by a flight of the run, for its key, under the installed policy, and never down; at most 4096 entries, 256 flights and the concurrency in verification, one flight for each image and revision |
| Provider.ParsePolicy | services/admission-provider/provider.go:184-212 | accepts exactly the valid policy files and keeps the trimmed non-empty repositories |
| Provider.Trust.Load | services/admission-provider/provider.go:162-182 | the new revision, error and installed policy, in all three cases |
| Provider.AnswersByTheLastFile | services/admission-provider/provider.go:147-182 | over every run of reads: requests are answered if and only if the last file read is valid, and then installed, remembered and file revision agree |
| Provider.InstalledIsTheLastFile | services/admission-provider/provider.go:162-182 | where equal revisions mean equal policies, the installed policy is that of the last file |
| Provider.InstallsIff | services/admission-provider/provider.go:162-182 | without that, over every run of reads that ends validly, the installed policy is that of the first file since the revision last changed or a read failed, so it is the last file's if and only if these two have the same policy |
| Provider.RefusedUntilValid | services/admission-provider/provider.go:170-181 | after failed reads everything is refused until a valid one, which installs its policy anew |
| Provider.Serve | services/admission-provider/provider.go:74-134 | each system error exactly for its own cause; otherwise one item for each key, in order, with a value exactly for a passed verdict and else an error, in whatever order the verifications complete |
| Provider.ServedByTheLastFile | services/admission-provider/provider.go:74-182 | over every run of reads: a list of at most 100 keys is answered policy unavailable and without items if and only if the last file read is not valid, and with items if and only if it is |
| Provider.PolicyIff | services/admission-provider/provider.go:184-212 | a file gives a policy exactly if it is a document with keys and some entry that is not blank, and then which |
| Provider.PrefixesMean | services/admission-provider/provider.go:197-207 | the entries kept are all that are not blank, in order, each without the white space around it |
| Provider.BucketsAddUp | services/admission-provider/provider.go:304-316 | observations up to a bound are those up to the previous bound and those in the bucket |
| Provider.Metrics.Observe | services/admission-provider/provider.go:304-316 | one more observation, in the first bucket that holds it |
| Provider.Metrics.Render | services/admission-provider/provider.go:343-350 | each exposed bucket counts exactly the observations up to its bound, and the last all of them |
| Journey.JourneyEngine.Look | flows/demonstrator/journey-engine.js:272-290 | any message applies the deadline of the pending request, once |
| Journey.JourneyEngine.Command | flows/demonstrator/journey-engine.js:292-562 | store, reply and sent request of every command, with the order of its checks and the command history |
| JourneySpec.CommandMeans | flows/demonstrator/journey-engine.js:292-562 | every command is answered by the first refusal that is due or by the change it asks for, with the refusals, the history, the started run and the step taken said outright |
| JourneySpec.ResolveMeans | flows/demonstrator/journey-engine.js:305-387 | a start finds the scenario, variant and profile that are asked for, or says the first thing that is wrong with them |
| Journey.JourneyEngine.StartRun | flows/demonstrator/journey-engine.js:305-387 | a start is refused for each listed cause, else it installs the new run |
| Journey.JourneyEngine.EvaluateAtlasStep | flows/demonstrator/journey-engine.js:195-232 | the step's verdict and the feed events with their numbers |
| Journey.JourneyEngine.FinishAtlas | flows/demonstrator/journey-engine.js:163-194 | the run's end for local resources, success and refusal |
| Journey.JourneyEngine.NextStep | flows/demonstrator/journey-engine.js:400-562 | a next is refused for each listed cause, else advances one step or sends the final request |
| Journey.JourneyEngine.StopClassic | flows/demonstrator/journey-engine.js:495-514 | the failed check, all later ones skipped, the run ended |
| Journey.JourneyEngine.Complete | flows/demonstrator/journey-http-complete.js:1-41 | an answer is taken exactly when the run waits for it; late, malformed and good answers end the run accordingly |
| JourneyRun.EmittedNumbered | flows/demonstrator/journey-engine.js:207-211 | publishing events keeps every source's numbers 0, 1, 2, … |
| JourneyRun.FinishesSoundlyIff | flows/demonstrator/journey-engine.js:163-257 | an atlas run played from its start to its end has ended and has at most one completion event; it has one if and only if its spec has a resource of its own, is to succeed, or has a step that fails |
| JourneyRun.StartedSound | flows/demonstrator/journey-engine.js:233-257 | a started run satisfies the whole run invariant |
| JourneyRun.AdvancedSound | flows/demonstrator/journey-engine.js:411-562 | so does every accepted next, classic or atlas |
| JourneyRun.AnsweredSound | flows/demonstrator/journey-http-complete.js:17-38 | so does an answer or an expiry |
| JourneyRuns.NextKeepsInv | flows/demonstrator/journey-engine.js:264-562 | every action keeps all runs sound, identifiers apart and tickets with their own run |
| JourneyRuns.ClosedForever | flows/demonstrator/journey-http-complete.js:5-10 | a request nothing waits for is never waited for again, and its answers change nothing |
| JourneyTheorems.ReachableStatesAreSound | flows/demonstrator/journey-engine.js:163-562 | every reachable run is its owner's; it has ended exactly if it has a result and one completion event; its steps, checks and feed numbers are exactly as far as it is; each history holds at most the last 100 commands, all different |
| JourneyTheorems.CompletedAtMostOnce | flows/demonstrator/journey-http-complete.js:5-10 | from any reachable state where a request is no longer awaited, no later answer to it changes anything, whatever happens in between |
| JourneyTheorems.WaitEnds | flows/demonstrator/journey-engine.js:272-290 | its own answer, any message after the deadline and a reset each end the wait, with the right result; a message before the deadline changes nothing |
| JourneySpec.AnswerMeans | flows/demonstrator/journey-http-complete.js:1-41 | an awaited answer by the deadline ends the run as Success, Denied, NotAvailable or Error with last check Pass, Fail, Unavailable or Errored; a missing or ill-formed one as Error, a late one as NotAvailable; any other answer changes nothing |
| JourneySpec.DeadlineMeans | flows/demonstrator/journey-engine.js:272-290 | a message ends a request whose deadline has passed as NotAvailable and changes nothing otherwise |
| JourneySpec.DeliveredIff | flows/demonstrator/journey-http-complete.js:5-21 | over every run: a run with the service has ended as Success if and only if that answer to its own request came while it waited, by the deadline |
| JourneyTheorems.NoLateSuccess | flows/demonstrator/journey-http-complete.js:12-21 | in every reachable state a run with the service that ended as success got that answer, processed by the deadline |
| JourneyTheorems.StopsWhereItShould | flows/demonstrator/journey-engine.js:452-514 | a classic run with stop step k ends exactly at k, with Pass before, the failure at k and Skipped after |
| JourneyTheorems.RunsOnlyGoForward | flows/demonstrator/journey-engine.js:389-562 | over any stretch of actions a run never goes back, and one that has ended stays exactly as it is |
| JourneyTheorems.AcceptedNextTakesAStep | flows/demonstrator/journey-engine.js:400-562 | an accepted next takes exactly one of the steps that are left |
| Sessions.UIAuth.MarkExpired | flows/demonstrator/identity-on-start.js:40 | the end is remembered; one other end is lost for it if the memory is full, and none otherwise |
| Sessions.UIAuth.Cleanup | flows/demonstrator/identity-on-start.js:39 | exactly the expired sessions, transactions and tokens go; the ends remembered are the unexpired ones and those of the expired sessions, all of them if they fit and no others in any case |
| Sessions.UIAuth.EnterSession | flows/demonstrator/identity-on-start.js:89-91 | a request goes on exactly with a session that is there, fresh and unexpired |
| Sessions.UIAuth.EnterCallback | flows/demonstrator/identity-on-start.js:105-108 | the transaction is used up in any case; the exchange starts exactly with a good transaction below the limit |
| Sessions.UIAuth.FinishCallback | flows/demonstrator/identity-on-start.js:108 | a session opens exactly when no reset came in between |
| Sessions.UIAuth.BackChannelLogout | flows/demonstrator/identity-on-start.js:128 | refused exactly for a remembered token or a full memory; else exactly the named sessions go |
| Sessions.UIAuth.FrontChannelLogout | flows/demonstrator/identity-on-start.js:129 | exactly the sessions with that identifier go |
| Sessions.UIAuth.ApplyRefresh | flows/demonstrator/identity-on-start.js:95 | new tokens are written only into a session that is still there |
| Sessions.UIAuth.Pass | flows/demonstrator/identity-on-start.js:98 | a request passes exactly on a session that is still there |
| Sessions.UIAuth.JoinRefresh | flows/demonstrator/identity-on-start.js:95-96 | the refresh under way is joined, a new one registered only where there is none |
| SessionRuns.NextEffects | flows/demonstrator/identity-on-start.js:89-129 | what one step can change: only the end of a callback opens a session, a call passes only on a session that is there, a refresh starts only where none is under way |
| SessionRuns.NextKeepsInv | flows/demonstrator/identity-on-start.js:89-129 | the refreshes known are exactly those under way, one for each session; calls and transactions stay sound |
| SessionRuns.RevokedStays | flows/demonstrator/identity-on-start.js:89-99 | over a step a revoked session stays away, unchanged, and no request passes on it |
| SessionTheorems.ReachableStatesAreSound | flows/demonstrator/identity-on-start.js:95-101 | in every reachable state at most one refresh is under way for each session, and transactions and remembered tokens are bounded |
| SessionTheorems.RemovedIff | flows/demonstrator/identity-on-start.js:38-129 | a step takes a session away if and only if it is a logout that ends or names it, a cleanup past its lifetime, a request on it after it expired, a failed refresh, a login that replaces it, or a reset |
| SessionTheorems.RemovedForever | flows/demonstrator/identity-on-start.js:89-129 | in every reachable state, a session that was opened and is gone is never there again, no request passes on it and no late refresh changes it, in every continuation |
| SessionTheorems.RemovalIsForever | flows/demonstrator/identity-on-start.js:38-129 | so each of the steps listed for RemovedIff ends a session for good |
| SessionTheorems.ReplayedLogoutRefused | flows/demonstrator/identity-on-start.js:128 | over every run without a reset, a logout token that was taken is refused until its memory ends, and then changes nothing but what the cleanup sweeps |
| SessionTheorems.ReplayedAfterReset | flows/demonstrator/identity-on-start.js:38 | after a reset it is taken again |
| SessionTheorems.NoLoginFromBeforeAReset | flows/demonstrator/identity-on-start.js:38 | after a reset no callback begun before it opens a session and no earlier transaction starts one |
| SessionTheorems.LoginTransactionUsedOnce | flows/demonstrator/identity-on-start.js:106 | a login transaction starts at most one exchange |
| SessionSpec.ExchangeIff | flows/demonstrator/identity-on-start.js:102-108 | over every run: a callback starts an exchange if and only if its request is in order, its login was begun with this very state less than five minutes ago, no callback used it and no reset came since, and fewer than 500 sessions are alive |
| SessionSpec.OpenedMeans | flows/demonstrator/identity-on-start.js:108 | a session opens exactly at the end of an exchange of this generation that brought tokens, as of now |
| SessionSpec.EnterMeans | flows/demonstrator/identity-on-start.js:89-91 | a request goes on exactly with a session that is there, neither past its lifetime nor expired |
| SessionSpec.WaitMeans | flows/demonstrator/identity-on-start.js:95-96 | with less than a minute left a request waits for the refresh under way for its session, or begins one |
| SessionSpec.RefreshMeans | flows/demonstrator/identity-on-start.js:95 | a refresh succeeds exactly if it brings tokens and its session is still there |
| SessionSpec.PassMeans | flows/demonstrator/identity-on-start.js:92-99 | which steps let a request pass, and on which session |
| SessionSpec.ContentMeans | flows/demonstrator/identity-on-start.js:89-129 | a session that stays is as it was, but for a refresh that comes back for it and a request that passes on it |
| SessionTheorems.FinishWithinLimitIff | flows/demonstrator/identity-on-start.js:108 | a callback leaves the sessions within the limit if and only if the others are below it at that moment |
| SessionTheorems.PassesLimitIff | flows/demonstrator/identity-on-start.js:105-108 | in every reachable state: some continuation without further callbacks exceeds the limit if and only if the sessions and the exchanges under way exceed it together |
| SessionTheorems.LimitHoldsWhenThrottled | flows/demonstrator/identity-on-start.js:105-108 | the limit holds over every run in which a callback is entered only while sessions and exchanges under way are below it |
| SessionTheorems.ConcurrentLoginsPassTheLimit | flows/demonstrator/identity-on-start.js:108 | for every n there is a run that ends with n sessions |
| Grouping.GroupIsSelection | cmd/bddpack/pack.go:117-134 | a group is exactly the items with its key, in their order |
| Grouping.GroupedPartitions | cmd/bddpack/pack.go:117-134 | grouping loses nothing and doubles nothing |
| Pack.ScenariosOf | cmd/bddpack/pack.go:117-134 | the loop with its index map groups the rows by shared execution |
| Pack.TagsOf | cmd/bddpack/pack.go:103-115 | the tags of a scenario |
| Gherkin.Parse | cmd/bddpack/verify.go:30-38 | reads a feature text line by line to the tree the specification of the reading gives |
| Gherkin.StepLineIff | cmd/bddpack/verify.go:30-38 | which lines are read as steps |
| Pack.NameOf | cmd/bddpack/pack.go:93-101 | the distinct requirements of the scenario's rows, joined |
| PackSpec.NameMeans | cmd/bddpack/pack.go:93-101 | the name joins the requirements of the rows, all of them, each once, in the order they come first |
| Pack.Render | cmd/bddpack/pack.go:286-330 | the texts of the generated feature files by path, names included |
| PackSpec.HeadingMeans | cmd/bddpack/pack.go:319-330 | a generated file starts with the notice, the title of its family and where its rows are from |
| PackValid.Validate | cmd/bddpack/pack.go:142-245 | no fault is reported if and only if the annex is valid |
| PackValid.CheckRunners | cmd/bddpack/pack.go:190-196 | no fault if and only if every family has one runner |
| PackValid.MixedClauses | cmd/bddpack/pack.go:226-238 | no fault if and only if no clause is used by implemented and other rows |
| PackValid.CompleteIff | cmd/bddpack/pack.go:213-238 | the recorded statuses show a mixed clause exactly when the rows have one |
| PackSpec.IdentifiersMean | cmd/bddpack/pack.go:137-138 | which row and test identifiers are well-formed: prefix and two or three digits |
| PackSpec.EvidenceMeans | cmd/bddpack/pack.go:139 | which evidence paths are well-formed: a word and one group of three digits, or two groups under shared |
| PackCheck.Verify | cmd/bddpack/verify.go:17-168 | the problems reported for all files and rows, in order |
| PackCheck.Collect | cmd/bddpack/verify.go:42-72 | every scenario with the tags it inherits and the backgrounds that apply to it |
| PackTheorems.TreesSatisfyChecker | cmd/bddpack/verify.go:17-168 | for every valid annex the check reports nothing about the trees the generated files are meant to have, in any order, but the missing scenarios of hand-written families |
| PackText.ReadingUndoesRendering | cmd/bddpack/pack.go:319-330 | the text of a generated file reads as the tree that is meant, if no further line of a name is more than description |
| PackText.GeneratorSatisfiesChecker | cmd/bddpack/pack.go:286-330 | for every valid annex with such names, the check reports nothing about the generated texts as it parses them, in any order, but the missing scenarios of hand-written families |
| PackText.OneLineRequirements | cmd/bddpack/pack.go:93-101 | requirements of one line each make such names |
| PackText.GeneratedAcceptedIff | cmd/bddpack/verify.go:30-38 | if the further lines of the names are blank, description or steps, the check accepts the generated texts if and only if none of them is a step |
| PackText.StepInRequirementReported | cmd/bddpack/pack.go:142-180 | whatever the row: with a step on a second line of its requirement the annex of that row is valid, and the check reports its file |
| PackText.GeneratorFailsChecker | cmd/bddpack/pack.go:319-330 | such an annex, for every layout |
| PackTheorems.GeneratedFilesCount | cmd/bddpack/verify.go:155-162 | each row of a generated family is tagged exactly once, every other row never |
| PackTheorems.NothingOverwritten | cmd/bddpack/pack.go:286-317 | the generated files have different paths, so the map holds all of their texts |
| PackTheorems.EachRowInOneScenario | cmd/bddpack/pack.go:117-134 | the scenarios hold each row once; a shared scenario holds exactly the rows that list it, in order |
| PackExact.CleanPackIsTheAnnex | cmd/bddpack/verify.go:12-168 | when nothing is reported, each row is tagged exactly once and the scenario with its tag is the row word for word, with the right tags and no background, in the file of its first row and with exactly its rows' test identifiers |
| PackExact.ReportsNothingIff | cmd/bddpack/verify.go:12-168 | for a valid annex nothing is reported if and only if every file parses, no row, test or pending tag is outside a scenario, every row tag names a row, every scenario with row tags has their test identifiers, status, cluster flag, file and exact wording, and each row is tagged exactly once |
| PackSpec.ReportsNothingExactly | cmd/bddpack/verify.go:12-168 | the same, without any function of the check: files, rules and scenarios in place, tags as they are written, the test identifiers due as often as due, wording, path, flags and background |
| PackExact.SameTestIdsIff | cmd/bddpack/verify.go:102-115 | comparing the sorted joined lists compares the test identifiers, each as often |
| Patterns.LiteralIffEscape | cmd/bddpack/pack.go:264-281 | a pattern reads as a text if and only if it is the text's escaped form: escaping is undone by unescaping and leaves no bare metacharacter |
| Patterns.JsPattern | cmd/bddpack/pack.go:270-281 | the builder loop writes the escaped literal |
| Patterns.PatternMatchesOnlyItsText | cmd/bddpack/pack.go:264-281 | a clause's pattern matches that clause and no other text, under both runners |
| Patterns.PendingTextsOf | cmd/bddpack/pack.go:248-262 | the distinct clauses of one runner's pending rows, in order |
| Patterns.PendingTextsAre | cmd/bddpack/pack.go:248-262 | these are exactly the clauses some such row uses, each once |
| Patterns.ClausesMeetTheirPatterns | cmd/bddpack/pack.go:213-262 | in a valid annex each pending clause is matched by exactly one registered pattern of its runner, and a clause of an implemented row by none |
| LineDiff.LineDiff | cmd/policy-hook-probe/harness.go:447-492 | table and walk print the diff of the specification |
| LineDiff.FillTable | cmd/policy-hook-probe/harness.go:455-467 | the nested loops fill the table with the lengths of longest common subsequences |
| LineDiff.WalkCorrect | cmd/policy-hook-probe/harness.go:468-490 | dropping added lines gives the first text's lines, dropping removed ones the second's |
| LineDiff.WalkOptimal | cmd/policy-hook-probe/harness.go:455-490 | the unchanged lines are a common subsequence and no common subsequence is longer |
| LineDiff.DiffDeterminesBothTexts | cmd/policy-hook-probe/harness.go:447-492 | both texts' lines can be read back from the printed diff |
| LineDiff.EmptyIffEqual | cmd/policy-hook-probe/harness.go:449-454 | the output is empty if and only if the texts are equal |
| LineDiff.MarksALineIff | cmd/policy-hook-probe/harness.go:447-492 | some line is marked if and only if the line lists differ |
| LineDiff.FinalNewlineOnly | cmd/policy-hook-probe/harness.go:449-456 | all texts that differ in one final newline only: the output is not empty and marks no line |
| Challenge.ParseChallenge | internal/ociclient/ociclient.go:349-372 | the loop ends on every header and reads what the specification reads |
| Challenge.ParseUndoesPrinting | internal/ociclient/ociclient.go:349-372 | parsing undoes printing for every scheme and all parameters, quoted or not, however separated |
| Challenge.CollectedHas | internal/ociclient/ociclient.go:351-370 | with keys that differ in lower case the result has exactly these keys with their values |
| Challenge.LowerMeans | internal/ociclient/ociclient.go:349-372 | keys are lowered letter by letter |
| Burst.NextKeepsInv | cmd/policy-hook-probe/proofs.go:376-407 | every step keeps each recorded flag equal to "started later than the strike" |
| Burst.Aggregate | cmd/policy-hook-probe/proofs.go:416-457 | every counter, status count, flag, maximum and anomaly in terms of the responses |
| Burst.TotalsConserve | cmd/policy-hook-probe/proofs.go:416-457 | sent = completed + errors = before + after, and the verdict holds if and only if something was sent after the strike and all of it was refused as unavailable |
| Burst.CountIgnoresOrder | cmd/policy-hook-probe/proofs.go:421 | the order of the responses does not matter for any count |
| Burst.BurstIsCountedRightly | cmd/policy-hook-probe/proofs.go:376-457 | for every schedule, what is counted as after the strike are exactly the responses started later than it |
| Report.Status | internal/bddreport/bddreport.go:59-85 | failed if a step or hook fails or is a stray pending, passed only with steps that all passed, else not run |
| Report.StatusMeans | internal/bddreport/bddreport.go:59-85 | failed if and only if some step or hook fails, passed if and only if there are steps and they and all hooks passed |
| Report.CoversMeans | internal/bddreport/bddreport.go:132-150 | an execution covers a row exactly if it has the row identifier as a tag |
| Report.WorstIsJoin | internal/bddreport/bddreport.go:157-165 | the weaker of two results is a join with "none" as its least element |
| Report.Coverage | internal/bddreport/bddreport.go:124-155 | the loop over features, elements and tags fills in exactly the rows and unknown tags of the specification |
| Report.ResultMeans | internal/bddreport/bddreport.go:124-165 | a row's result in terms of all executions that cover it |
| Report.PassedIff | internal/bddreport/bddreport.go:109-115 | a row passed if and only if some execution covers it and all that cover it passed |
| Report.MergedResult | internal/bddreport/bddreport.go:97-107 | the result of a row over two lists of executions is the weaker of the separate results |
| Report.MergedReport | internal/bddreport/bddreport.go:124-155 | the report over the features of two runs is the two reports merged: each row with the distinct names of both and the weaker result, and the unknown tags of both |
| Report.OrderDoesNotMatter | internal/bddreport/bddreport.go:97-165 | the result does not depend on the order of the executions |
| Report.Complete | internal/bddreport/bddreport.go:223-244 | succeeds exactly when no row is uncovered or failed |
| Report.CompleteIff | internal/bddreport/bddreport.go:124-244 | a report is complete if and only if no row is listed twice and every row is covered and without a failed execution |
| Report.DuplicateRowIsUncovered | internal/bddreport/bddreport.go:125-130 | a row listed twice is uncovered in its first place although its execution passed |

## Left out

- Everything outside the process: HTTP, TLS, Kubernetes, Docker, Envoy, files and logging. The registry is an arbitrary response function, the clock a non-decreasing integer, a trust file an arbitrary content.
- Cryptography, JSON, base64, PEM and schema validation are arbitrary functions; that equal revisions mean equal policies is an assumption, stated where it is used.
- The free text of results, replies and problems: codes and the values they depend on are modelled, wording is not.
- Profile.VerifyAttestation: the context of a verification may end at any registry access, which the model puts into the registry's answers.
- Journey.JourneyEngine.Command: runs are values in a map, so the sharing of one run object between reader and map is not modelled; evidence, display sections, timestamps and roles are left out, and a command identifier is taken as already trimmed.
- Journey.Resolve: names are looked up in a map, while the program's object lookup also finds inherited property names.
- Journey.JourneyEngine.Look: which of several shared runs an observer sees is an arbitrary choice; the deadline is applied to that run as the program does.
- Sessions.UIAuth.MarkExpired: which remembered end is dropped at the limit is an arbitrary choice, while the program drops the oldest; it only decides between two refusal codes.
- Sessions.UIAuth.EnterSession: roles, cross-site tokens, cookies and the key set of the issuer are not modelled; token verification is a step that succeeds or fails.
- PackCheck.Verify: works on syntax trees; line numbers are not modelled, and files come as a list in any order.
- Gherkin.Parse: reads comments, tags, one feature, scenarios, steps and free description, as far as generated files use them; of a file with another construct (rules, backgrounds, outlines, examples, tables, doc strings, another language, a second feature) it says only that it is not covered. The Gherkin library's own source is not part of this model.
- PackText.GeneratedAcceptedIff: covers names whose further lines are blank, description or steps. A name may also hold comments, tags, further scenarios or other keywords, which can make the check accept or reject the file in other ways.
- Pack.Render: the catalogue, the row list and the generated step sources are not modelled, only the patterns these contain.
- Patterns.PatternMatchesOnlyItsText: covers anchored patterns of literal characters and escapes, the only ones generated, and not the regular expression engines.
- Challenge.ParseChallenge: lower case is that of ASCII letters, while the program also folds other letters.
- Burst.Aggregate: percentiles, samples and rounding are left out; the responses come already sorted, and the counts do not depend on that.
- Provider.Metrics.Observe: durations are real numbers without rounding, and the verdict counters are left out.
- Report.Coverage: the Markdown and CSV sheets are left out.
- The retry loop, redirects and the bounded token cache of the registry client, TLS file rotation, and the configuration loaders: they would only add easy members.
- The participant and protected-resource servers, connectors, the web interface and the installers.
