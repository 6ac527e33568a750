# finops-tools: verified core

A Dafny model of the parts of finops-tools whose correctness is hardest to see from the code: the
credentials file, the shared loaders and handles, support lifecycles, OU walks and cost rollups, bulk cost
fetching, trust-policy rewriting, account migration, and snapshot costs. `dafny verify dfyconfig.toml`
checks everything.

Code that changes state step by step is modelled as classes and methods with loops, each proved against a
function or predicate that says what it computes; concurrent and crash-prone protocols are transition
systems over any number of callers and any schedule. Go's map iteration is a choice of any remaining key,
unstable sorts and worker completion orders are arbitrary, and the results are shown not to depend on them.
Money and sizes are exact reals, instants are integers, lower-casing and trimming are those of ASCII.

A function that a method is proved against is itself tied down by laws that do not use it: the modules whose
names end in `Meaning`, `HealthKeys`, `FetchedTotals` and the lemmas named `...Mean` and `...Means` say in terms of
the texts, dates, ledgers, trees and call outcomes alone what the operations yield.

| file | what it covers |
|---|---|
| `CredentialsFile`, `CredentialsMeaning` | the INI reader and printer, and replacing one profile |
| `PayerSession`, `LazyService`, `CatalogSharing` | single-flight loading and handle ownership, as protocols |
| `CatalogLoading`, `HealthKeys` | the paginated loaders, and what their entries are filed under |
| `HealthLifecycle`, `HealthOrder`, `HealthLookup`, `HealthMeaning` | folding lifecycle events, lookup with a memo, classification, and what events mean by their text |
| `ScanResult`, `ScanMeaning` | the scan over accounts, partition, summaries and the retry merge |
| `Hierarchy`, `OrgTree`, `OrgWalk`, `OrgListing` | OU trees, the depth-first walk, the breadth-first listing |
| `OuTotals`, `OuRows`, `OuRollup`, `OuPaths`, `OrgRollup` | the OU cost rollup and the pipeline from walk to rows |
| `Charges`, `CostExplorer`, `BulkFetch`, `CostFetch`, `FetchedTotals`, `FetchedRows` | cost queries over a ledger, bulk fetching, merging, what reports add up to, reports by OU |
| `TrustPolicy`, `TrustMeaning`, `Migration`, `MigrationHistory` | the trust rewrite, the migration protocol, and several migrations of one account |
| `RdsSnapshotCosts`, `EbsSnapshotCosts`, `EbsMeaning` | snapshot cost attribution |
| `Text`, `Wrappers`, `Tasks` | strings as Go treats them, `Option` and `Result`, concurrent tasks |

Four promises hold only under a condition, and each is proved with its exact extent and an input that
breaks it. Bulk and single fetches agree on everything Cost Explorer can report if and only if each target's
trimmed account ID is the ID of exactly one target (`BulkAgreesIffAskedOnce`, `BulkCanDisagree`). The listed
cost of EBS snapshots that all have a start time stays within the run rate under every filter if and only if
no ID that costs something occurs twice (`AlwaysWithinRunRateIff`, `RepeatedIdExceedsRunRate`). A migration
can lose tags if and only if two of an account's keys are equal up to white space around them and have
different values (`TagsCanBeLostIff`, `ConsistentIffNoKeysCollide`, `CollidingTagsCanBeLost`); if setting
repeated keys is refused, it cannot (`RefusingRepeatsKeepsTags`). A further migration, for instance back, keeps
tags that are saved in the recovery file or at the account's organization if and only if its source lists no
tags, or all of those and no greater value for their keys (`SavedTagsCanBeLostIff`,
`MigratingBackCanLoseTags`). The monotonicity of support status needs
no restriction to one version candidate.

## Model

| member | source | states |
|---|---|---|
| `CredentialsFile.ParseIni` | cli/internal/aws/credentials_file.go:127-161 | The line loop reads exactly the sections that a file's text means, folding the lines in order: comments, blanks and lines outside a section are skipped, a repeated section continues, a repeated key overwrites |
| `CredentialsFile.SortedNames` | cli/internal/aws/credentials_file.go:184-213 | Whatever order the map is visited in, the exchange sort returns the strictly sorted enumeration of its keys |
| `CredentialsFile.ExchangeSort` | cli/internal/aws/credentials_file.go:192-196 | The pairwise exchange in place ends strictly sorted with the same names, each once |
| `CredentialsFile.WriteIni` | cli/internal/aws/credentials_file.go:163-182 | The printed text is the rendering of a sorted layout that lists every section and every key exactly once |
| `CredentialsFile.WriteSection` | cli/internal/aws/credentials_file.go:164-181 | One section's heading, key lines in sorted order and blank line are appended to the text |
| `CredentialsFile.OutputIsDeterministic` | cli/internal/aws/credentials_file.go:184-213 | Any two sorted layouts of the same sections are equal, so the output does not depend on map order |
| `CredentialsFile.ParseIsWellFormed` | cli/internal/aws/credentials_file.go:127-161 | Every text at all parses to sections whose names, keys and values are trimmed and printable |
| `CredentialsFile.WellFormedRoundTrip` | cli/internal/aws/credentials_file.go:127-182 | Reading what is printed of well-formed sections gives exactly those sections |
| `CredentialsFile.RoundTripIffWellFormed` | cli/internal/aws/credentials_file.go:127-182 | Printing and reading back is the identity if and only if the sections are well formed |
| `CredentialsFile.RewritingAFileKeepsIt` | cli/internal/aws/credentials_file.go:127-182 | For every text: parsing what the printer makes of the parsed text gives the parsed text again, without hypotheses |
| `CredentialsFile.MergedWellFormed` | cli/internal/aws/credentials_file.go:87-107 | Laying a session over a profile keeps the file well formed if and only if the profile name and the session's values need no trimming and contain no line break |
| `CredentialsFile.MergedReadsBack` | cli/internal/aws/credentials_file.go:47-107 | After the merge the profile reads back as the session written, region defaulted and stale token gone; unrelated keys and all other profiles are unchanged |
| `CredentialsFile.File.ReadProfile` | cli/internal/aws/credentials_file.go:47-70 | Reads the session of a profile; a missing file, profile or access key yields none |
| `CredentialsFile.File.WriteProfile` | cli/internal/aws/credentials_file.go:72-125 | It succeeds just for a session with both keys if the disk is willing; then the file holds the rendering of the merged sections, reads back the written session and leaves other profiles alone; otherwise it is unchanged |
| `CredentialsMeaning.ReadingMeans` | cli/internal/aws/credentials_file.go:127-161 | Whatever the text: the sections read are those that its lines head, and a key has in a section the value that it was last given under a heading of that name; comments, lines without an equals sign and lines under no named heading give nothing |
| `CredentialsMeaning.RenderedIsPrinted` | cli/internal/aws/credentials_file.go:163-182 | The text written has for each section its name in brackets and a line with the key, an equals sign between blanks and the value for each key, and an empty line between sections |
| `CredentialsMeaning.SessionMeans` | cli/internal/aws/credentials_file.go:47-70 | A profile holds a session exactly if it has both keys, with the token it has, if any, and the region it has or us-east-1 |
| `CredentialsMeaning.OverlaySays` | cli/internal/aws/credentials_file.go:87-107 | After a session has been laid over a profile it has the session's keys and region, its token if there is one and none otherwise, and its other keys as before |
| `PayerSession.Guarded.EnterLocked` | cli/internal/awsauth/payer.go:118-140 | The decision under the lock at the top of the loop: replay the failure, serve the current state, wait, or start loading |
| `PayerSession.Guarded.ConcludeLocked` | cli/internal/awsauth/payer.go:147-157 | The update under the lock after a load: install or record, close and clear the pending channel; a cancelled caller's failure is not recorded |
| `PayerSession.Guarded.BlameLocked` | cli/internal/awsauth/payer.go:88-94 | Recording that the state obtained by a refresh failed again |
| `PayerSession.EveryRunKeepsInv` | cli/internal/awsauth/payer.go:71-182 | The protocol invariant holds along every schedule of any number of callers |
| `PayerSession.EveryRunIsSafe` | cli/internal/awsauth/payer.go:71-182 | In every interleaving: no channel is closed twice or while nil, at most one load or login is in flight, none while a failure is recorded, and a caller that reports a state as failed is never given that state |
| `PayerSession.FailureIsFinal` | cli/internal/awsauth/payer.go:113-160 | Once recorded, a failure is never cleared or replaced and no further load or login starts |
| `PayerSession.ReplacedAtMostOnce` | cli/internal/awsauth/payer.go:113-160 | Each state, and the initial absence of one, is replaced by at most one successful load |
| `PayerSession.NothingAfterAFailedAttempt` | cli/internal/awsauth/payer.go:113-160 | An attempt that recorded a failure is the last attempt of its run |
| `PayerSession.NoDeadlock` | cli/internal/awsauth/payer.go:113-160 | While some caller has not returned, some caller can move |
| `PayerSession.OnlyReportedIsReplaced` | cli/internal/awsauth/payer.go:113-182 | In every run a caller loads only for want of a state or to replace the one that it reports as failed |
| `PayerSession.InstalledStateIsReused` | cli/internal/awsauth/payer.go:135-139 | With a state installed and nothing pending or failed, a caller that reports no failure is given it without a call |
| `PayerSession.WorkingStateServesAll` | cli/internal/awsauth/payer.go:71-182 | While the installed state works for everybody, along every schedule all callers are served with it and no load or login starts |
| `PayerSession.LoadIsConcluded` | cli/internal/awsauth/payer.go:142-182 | A caller that finds nothing usable makes just the calls of one load, with a login and a second load after a credential error; success installs the new state and failure is recorded, answered, and kept for everybody |
| `PayerSession.CancelledLoadIsAbandoned` | cli/internal/awsauth/payer.go:142-182 | A caller that is cancelled while it loads does not log in; its failure is not recorded, the waiting ones are woken, and what was installed stays |
| `PayerSession.RefusedRequestRefreshesOnce` | cli/internal/awsauth/payer.go:71-110 | A request refused for its credentials reports the state once; refused again, it is the recorded failure unless something has changed since; every other answer is just returned |
| `LazyService.Guarded.LookupLocked` | backend/internal/snowflake/lazy.go:154-169 | Serve the installed service, replay a recent failure within the cool-down, or connect |
| `LazyService.Guarded.RecordFailureLocked` | backend/internal/snowflake/lazy.go:148-152 | Records the failure and its time and touches nothing else |
| `LazyService.Guarded.BeginCheckLocked` | backend/internal/snowflake/lazy.go:89-99 | A check without a service forgets a recorded failure; otherwise it takes the handle to ping |
| `LazyService.Guarded.InstallLocked` | backend/internal/snowflake/lazy.go:189-204 | Install the connected handle unless another caller was faster, in which case the own handle is to be closed |
| `LazyService.Guarded.DropLocked` | backend/internal/snowflake/lazy.go:105-120 | After a failed ping the installed handle is dropped only if it is still the one that was pinged |
| `LazyService.Guarded.ReleaseLocked` | backend/internal/snowflake/lazy.go:128-141 | Close takes the handle out and leaves service and pool both unset |
| `LazyService.EveryRunKeepsInv` | backend/internal/snowflake/lazy.go:84-205 | Ownership and lock invariants hold along every schedule |
| `LazyService.EveryHandleHasOneOwner` | backend/internal/snowflake/lazy.go:84-205 | In every interleaving of queries, checks and closes each opened handle is exactly one of installed, held by one in-flight caller, or closed; none is closed twice; service and pool are set together |
| `LazyService.QuiescentRunLeaksNothing` | backend/internal/snowflake/lazy.go:84-205 | Once all callers have returned, every opened handle but the installed one is closed |
| `LazyService.ServedHandleIsOpen` | backend/internal/snowflake/lazy.go:154-205 | A caller is served only from a handle that is open at that moment |
| `LazyService.WorkingHandleServesAll` | backend/internal/snowflake/lazy.go:84-205 | While the installed handle answers and nobody closes the service, along every schedule all queries are served by it, all checks succeed, and nothing is opened, closed or replaced |
| `LazyService.OutageIsReplayed` | backend/internal/snowflake/lazy.go:159-166 | For half a minute after a failure, along every schedule of queries, all are told that failure and none opens a handle |
| `LazyService.QueryConnects` | backend/internal/snowflake/lazy.go:171-204 | A query that finds nothing installed and no recent failure opens one handle, and once it answers, installs it and is served by it |
| `LazyService.OpeningFails` | backend/internal/snowflake/lazy.go:171-178 | If it cannot be opened, the failure is recorded with its time and returned |
| `LazyService.PingFails` | backend/internal/snowflake/lazy.go:180-187 | If it does not answer, it is closed, and the failure is recorded with its time and returned |
| `LazyService.CheckReconnects` | backend/internal/snowflake/lazy.go:89-99 | A check without a service opens a handle at once, whatever has failed and when |
| `LazyService.CheckPings` | backend/internal/snowflake/lazy.go:100-104 | A check of an installed handle changes nothing, and succeeds if the handle answers |
| `CatalogSharing.Guarded.EnterLocked` | core/extendedsupport/eks_catalog.go:68-96 | The decision under the lock: serve the published catalog, replay this source's failure, wait, or fetch |
| `CatalogSharing.Guarded.ConcludeLocked` | core/extendedsupport/eks_catalog.go:101-109 | Publish or remember the failure of this source, close and clear the pending channel; cancellation is not remembered |
| `CatalogSharing.Guarded.RetryFailuresLocked` | core/extendedsupport/eks_catalog.go:42-49 | Forgets recorded failures of every key and touches nothing else |
| `CatalogSharing.EveryRunIsSafe` | core/extendedsupport/eks_catalog.go:63-112 | In every interleaving: no channel is closed twice or while nil, and each key has at most one fetch in flight, which closes its own channel |
| `CatalogSharing.PublishedOnce` | core/extendedsupport/eks_catalog.go:63-112 | A published catalog never changes and is never fetched again, retries included |
| `CatalogSharing.EveryRunKeepsRest` | core/extendedsupport/health_catalog.go:55-106 | A source with a recorded failure for a key has no fetch of that key in flight |
| `CatalogSharing.FailureIsReplayed` | core/extendedsupport/health_catalog.go:55-106 | Between retries, a source with a recorded failure keeps it and makes no further call for that key |
| `CatalogSharing.NoDeadlock` | core/extendedsupport/eks_catalog.go:63-112 | While some caller has not returned, some caller can move |
| `CatalogSharing.EveryRunKeepsAnswers` | core/extendedsupport/eks_catalog.go:63-112 | In every run all callers that are given a catalog for a key are given the same one, the published one |
| `CatalogSharing.FetchIsConcluded` | core/extendedsupport/eks_catalog.go:93-112 | A fetch publishes its versions for everybody, or keeps its failure for its own source unless it was cancelled; those that wait are woken, the caller has the result, and other keys are untouched |
| `CatalogSharing.RetryForgives` | core/extendedsupport/eks_catalog.go:42-49 | After failures are retried, a source that had failed fetches again, and nothing else has changed |
| `CatalogLoading.LoadEksVersions` | core/extendedsupport/eks_catalog.go:114-146 | Terminates for any service with finitely many tokens, succeeds exactly if the token chain reaches a last page, and then holds exactly the pages of the chain |
| `CatalogLoading.IndexHoldsLastItem` | core/extendedsupport/eks_catalog.go:130-135 | The index holds for each version the last item on the pages that names it |
| `CatalogLoading.LoadHealthLifecycles` | core/extendedsupport/health_catalog.go:108-147 | The same for the lifecycle pages, with cancellation checked before every request |
| `CatalogLoading.IndexCollectsEvents` | core/extendedsupport/health_catalog.go:128-147 | A key is in the catalog exactly if some item carries it, with the events of all such items in page order |
| `HealthKeys.KeyMeans` | core/extendedsupport/health_catalog.go:149-200 | An entry is filed under a service, engine and version exactly if it is an entry of that service, its engine goes by the prefix of its version or, without one, by the first engine that its title mentions, and its version is what is left after the prefix |
| `HealthLifecycle.MilestoneCell.Add` | core/extendedsupport/health_lifecycle.go:97-105 | A more specific date replaces, an equal one agrees or conflicts, a less specific one is ignored |
| `HealthLifecycle.RegionRank` | core/extendedsupport/health_lifecycle.go:120-129 | Two if a region is named, one if only "all" applies, none otherwise |
| `HealthLifecycle.Milestones.Visit` | core/extendedsupport/health_lifecycle.go:118-170 | One event updates the selected milestone and the flags, and no other milestone |
| `HealthLifecycle.ParseHealthLifecycle` | core/extendedsupport/health_lifecycle.go:114-233 | The loop and the checks after it return what folding, resolving and deciding return, with the cause of every error |
| `HealthOrder.FoldMeans` | core/extendedsupport/health_lifecycle.go:97-170 | Slot by slot the loop computes what the events mean: the dates naming the region override those for all regions, and equally specific dates agree or conflict |
| `HealthOrder.ParseIgnoresOrder` | core/extendedsupport/health_lifecycle.go:114-233 | The parsed lifecycle, or the cause of failure, is the same for every permutation of the events |
| `HealthOrder.RegionOverridesAll` | core/extendedsupport/health_lifecycle.go:97-233 | Dropping an "all"-region event from a slot that also has an event naming the region changes nothing |
| `HealthOrder.AlikeDecide` | core/extendedsupport/health_lifecycle.go:171-233 | A decision never depends on the date of a milestone in conflict |
| `HealthLookup.LookupHealthLifecycle` | core/extendedsupport/health_lifecycle.go:54-89 | The loop over the candidate versions answers as the lookup on the entries: the first usable candidate wins, and otherwise every candidate found is listed with its cause |
| `HealthLookup.LookupIgnoresCase` | core/extendedsupport/health_lifecycle.go:23-89 | Region casing does not change the answer |
| `HealthLookup.HealthLifecycleCatalog.LookupMemo` | core/extendedsupport/health_lifecycle.go:23-52 | The memoised answer equals the direct lookup on the published entries; nothing is memoised before publication |
| `HealthLookup.HealthLifecycleCatalog.Publish` | core/extendedsupport/health_catalog.go:91-103 | Publishing sets the entries and leaves an empty, valid memo |
| `HealthLookup.HealthLifecycleCatalog.RetryFailures` | core/extendedsupport/health_catalog.go:260-265 | Retrying forgets failures, keeps published entries and the validity of the memo |
| `HealthLookup.ClassifyHealthSupport` | core/extendedsupport/health_lifecycle.go:237-268 | A resource becomes a record, a warning or nothing, as the lookup answers; no absent date is read |
| `HealthLookup.StatusIsMonotone` | core/extendedsupport/health_lifecycle.go:54-268 | For a fixed catalog and any number of version candidates, a later scan never moves a resource back from past, or from listed to omitted |
| `HealthLookup.CurrentRecordsHaveAnEnd` | core/extendedsupport/health_lifecycle.go:186-268 | A current record is past its standard end and has a known extended-support end or end of life that is still to come |
| `HealthMeaning.KindMeans` | core/extendedsupport/health_lifecycle.go:118-153 | An event sets a boundary exactly if its type is one of the boundary's spellings, in any case, with dashes or blanks for underscores, and for an end of support with or without a billing risk |
| `HealthMeaning.MilestoneMeans` | core/extendedsupport/health_lifecycle.go:97-170 | A boundary has a date from the events that name the region or, if none of these give it, from those for all regions, and is usable only if they agree |
| `HealthMeaning.SettledEventsDecide` | core/extendedsupport/health_lifecycle.go:171-233 | If the events agree on the boundaries that matter, this is just what is made of them: which lifecycle, with an end of standard support said, implied by billing, by the start of extended support or by a generic end, or which error |
| `HealthMeaning.UsableEventsSettle` | core/extendedsupport/health_lifecycle.go:171-233 | Before the end of life, events make a lifecycle only if they agree on known dates for the boundaries that matter |
| `HealthMeaning.ReachedEndOfLife` | core/extendedsupport/health_lifecycle.go:186-197 | An end of life that is agreed on and reached makes a lifecycle, whatever else is said |
| `HealthMeaning.CandidatesMean` | core/extendedsupport/health_lifecycle.go:54-63 | A version is looked up as it is and, for ElastiCache, by its first two numbers and by its first number if there are more |
| `HealthMeaning.FirstUsableWins` | core/extendedsupport/health_lifecycle.go:64-84 | The first version looked up whose entry makes a lifecycle, with an end once support is over, gives it, whatever is wrong with others |
| `HealthMeaning.NoneUsable` | core/extendedsupport/health_lifecycle.go:64-89 | If there is none, the answer says for each version with an entry why not, or that there is none |
| `HealthMeaning.SettledEventsAreReported` | core/extendedsupport/health_lifecycle.go:237-268 | A resource is reported from its end of life on, or once standard support has ended and extended support has started, with the dates said, and as past once an end has come |
| `HealthMeaning.TwoEndsAreReported` | core/extendedsupport/health_lifecycle.go:114-268 | With just the ends of standard and extended support published, in either order, it is reported with both from the first on and not before |
| `ScanResult.Partition` | core/extendedsupport/fetch.go:104-112 | Current and past findings partition all findings by whether a known end has been reached |
| `ScanResult.Summarize` | core/extendedsupport/fetch.go:377-421 | One row per key with its number of findings, largest first and then by key; the counts add up to the total |
| `ScanResult.CountsAddUp` | core/extendedsupport/fetch.go:377-421 | Rows that count each occurring key once add up to the number of findings |
| `ScanResult.SummaryIsUnique` | core/extendedsupport/fetch.go:377-421 | The summary is determined by the findings, in whatever order they were counted |
| `ScanResult.BuildResult` | core/extendedsupport/fetch.go:104-128 | Findings are partitioned and sorted, nothing is lost, the total equals both sums of counts, and warnings are kept |
| `ScanResult.Gather` | core/extendedsupport/fetch.go:47-101 | Accounts append their findings as they finish; the result holds exactly what all of them yielded |
| `ScanResult.FinishingOrderIsIrrelevant` | core/extendedsupport/fetch.go:54-101 | Whatever order accounts finish in, findings, total and summaries are the same |
| `ScanResult.Fetch` | core/extendedsupport/fetch.go:20-101 | Accounts scanned in any completion order: a blank account ID or a cancelled scan fails the whole, otherwise the result is of exactly what the targets' scans yielded and is about the targets only |
| `ScanResult.GatheredIsOnlyAbout` | core/extendedsupport/fetch.go:47-128 | A result gathered from accounts' own findings names no other account |
| `ScanResult.RetryTargets` | core/extendedsupport/retry.go:18-30 | The retried targets are those of skipped accounts, in target order, each the first target of its account, and every such account has one |
| `ScanResult.RetrySkippedAccounts` | core/extendedsupport/retry.go:14-88 | Findings and warnings of accounts that are not retried stay with their multiplicities, those of retried accounts are what fetching them again yields, no account is newly skipped, and a failed fetch, which is exactly one with a blank ID or a cancelled scan, returns the earlier result |
| `ScanResult.Merge` | core/extendedsupport/retry.go:47-83 | Filtering the earlier result and appending the retry's parts gives, element by element, the one or the other |
| `ScanMeaning.RecordsInOrder` | core/extendedsupport/fetch.go:359-375 | Findings come by account, region, service, type of resource and ID |
| `ScanMeaning.SummariesMean` | core/extendedsupport/fetch.go:377-421 | Each service and each account with current findings has a row with how many, more of them first and otherwise by name |
| `ScanMeaning.MergeMeans` | core/extendedsupport/retry.go:47-83 | After a retry, whatever is about a retried account is the retry's and whatever is about any other is what it was, each as often |
| `OrgTree.Walker.Walk` | core/account/aws.go:580-612 | The recursive walk appends the nodes of a subtree in pre-order and maps each wanted account to the OU it is directly in |
| `OrgTree.BuildOuAccountMapping` | core/account/aws.go:557-618 | The hierarchy is the walk of the root and the map that of all accounts found, blank IDs not wanted |
| `OrgWalk.WalkIsWellFormed` | core/account/aws.go:580-618 | With distinct, non-blank OU IDs the hierarchy of one or several walks is well formed: parents come first, one level up, and no parent is missing |
| `OrgWalk.UnderMeansWithin` | core/account/aws.go:580-618 | In a walk's hierarchy the nodes under an OU are exactly the OUs of its subtree |
| `OrgWalk.HeldWhereOuIs` | core/account/aws.go:580-618 | An account is held in a subtree exactly if the OU reported for it is in that subtree |
| `OrgWalk.FoundIsReported` | core/account/aws.go:591-600 | The parent map covers exactly the wanted accounts that were found, each with an OU that holds it |
| `OrgWalk.TotalIsCostWithin` | core/cost/ou_rollup.go:71-128 | Over a walk's hierarchy the subtree total of an OU is the cost of the accounts held in its subtree |
| `OrgWalk.UnknownIsElsewhere` | core/cost/ou_rollup.go:107-112 | Over a walk's hierarchy only accounts that no walk found are unknown |
| `OrgWalk.HeldMeans` | core/account/aws.go:580-612 | The walk of an OU holds exactly the accounts with a name in the OUs of its subtree, in whatever state, each with its OU and the OU's name or, without one, its ID |
| `OrgWalk.NodeShowsOu` | core/account/aws.go:580-612 | Every node of a hierarchy shows an OU of the walk, with its name or ID and how many levels below the top it is |
| `OrgListing.EffectiveMaxDepth` | core/account/aws.go:529-540 | Direct-only means depth zero; no depth or a negative one means unbounded; any other depth is the limit |
| `OrgListing.ListAccountsUnderParent` | core/account/aws.go:469-527 | Breadth-first search reports each account listed down to the depth limit exactly once and no other, sorted by name and ID |
| `OrgListing.WithinMeans` | core/account/aws.go:469-540 | The accounts within the depth limit are exactly those with a name and a wanted state in an OU that is no more levels down than that |
| `OrgListing.OrderMeans` | core/account/aws.go:519-526 | A listing is in order of name, and for one name of ID |
| `OrgListing.MapAccountsToChildOus` | core/account/aws.go:622-680 | Maps exactly the wanted accounts below the root: direct ones to the root, others to the first child OU that contains them |
| `OrgListing.WalksCoverTheSame` | core/account/aws.go:557-680 | The child-OU map and the depth-first map cover the same accounts |
| `OrgListing.ChildOuIsAncestor` | core/account/aws.go:557-680 | The child-OU map gives the root, or the depth-one ancestor of the OU that the depth-first map gives |
| `Hierarchy.OneAncestorPerDepth` | core/cost/ou_rollup.go:11-17 | In a well-formed hierarchy a node has one ancestor at each depth |
| `OuTotals.TotalSplits` | core/cost/ou_rollup.go:114-126 | A subtree's total is what is recorded at its top plus its children's totals |
| `OuTotals.RootsAndUnknownConserve` | core/cost/ou_rollup.go:71-128 | The totals of the roots and the unattributed cost add up to the input |
| `OuTotals.HomeMeans` | core/cost/ou_rollup.go:80-112 | An item belongs to the OU whose ID the parent map gives for its account, both trimmed, if the hierarchy has it |
| `OuRows.SortIsDescending` | core/cost/ou_rollup.go:131-140 | Siblings end up with the largest amount first, the same elements as before |
| `OuRows.SortKeepsTies` | core/cost/ou_rollup.go:131-140 | The sort is stable: OUs with equal amounts keep hierarchy order |
| `OuRows.RowsList` | core/cost/ou_rollup.go:142-166 | An OU is listed in a subtree's rows exactly if its own amount and those of all OUs up to the top are not zero |
| `OuRows.RowsArePreOrder` | core/cost/ou_rollup.go:142-166 | Each row of a subtree follows its parent with only deeper rows in between |
| `OuRollup.Rollup.Attribute` | core/cost/ou_rollup.go:80-90 | The first loop records each amount under its trimmed OU ID, or as unknown |
| `OuRollup.Rollup.Index` | core/cost/ou_rollup.go:92-103 | The second loop indexes nodes by ID and children by parent in hierarchy order |
| `OuRollup.Rollup.FoldMissing` | core/cost/ou_rollup.go:105-112 | Amounts of OUs missing from the hierarchy go to unknown, in any map order; the rest are the direct amounts |
| `OuRollup.Rollup.Compute` | core/cost/ou_rollup.go:114-126 | The memoised recursion terminates and returns the subtree total, whatever has been computed before |
| `OuRollup.Rollup.SortSiblings` | core/cost/ou_rollup.go:131-140 | Sorting child lists in any map order sorts each of them and the roots |
| `OuRollup.Rollup.Emit` | core/cost/ou_rollup.go:142-163 | The recursion appends exactly the rows of a subtree |
| `OuRollup.RollupByOuTree` | core/cost/ou_rollup.go:71-175 | The whole rollup returns the tree's rows and the unknown row, and its depth-zero rows add up to the input |
| `OuRollup.RollupConserves` | core/cost/ou_rollup.go:71-175 | Conservation: the rows at depth zero, the unknown row included, add up to the breakdown |
| `OuRollup.RollupShowsTotals` | core/cost/ou_rollup.go:142-163 | Every emitted row shows its OU's depth and name, or for a blank name its ID, and the total of all accounts whose parent chain passes through it |
| `OuRollup.UnknownRowIsLast` | core/cost/ou_rollup.go:167-173 | After the rows of OUs comes at most one, named unknown, with what belongs to no OU of the hierarchy |
| `OuRollup.RollupIsOrdered` | core/cost/ou_rollup.go:131-166 | The rows are in depth-first pre-order, siblings descend by amount, and no OU repeats |
| `OuRollup.RollupListsSpenders` | core/cost/ou_rollup.go:144-148 | When no amount is negative exactly the OUs with a non-zero total are listed |
| `OuPaths.FormatOuPath` | core/cost/ou_rollup.go:213-248 | The labels are those of the OU and its ancestors, root first; blank and unknown OUs give one label; any parent map terminates |
| `OuPaths.PathHasOneLabelPerLevel` | core/cost/ou_rollup.go:213-248 | A path has one label more than its OU's depth |
| `OuPaths.PathShowsAncestors` | core/cost/ou_rollup.go:213-248 | At each depth a path has the name of the OU's ancestor there, or for a blank one its ID |
| `OrgRollup.ResolveAccountOuBuckets` | cli/internal/cmd/cost_targets.go:615-674 | Hierarchies of all payers follow each other and their account maps are merged |
| `OrgRollup.MergedReports` | cli/internal/cmd/cost_targets.go:636-672 | The merged map names accounts only where some walk found them |
| `OrgRollup.MergedMeans` | cli/internal/cmd/cost_targets.go:636-672 | The merged map has exactly the accounts that are wanted from a payer whose walk finds them, each with an OU in which the last such payer has it |
| `OrgRollup.RollupOrganization` | cli/internal/cmd/cost_targets.go:615-674 | From the walks of all payers to the rollup: nothing is lost and each OU's total is the cost of the accounts held in its subtree |
| `Charges.SameChargesSameSum` | core/cost/aws.go:299-319 | Lists that charge every key alike have the same total, whatever the order of maps and rows |
| `Charges.BreakdownIsUnique` | core/cost/aws.go:299-319 | A breakdown without zero or repeated rows is determined by its charges up to the order of rows |
| `Charges.RankTally` | core/cost/aws.go:299-319 | Rows of a tally in any map order: zeros dropped, largest first, charges and total unchanged |
| `CostExplorer.SumGrouped` | core/cost/aws.go:239-320 | The pages of a true answer add up to the ledger's charges per key and its total, however they are split; keyless groups and missing metrics are skipped |
| `CostExplorer.SumCost` | core/cost/aws.go:193-237 | The total over all pages is the cost in scope |
| `CostExplorer.SumDaily` | core/cost/aws.go:362-418 | The daily series charges each day what the ledger does, without zero days, in date order |
| `CostExplorer.TotalByAnyDimension` | core/cost/aws.go:193-320 | The total does not depend on the grouping dimension |
| `CostExplorer.SplitScope` | core/cost/aws.go:179-191 | Filters on disjoint accounts split every charge |
| `CostExplorer.SeriesIsUnique` | core/cost/aws.go:407-417 | A daily series is determined by its charges |
| `BulkFetch.PlanBulkFetch` | core/cost/aws_bulk.go:26-48 | A plan exists exactly for two or more targets of one payer, all scoped to an account with a non-blank ID; it holds the trimmed IDs |
| `BulkFetch.BatchStrings` | core/cost/aws_bulk.go:323-336 | Batches are consecutive, full except perhaps the last, and join to the input; no batches for a size that is not positive |
| `BulkFetch.SortedAccountIds` | core/cost/aws_bulk.go:314-321 | The IDs of a plan, each once, strictly sorted |
| `BulkFetch.FetchBatches` | core/cost/aws_bulk.go:81-93 | In whatever order batches finish, the result at each index is that batch's breakdown |
| `BulkFetch.BatchesCharge` | core/cost/aws_bulk.go:95-106 | The batches together charge what one query for all accounts would |
| `BulkFetch.FetchBulkByAccount` | core/cost/aws_bulk.go:74-113 | The bulk total and breakdown by account are those of the ledger for the planned accounts |
| `BulkFetch.FetchBulkByService` | core/cost/aws_bulk.go:128-189 | The services of all batches are added up to the ledger's charges per service |
| `BulkFetch.FilterBreakdownAccounts` | core/cost/aws_bulk.go:282-293 | Any breakdown keeps what it charges the wanted accounts and loses everything else; rows stay compact and come largest first |
| `BulkFetch.BulkChargesLikeOneByOne` | core/cost/aws_bulk.go:50-126 | If every account in the ledger is asked for by one target when bulk asks for it, and by none otherwise, a bulk query charges each account, service and day what single queries charge together |
| `BulkFetch.BulkAgreesIffAskedOnce` | core/cost/aws_bulk.go:26-48 | Bulk and one-by-one totals agree on everything Cost Explorer can report if and only if each target's trimmed account ID is the ID of exactly one target |
| `BulkFetch.BulkCanDisagree` | core/cost/aws_bulk.go:26-48 | Bulk is planned for an account targeted twice and for an account named only with a blank before its ID, and its total then differs from that of single fetches |
| `CostFetch.MergeResults` | core/cost/merge.go:11-132 | No result is an error, one is kept as it is, several with one grouping are added up key by key |
| `CostFetch.MergeDaily` | core/cost/merge.go:134-161 | One series is kept as it is, several are added up day by day in date order |
| `CostFetch.FetchOne` | core/cost/aws.go:53-112 | One target's total and breakdown are those of the ledger for its own account if it is flagged or linked, and for everything otherwise |
| `CostFetch.RollupFlat` | core/cost/ou_rollup.go:19-65 | One row per OU with what is recorded under it, largest first, unknown for the rest, each named by the first account recorded there |
| `CostFetch.RollupOuBreakdown` | core/cost/ou_rollup.go:177-189 | The rows are those of the tree when there is a hierarchy, one per bucket otherwise, and the depth-zero rows add up to the input |
| `CostFetch.RollUp` | core/cost/provider.go:252-274 | The account breakdown is replaced by its OU rows; the total stays |
| `CostFetch.FetchBulk` | core/cost/aws_bulk.go:50-126 | In bulk: total and breakdown of the planned accounts are those of the ledger |
| `CostFetch.FetchSingles` | core/cost/provider.go:296-342 | One fetch per target, in any completion order, merged: total and breakdown are what the targets together cost |
| `CostFetch.FetchCredentialGroup` | core/cost/provider.go:278-346 | One payer's targets, in bulk or one by one: total and breakdown are the targets' charges; OU rows are the rollup, done once, of the account breakdown with these charges |
| `CostFetch.GroupByCredentialsAccount` | core/cost/filter.go:31-42 | Targets are grouped by payer in their order |
| `CostFetch.Fetch` | core/cost/provider.go:238-276 | Over all payers the total and breakdown are the cost of the selected accounts; OU rows are the rollup of the account breakdown with these charges |
| `FetchedTotals.FetchAddsUpTargets` | core/cost/provider.go:238-276 | In bulk or one by one, the total is the sum over the targets of what each costs on its payer's ledger, its own account's cost if it is flagged or linked and everything otherwise, and a breakdown has under each service or account what the targets cost there |
| `FetchedTotals.OnlyTargetsCharged` | core/cost/provider.go:144-147 | When every target is flagged or linked, no account is charged that is not some target's account |
| `FetchedTotals.PlannableMeans` | core/cost/aws_bulk.go:26-48 | A bulk fetch is planned exactly for two or more targets of one payer that each stand for one account with an ID |
| `FetchedRows.FlatRowsShowOus` | core/cost/ou_rollup.go:19-65 | Without a hierarchy each row has what is recorded under its OU, and every OU with a cost has a row |
| `FetchedRows.FetchedRowsShowSubtrees` | core/cost/provider.go:238-276 | With the OU data of the walks, every row of a report by OU shows an OU with its name, its depth and what the accounts held in its subtree cost on the ledgers, but for a last row with the cost of accounts that no walk found |
| `FetchedRows.FetchedRowsListSpenders` | core/cost/provider.go:238-276 | If no account has a negative cost, exactly the OUs whose subtree costs something have a row |
| `FetchedRows.ResolvedIsOfWalk` | cli/internal/cmd/cost_targets.go:615-674 | Resolving the OUs of all payers yields such OU data |
| `CostFetch.FetchDailyBulk` | core/cost/aws_bulk.go:191-243 | The bulk series charges each day what the planned accounts cost, in date order |
| `CostFetch.FetchDailySingles` | core/cost/provider.go:403-428 | The merged series of single fetches charges each day what the targets together cost, in date order |
| `CostFetch.FetchDailyGroup` | core/cost/provider.go:395-429 | The daily series, in bulk or one by one, charges each day what the targets cost |
| `CostFetch.FetchDaily` | core/cost/provider.go:360-393 | Over all payers the merged series charges each day what the targets cost on the payers' ledgers, without zero days, in date order |
| `FetchedTotals.DailyAddsUpTargets` | core/cost/provider.go:360-393 | The series has for each day the sum over the targets of what each costs on its payer's ledger on that day |
| `CostFetch.DaysAddUpToTotal` | core/cost/provider.go:238-393 | The days of the series add up to the total that fetching with any grouping reports |
| `CostFetch.BulkRefinesSingles` | core/cost/aws_bulk.go:50-189 | When each account is asked for once, what the bulk method promises and what the single-fetch method promises is the same total and, up to the order of ties, the same breakdown |
| `CostFetch.BulkRefinesSinglesDaily` | core/cost/aws_bulk.go:191-243 | Then the bulk daily series equals the merged one |
| `TrustPolicy.StatementGrantsAssumeRole` | core/account/iam_trust.go:228-252 | Holds exactly for an unconditional Allow whose actions include sts:AssumeRole or a wildcard for it |
| `TrustPolicy.SwapPrincipals` | core/account/iam_trust.go:282-303 | The loop trims, drops blanks and repeats and puts the destination for the source; its flags say whether a root was there |
| `TrustPolicy.RewriteStatement` | core/account/iam_trust.go:254-332 | A statement is unchanged unless it lists the source; the only error is a statement that is no object, the empty-principal error cannot happen |
| `TrustPolicy.ReplaceTrustStatement` | core/account/iam_trust.go:188-212 | All statements are rewritten in place and the trust statement is appended exactly if none carries the trust |
| `TrustPolicy.UpdateTrust` | core/account/iam_trust.go:134-149 | The policy's statements, absent, one or many, are replaced, with an error for each malformed shape |
| `TrustPolicy.UpdateDocument` | core/account/iam_trust.go:59-165 | The new document is the version, by default 2012-10-17, and the replaced statements, and nothing else; each malformed shape is an error |
| `TrustPolicy.SwapNames` | core/account/iam_trust.go:286-303 | The new list names the destination if either root was named, never the source, everybody else as before |
| `TrustPolicy.ThirdPartiesUnaffected` | core/account/iam_trust.go:188-332 | Every other principal faces exactly the same statements, so a decision from the statements that name it is unchanged; identities within the two accounts are not third parties |
| `TrustPolicy.UntouchedVerbatim` | core/account/iam_trust.go:188-332 | A statement that does not list the source stays as it is at its place |
| `TrustPolicy.SourceIsGone` | core/account/iam_trust.go:188-332 | Afterwards no parsed AWS principal names the source |
| `TrustPolicy.DestinationIsTrusted` | core/account/iam_trust.go:188-332 | Afterwards some statement unconditionally allows the destination to assume the role |
| `TrustPolicy.UpdateIsIdempotent` | core/account/iam_trust.go:188-332 | Updating twice equals updating once |
| `TrustPolicy.DestinationAllowedIff` | core/account/iam_trust.go:188-332 | The destination may then assume the role if and only if no applicable Deny covered it, by Principal or NotPrincipal, or had the source among its principals |
| `TrustMeaning.GrantsMeans` | core/account/iam_trust.go:228-252 | Told from the JSON: an effect of Allow in any case, no condition, and among the actions, one or a list, sts:AssumeRole, sts:* or *, each up to white space |
| `TrustMeaning.SwapHolds` | core/account/iam_trust.go:282-303 | The new list holds what becomes of the names that are not blank, each once |
| `TrustMeaning.SwapKeepsOrder` | core/account/iam_trust.go:282-303 | It keeps their order: what a part of the list becomes, the whole list begins with |
| `TrustMeaning.RewrittenMeans` | core/account/iam_trust.go:254-332 | A statement that lists the source keeps everything but its AWS principals, a list staying a list and a single name a single name; any other statement stays as it is |
| `TrustMeaning.ReplacedMeans` | core/account/iam_trust.go:167-212 | Every statement keeps its place, and unless one of them trusted either account as a whole, a statement at the end trusts just the destination |
| `TrustMeaning.DocumentMeans` | core/account/iam_trust.go:59-85 | Which documents are policies, and which version and statements are read from them |
| `Migration.Migrator.Migrate` | cli/internal/cmd/aws_migrate_account.go:222-370 | Every sequence of call outcomes is a run of the protocol from the current world; and which outcomes of the calls lead to success, and what has been joined, trusted, moved and tagged after how many of them, is said call by call |
| `Migration.EveryStateKeepsInv` | cli/internal/cmd/aws_migrate_account.go:222-370 | The protocol invariant holds in every state of every run, crashes included |
| `Migration.TagsAreNeverLost` | cli/internal/cmd/aws_migrate_account.go:249-343 | Once the account has left the source organization its listed tags are on the destination or intact in the recovery file, provided no key is listed with two values; until then nothing has changed |
| `Migration.TagsCanBeLostIff` | cli/internal/cmd/aws_migrate_account.go:249-343 | For an account that can be migrated, some run ends with the tags neither on the destination nor in the recovery file if and only if two listed tags share a key and differ in value |
| `Migration.ConsistentIffNoKeysCollide` | core/account/aws.go:106-119 | Listed tags do so exactly if two of the account's keys are equal up to surrounding white space with values that are not |
| `Migration.CollidingTagsCanBeLost` | cli/internal/cmd/aws_migrate_account.go:249-343 | An account with the tags a=1 and (blank)a=2 can lose one of them |
| `Migration.RefusingRepeatsKeepsTags` | cli/internal/cmd/aws_migrate_account.go:310-343 | If setting tags with a repeated key fails without effect, tags are never lost, whatever they are |
| `Migration.PutHoldsIff` | core/account/aws.go:82-104 | Setting tags keeps all of them if and only if no key comes with two values |
| `Migration.NormalizeChangesNothingIff` | core/account/aws.go:106-119 | Normalizing leaves an account's tags as they are exactly if none needs trimming |
| `Migration.SortSorts` | core/account/aws.go:68-74 | Listed tags come sorted by key and then by value |
| `Migration.RoleTrustsOneOfThem` | cli/internal/cmd/aws_migrate_account.go:298-350 | At every moment the linked role trusts the source or the destination payer |
| `Migration.OthersFaceTheSamePolicy` | cli/internal/cmd/aws_migrate_account.go:345-350 | At every moment every principal but the two roots faces the same trust policy; identities within their accounts are not third parties |
| `Migration.DryRunChangesNothing` | cli/internal/cmd/aws_migrate_account.go:275-278 | A dry run changes nothing at any moment |
| `Migration.DoneMeansMigrated` | cli/internal/cmd/aws_migrate_account.go:280-370 | A completed run has moved membership, trust, OU and tags |
| `Migration.AllSucceedMigrates` | cli/internal/cmd/aws_migrate_account.go:222-370 | If every call succeeds, the account is a member of the destination only, with its policy, OU and payer there, exactly what setting the listed tags on none gives, and no recovery file left |
| `Migration.UnsetTagsAreInTheFile` | cli/internal/cmd/aws_migrate_account.go:310-343 | If the tags could not be set, or nobody knows, the recovery file has them |
| `Migration.IneligibleIsRefused` | cli/internal/cmd/aws_migrate_account.go:234-247 | A run whose account is not a member of its own source, or is one of its own destination, fails and changes nothing |
| `Migration.RerunIsRefused` | cli/internal/cmd/aws_migrate_account.go:234-247 | After a run that moved the account and ended anywhere, another run from the same source or to the same destination, or of an account of one organization from anywhere but the new one, fails, changes nothing and leaves the tags that the first one saved |
| `MigrationHistory.PutSurvivors` | core/account/aws.go:82-104 | Setting listed tags where there are none leaves exactly those for whose key no greater value is listed |
| `MigrationHistory.MigrationKeepsSaved` | cli/internal/cmd/aws_migrate_account.go:234-343 | A run, in any direction and stopping anywhere, keeps saved tags listed or in the recovery file if its source lists none, or all of them and no greater value for a key of theirs |
| `MigrationHistory.SavedTagsStaySaved` | cli/internal/cmd/aws_migrate_account.go:234-343 | So does any number of runs, one after the other |
| `MigrationHistory.SavedTagsCanBeLostIff` | cli/internal/cmd/aws_migrate_account.go:234-343 | A run that goes ahead can lose saved tags if and only if its source lists some tags, but not all of these or a greater value for a key of theirs |
| `MigrationHistory.MigratingBackCanLoseTags` | cli/internal/cmd/aws_migrate_account.go:280-290 | Migrating back an account of whose two tags one was restored by hand overwrites the only copy of the other |
| `Migration.MigrateAll` | cli/internal/cmd/aws_migrate_account.go:168-201 | Accounts are migrated in order up to the first failure, each with the outcome that its calls lead to; succeeded, failed and remaining are together all accounts, and the remaining ones are untouched |
| `RdsSnapshotCosts.ApplyRegionalCosts` | core/snapshot/pricing.go:50-101 | Records are overwritten in place with their share of the billable excess, or zero within the free tier; other kinds stay |
| `RdsSnapshotCosts.ApplyLegacyCosts` | core/snapshot/pricing.go:123-133 | RDS records are overwritten in place with their stand-alone estimate |
| `RdsSnapshotCosts.ListRecords` | core/snapshot/rds.go:336-432 | Exactly the snapshots created before the cutoff, large enough and of a wanted kind become records |
| `RdsSnapshotCosts.SumBillable` | core/snapshot/rds.go:126-155 | The size of all snapshots but automated ones of live sources |
| `RdsSnapshotCosts.LiveBackupsAreFree` | core/snapshot/pricing.go:103-121 | Automated backups of a live instance or cluster cost nothing and are within the free tier, in any case of their type and with any blanks around it |
| `RdsSnapshotCosts.OthersAreCharged` | core/snapshot/pricing.go:50-101 | Every other RDS snapshot has the share of the billable excess, at 0.095 per GiB, that it has of what is billable |
| `RdsSnapshotCosts.OneMoreBillable` | core/snapshot/rds.go:126-155 | One more snapshot adds its full size to what is billable unless it is an automated backup of a live source |
| `RdsSnapshotCosts.ListingMeans` | core/snapshot/rds.go:336-432 | Listed are the snapshots of a wanted kind that were created before the cutoff and have the least size, under their own names |
| `RdsSnapshotCosts.FootprintMeans` | core/snapshot/rds.go:283-334 | To the footprint of its source a manual backup adds its size, an automated one counts if it is the largest, and one of another source does nothing |
| `RdsSnapshotCosts.EstimateBackupStorage` | core/snapshot/rds.go:283-334 | The sum over sources, in any order, of the largest automated and all manual snapshots |
| `RdsSnapshotCosts.EstimateIsUnique` | core/snapshot/rds.go:306-311 | The estimate does not depend on the order of sources |
| `RdsSnapshotCosts.FootprintGrows` | core/snapshot/rds.go:313-334 | A further snapshot never lowers a footprint and raises it by at most its size |
| `RdsSnapshotCosts.ListedWithinRunRate` | core/snapshot/pricing.go:57-121 | For any filter the listed cost is at most the rate times what is billable and in excess, which is at most the run rate; it is exactly that when every billable snapshot is listed and the free pool is not negative |
| `RdsSnapshotCosts.NeverAboveStandAlone` | core/snapshot/pricing.go:88-100 | No record costs more than its stand-alone estimate |
| `EbsSnapshotCosts.ComputeCharges` | core/snapshot/ebs_pricing.go:19-73 | Charges are those of each volume's chain by start time and of volumeless snapshots, volumes and ties in any order |
| `EbsSnapshotCosts.ChargeChain` | core/snapshot/ebs_pricing.go:36-59 | The loop carrying the largest full size charges each snapshot its increment |
| `EbsMeaning.FullSizeMeans` | core/snapshot/ebs_pricing.go:79-84 | A snapshot's size is that of its blocks if EC2 says, of its volume otherwise |
| `EbsMeaning.ChainMeans` | core/snapshot/ebs_pricing.go:36-59 | Each identified snapshot of a chain is charged, at the price of its tier, for what it exceeds the largest one before it, in the archive for all of it; others are passed over |
| `EbsMeaning.ChainIsByTime` | core/snapshot/ebs_pricing.go:19-35 | A volume's chain is its snapshots by start time, those without a time first |
| `EbsMeaning.LastChargeStands` | core/snapshot/ebs_pricing.go:30-73 | A charge stands unless its ID is charged again; then the last one does |
| `EbsMeaning.ListingMeans` | core/snapshot/ec2.go:59-92 | Listed are the snapshots that started before the cutoff and whose volume has the least size, with their charges |
| `EbsSnapshotCosts.IncrementsTelescope` | core/snapshot/ebs_pricing.go:36-59 | Standard-tier increments are not negative and add up to at most the largest full size, exactly that when nothing is archived, in any order |
| `EbsSnapshotCosts.OrderMakesNoDifference` | core/snapshot/ebs_pricing.go:33-59 | Without archived snapshots the volume's total is the same in every order |
| `EbsSnapshotCosts.RegionalMonthlyCost` | core/snapshot/ebs_pricing.go:94-100 | The run rate is the sum of all charges, in any map order |
| `EbsSnapshotCosts.RunRateIsUnique` | core/snapshot/ebs_pricing.go:94-100 | The run rate is the same whatever order the charges are added in |
| `EbsSnapshotCosts.ListSnapshots` | core/snapshot/ec2.go:59-92 | Listed costs are the charges of the snapshots that pass the filter, and with distinct IDs they add up to at most the run rate |
| `EbsSnapshotCosts.ListedWithinRunRate` | core/snapshot/ec2.go:83-91 | For any filter under which no ID that costs something is listed twice the listed cost is at most the run rate |
| `EbsSnapshotCosts.ListedWithinRunRateIff` | core/snapshot/ec2.go:83-91 | Under a filter that lists everything that costs something, the listed cost stays within the run rate if and only if no such ID is listed twice |
| `EbsSnapshotCosts.ComputedCharges` | core/snapshot/ebs_pricing.go:19-73 | Computed charges are not negative and belong to IDs that occur |
| `EbsSnapshotCosts.AlwaysWithinRunRateIff` | core/snapshot/ec2.go:59-92 | For the charges computed from snapshots with start times, the listed cost stays within the run rate under every filter if and only if no ID that costs something occurs twice |
| `EbsSnapshotCosts.RepeatedIdExceedsRunRate` | core/snapshot/ec2.go:83-91 | Two snapshots without a volume and with one ID are listed for more than the run rate |

## Left out

- Clients of AWS, Snowflake, Health and Organizations: their answers are parameters, a ledger, a tree or free outcomes; retries, throttling, timeouts and logging are not modelled.
- Errors of listing and cost calls: any of them ends the operation with that error; the models of `OrgTree`, `OrgListing`, `CostExplorer` and `CostFetch` describe the calls that succeed, and `CatalogLoading` and `Migration` also those that fail.
- Error texts: failures are distinguished by cause only.
- File permissions, temporary files and encodings (JSON, YAML, URL escaping): replacing a file is one step that succeeds or fails; JSON is a tree of values.
- Currencies: one currency is assumed, so the mixed-currency errors do not occur; amounts are exact, floating-point rounding and number parsing are not modelled.
- Calendar periods (`core/cost/period.go`, `core/cost/monthly.go`) and the effective date range of a query.
- FilterOverlappingTargets: fetching starts from targets that are already filtered.
- Display names of accounts in cost results, and merging results that are already rolled up by OU, which fetching never does.
- CostFetch.FetchOne: does not take an OU grouping, because every caller defers the rollup.
- OuRollup.RollupByOuTree: requires a well-formed hierarchy, because a parent missing from the hierarchy would drop cost; `OrgWalk.WalkIsWellFormed` proves that every walk provides one.
- Library sorts: `sort.SliceStable` is its one stable result, other sorts are a sort of the input in the stated order; the sorts written by hand in the repository are modelled as loops.
- Organizations' own listing order, accounts and OUs without an ID, and resolving the root's name: trees are given as listed.
- The printed migration plan and warnings, alias resolution and cache invalidation: only success or failure of these steps is modelled.
- Setting tags is one call that sets them in order, or, in `RefusingRepeatsKeepsTags`, refuses repeated keys as a whole; setting a part of them is not modelled.
- What people change between two migrations: in a history each starts where the one before ended; the results about one migration start from any state. The payer alias in the recovery file is not modelled.
- Delegation within an account: a root principal lets users and roles of its account in through their own policies, which are not modelled.
- Field names of a policy that differ only in case, which Go's decoder accepts at the top level, and the order and white space of its JSON.
- Regional scans, region preloading and merging of contexts over several regions in snapshot and support scans: one region or one account at a time; provisioned storage and live sources of a region are inputs.
- Inventory scans, account reviews, command wiring, progress output, mail and HTTP handlers: plumbing around the modelled parts.
