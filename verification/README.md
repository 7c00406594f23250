# A model of the Mattermost apps plugin

The plugin keeps state for installed apps in one flat key-value store, a persisted configuration and
in-memory caches, and it merges, cleans and expands what the apps return or ask for. This project
models the parts of it whose behaviour spans several functions or steps, and proves what they promise.
`dafny verify dfyconfig.toml` checks all of it.

| file | what it models |
|---|---|
| `ContentStore.dfy` | the content-addressed stores as a state machine with crashes and failing calls |
| `Server.dfy`, `Records.dfy` | the Mattermost server as the plugin sees it, and what it stores |
| `AppStore.dfy`, `ManifestStore.dfy` | the two stores as classes, tied to the state machine |
| `AppRecords.dfy` | what writing or removing one app's record means for the others, and where a removal can stop |
| `MergeBindings.dfy`, `MergeEquivalence.dfy`, `ArrivalOrder.dfy` | merging binding forests, when that is associative, and the order in which they arrive |
| `Locations.dfy`, `CleanBindings.dfy`, `CleanSurvivors.dfy`, `CleanForm.dfy` | cleaning binding forests and forms, and what survives it |
| `CallOnce.dfy`, `Synchronize.dfy` | running a job once in a cluster, and taking over new manifests at startup |
| `Keys.dfy`, `Paging.dfy`, `AppData.dfy`, `DebugInfo.dfy` | the key space, paged scans, clearing an app's data, counting |
| `Subscriptions.dfy`, `AppServices.dfy`, `Notify.dfy` | subscriptions and who is notified |
| `Sessions.dfy` | app sessions over time |
| `Lifecycle.dfy` | uninstalling, disabling and enabling an app |
| `Expand.dfy`, `ExpandSources.dfy` | expanding the context of a call, and where everything in it comes from |
| `ByteSize.dfy` | printing and parsing sizes |
| `Strings.dfy`, `Wrappers.dfy`, `Binding.dfy` | shared vocabulary |

A method that the program runs step by step is proved against a function of its inputs or of the old
state; the lemmas about that function then say what the program promises. Calls to the server may fail
at any time. A failed write may or may not have taken effect: `Outcome` tells which. The server counts the
calls that have returned an error, so a contract that allows for failures says how many it needs: with no
new error nothing may be missing.

## What turned out to be narrower than it looks

- `mergeBindings` depends on the arrival order exactly when a forest repeats a sibling under a root
  that it shares with another app (`ArrivalOrder.ArrivalOrderIrrelevant`). It is associative as soon as its
  two right operands have distinct siblings; `MergeEquivalence.MergeAssociativeIff` gives the exact condition.
- Cleaning is not idempotent: a label of blanks below `/command` is trimmed away by the first cleaning and
  replaced by the location by the second (`CleanBindings.BlankCommandLabelIsUnstable`), and a location
  that is empty after trimming is replaced by the label. `CleanBindings.CleanIdempotentIff` says on the input
  when it is.
- `usedLocations` and `usedCommandLabels` (server/proxy/invoke_bindings.go:64-65) are never written, so
  they have no counterpart.
- Crash atomicity fails after a failed write of the configuration: the list in memory is then ahead of the
  persisted one, and the next operation that is not refused persists it. All operations are atomic exactly while
  both lists show the same records (`ContentStore.AllCrashAtomicIff`; a store where it fails: `ContentStore.CrashShowsNeither`).
- A session key matches an app by prefix: clearing app `a` clears the session of user `u` of app `b`
  exactly when `a` is a prefix of `<b>_<u>`. When `a` contains an underscore, that can hold although `a`
  is not a prefix of `b` (`AppData.UnderscoreMatchesAcrossApps`).
- Session keys of apps with an underscore in their ID cannot be parsed, so revoking by user passes over
  them (`Sessions.RevokedForUserIff`), and the debug counters do not count them.
- Disabling an app clears its sessions in the store only. While it is disabled `ensureEnabled` refuses its
  calls, but once it is enabled again, the first request creates a second session of the same app and user, and
  both are live exactly if the cleared one has not expired by then (`Sessions.ClearingLeavesASecondSession`). For
  an app whose session was cleared along because its key starts alike, the next request is enough.
- A builtin app that is listed with another version is saved among the installed apps at every start, where
  `Get` never sees it (`Synchronize.OnlyBuiltinsStayOutdated`).
- A failed `Subscribe` may have removed the earlier subscription: it makes two writes. That happens exactly if
  there was one, and the first write took effect but reported a failure, or went well before the second was
  lost (`AppServices.SubscribeLosesIff`, `AppServices.SecondSubscribeLoses`).
- A join or leave of a channel or team without an ID would dispatch the member's own unscoped
  subscriptions twice (`Notify.SameEventRepeats`).
- Uninstalling or disabling a builtin app saves a disabled copy that `Get` never returns
  (`Lifecycle.Proxy.DisableApp`, `Lifecycle.Proxy.UninstallApp`); `ensureEnabled` goes on letting it through.
- When `App.Delete` fails after its first call has removed the blob, the record is out of the cache, the
  compensating `DisableApp` does not find the app, and a restart does not bring it back if the two lists agreed on
  it before: it is gone, not left disabled
  (`Lifecycle.Proxy.UninstallApp`, `AppRecords.GoneForGood`).
- A post expanded at level "id" has no channel ID, so in a channel a readable post at that level makes every
  expansion fail, even when the post is optional (`Expansion.PostDecides`). A direct channel expanded at "id" has
  no type and passes for its own team ID only, while a channel that cannot be read passes
  (`Expansion.ChannelDecides`). The user's locale is lost when `acting_user` is expanded at "id"
  (`Expansion.LocaleOfRun`).
- The check's message about a team member of another user reads the channel member, which may be nil
  (server/proxy/expand.go:513-515). It takes a server that answers with somebody else's membership
  (`Expansion.PanicReachable`); with one that answers for the user asked for it cannot happen
  (`Expansion.HonestServerNeverPanics`).
- `ByteSize.String` overflows between (2^63-1-2^39)/10 and MaxInt64/10 and prints a huge number of terabytes
  (`ByteSizes.TextExactIff`).

## Model

| member | source | states |
|---|---|---|
| ContentStore.ReachableInv | server/store/apps.go:76-253 | every store reached by saves, deletes, failures, crashes, and what the other components do in between keeps blobs under their own hash and lists only hashes of records with the listed ID |
| ContentStore.CrashAtomicity | server/store/apps.go:159-253 | stopping Save or Delete after any number of writes, with any calls failing, and configuring again gives the old map, the old map with the operation applied, or the memory list's map with the operation applied; old or new when memory and disk lists agree |
| ContentStore.CrashAtomicIff | server/store/apps.go:159-253 | in every reachable store, every way to stop one operation gives old or new if and only if it is a Delete that the app store refuses without a write, or the two lists show the same records for every other ID; the manifest store's DeleteLocal refuses nothing, so for it the second condition alone decides |
| ContentStore.AllCrashAtomicIff | server/store/apps.go:159-253 | all operations are atomic in this sense if and only if the two lists show the same records; saves of two different IDs decide it already |
| ContentStore.CrashShowsNeither | server/store/apps.go:189-203 | a run that leads to a store where it fails: a first record whose list was lost on the way to disk appears together with a second one |
| ContentStore.SuccessIsDurable | server/store/apps.go:159-253 | an operation that reports success leaves equal lists in memory and on disk, and a restart shows it applied |
| ContentStore.PutOutcome | server/store/apps.go:159-212 | store, both lists, cache and answer of Save, call by call: the cache takes the record once its blob is written, whatever happens to the lists |
| ContentStore.RemoveOutcome | server/store/manifest.go:255-287 | the same of a removal |
| ContentStore.CacheRefinesMap | server/store/apps.go:159-253 | after any error-free run on valid records, with restarts and writes of other components in between, the store is coherent and its cache is the plain map of the run |
| ContentStore.RestartChangesNothing | server/store/apps.go:76-108 | after any such run, one more restart changes nothing |
| ContentStore.OneBlobPerRecord | server/store/apps.go:159-212 | in a coherent store blobs and listed records correspond one to one |
| ContentStore.PutSurvivesRestartIff | server/store/apps.go:92-104 | Save does not validate: a saved record survives a restart if and only if reading it back gives it back |
| Mattermost.ConfigService.StoreConfig | server/config/service.go:236-255 | the configuration in memory changes first and then the persisted one, each as far as its call got |
| AppStores.AppStore.InitBuiltin | server/store/apps.go:64-74 | builtin apps are filed under their own ID and marked as builtin; of several with one ID the last counts, and others are kept |
| AppStores.AppStore.Configure | server/store/apps.go:76-108 | the cache holds exactly the listed records under whose key there is text that decodes to a valid record; with failing reads, no other |
| AppStores.AppStore.Save | server/store/apps.go:159-212 | the new state and every intermediate disk are those of Put under the same failures |
| AppStores.AppStore.Delete | server/store/apps.go:214-253 | refuses what is not installed or not listed without a write; otherwise the state and every intermediate disk are those of Remove |
| AppStores.GetAgreesWithAsMap | server/store/apps.go:110-157 | Get finds exactly what AsMap lists |
| AppStores.EnabledListingAgreesIff | server/store/apps.go:138-157 | the enabled-only listing agrees with Get unless a disabled builtin app hides an enabled installed one |
| ManifestStores.ManifestStore.Configure | server/store/manifest.go:137-169 | the same for local manifests |
| ManifestStores.ManifestStore.AsMap | server/store/manifest.go:188-202 | local manifests over global ones |
| ManifestStores.ManifestStore.StoreLocal | server/store/manifest.go:204-253 | the new state and every intermediate disk are those of Put under the same failures |
| ManifestStores.ManifestStore.DeleteLocal | server/store/manifest.go:255-287 | the new state and every intermediate disk are those of Remove under the same failures |
| MergeBindings.MergeLoop | server/proxy/bindings.go:16-38 | the nested loops compute the recursive keyed merge |
| MergeBindings.MergeClosedForm | server/proxy/bindings.go:16-38 | merging is updating the left nodes in place and appending the right nodes whose key is missing, in order |
| MergeBindings.MergePreservesDistinct | server/proxy/bindings.go:16-38 | distinct sibling keys at every level stay distinct |
| MergeBindings.MergeRightIdentity | server/proxy/bindings.go:16-38 | the empty forest is a right identity |
| MergeBindings.MergeLeftIdentity | server/proxy/bindings.go:16-38 | the empty forest is a left identity exactly on forests with distinct roots |
| MergeBindings.MergeIdempotent | server/proxy/bindings.go:16-38 | merging a forest of distinct siblings with itself changes nothing |
| MergeBindings.MergeAssociative | server/proxy/bindings.go:16-38 | merging is associative when the two right operands have distinct siblings at every level |
| MergeBindings.MergeNotAssociativeOnDuplicates | server/proxy/bindings.go:16-38 | with repeated siblings in the middle it is not |
| MergeEquivalence.AnyClosedForm | server/proxy/bindings.go:16-38 | for any forests: the nodes that are there change in place, and what merging into nothing has besides follows in its order |
| MergeEquivalence.EquivalentIffAgree | server/proxy/bindings.go:16-38 | two forests do the same to every forest they are merged into if and only if they give the same merged into nothing, and so do their children below each key, level by level |
| MergeEquivalence.MergeAssociativeIff | server/proxy/bindings.go:16-38 | for two right operands merging is associative with every left one if and only if their concatenation and their merge agree in this sense |
| ArrivalOrder.Collect | server/proxy/bindings.go:84-92 | the collection loop is the fold of the merge over the arrivals |
| ArrivalOrder.ArrivalOrderIrrelevant | server/proxy/bindings.go:84-94 | for bare roots and app-owned children, all arrival orders give the same forest up to ties if and only if no shared root has repeated children |
| ArrivalOrder.FoldShare | server/proxy/bindings.go:84-92 | an app's children under a root are, in order, what that app sent for it, merged once if it came to an existing root |
| ArrivalOrder.SortTopBindings | server/proxy/bindings.go:107-114 | the result is sorted by location, and each root's children by app ID, both permutations of the input |
| Strings.LeqIff | server/proxy/bindings.go:107-114 | the order that is sorted by: a prefix comes first, and otherwise the first difference decides |
| ArrivalOrder.SortedResultsAgree | server/proxy/bindings.go:84-114 | end to end, for order-safe forests: whatever the arrival order and however ties are sorted, two results have the same locations position by position, the same roots with the same children, and under each root the same app in every position |
| ArrivalOrder.SortedOrderIrrelevant | server/proxy/bindings.go:84-114 | all sorted results that some forests can give are alike in this sense if and only if the forests are order safe |
| LocationPaths.SubOfTopIsNotTop | apps/locations.go:43-66 | a location strictly below a top one is not a top one |
| LocationPaths.SubStaysIn | apps/locations.go:53-66 | what is granted at a location is granted below it |
| LocationPaths.LocationTexts | apps/locations.go:33-66 | the three top locations, being in a location, and going below one, on the texts |
| Strings.TrimSpaceCuts | server/proxy/invoke_bindings.go:111-140 | trimming cuts whitespace off the two ends and nothing else |
| CleanBindings.CleanAppBindings | server/proxy/invoke_bindings.go:62-93 | the loop and its mutual recursion compute the recursive cleaning, problems included, and terminate; CleanSurvivors says what that leaves |
| CleanBindings.CleanAppBinding | server/proxy/invoke_bindings.go:95-203 | one node is placed, dressed, and given exactly one kind of contents, or dropped with a problem |
| CleanBindings.ForestWellPlaced | server/proxy/invoke_bindings.go:62-203 | every node of a cleaned forest is under a granted location, carries the app's ID unless at a top location, has exactly one of submit, form and non-empty bindings, and below /command a label without blanks |
| CleanBindings.ForestEmbeds | server/proxy/invoke_bindings.go:62-203 | the cleaned forest is an order-preserving embedding of the input |
| CleanBindings.ForestSilent | server/proxy/invoke_bindings.go:62-203 | without a reported problem no node is missing |
| CleanBindings.CleanIdempotentIff | server/proxy/invoke_bindings.go:62-203 | with an idempotent icon normaliser, cleaning again changes nothing if and only if every input node that survives has a location after trimming and, below /command, a label that is missing or more than blanks; elsewhere a label of blanks may stand for the location |
| CleanBindings.BlankCommandLabelIsUnstable | server/proxy/invoke_bindings.go:105-160 | a blank command label makes the second cleaning change the first one's result |
| CleanBindings.CleanedContainerIsBare | server/proxy/invoke_bindings.go:95-203 | a cleaned top container without a payload meets what order independence asks of a root |
| CleanSurvivors.NodeSurvivesIff | server/proxy/invoke_bindings.go:95-203 | a node survives if and only if it has a location or a label, is granted, below /command is one word, has an icon in the channel header of a webapp, has exactly one of submit, form and bindings, and of bindings one that survives |
| CleanSurvivors.SurvivorsExact | server/proxy/invoke_bindings.go:62-203 | the result has exactly the survivors, at every level, in order, with their trimmed location, their own app ID at top locations and else the app's, label, normalised icon, submit unchanged, and cleaned form |
| CleanSurvivors.SurvivorsUnique | server/proxy/invoke_bindings.go:62-203 | no other forest is made of the survivors in this way |
| CleanSurvivors.ForestSilentIff | server/proxy/invoke_bindings.go:62-203 | nothing is reported if and only if every node of the input would survive, trimmed, with a valid icon and a form without a problem |
| CleanSurvivors.PlaceProblems | server/proxy/invoke_bindings.go:102-130 | which problems of location and grant are reported |
| CleanSurvivors.DressProblems | server/proxy/invoke_bindings.go:132-171 | which problems of label and icon are reported |
| CleanSurvivors.NodeProblems | server/proxy/invoke_bindings.go:95-203 | in which order, and what the contents add |
| CleanForms.CleanStaticSelect | server/proxy/form.go:93-125 | the loop keeps the greedily chosen options and reports the others |
| CleanForms.OptionKeptIff | server/proxy/form.go:97-118 | an option is kept if and only if its defaulted label is not empty and no kept option before it has its label or value |
| CleanForms.OptionProblem | server/proxy/form.go:97-118 | a dropped option is reported with the first problem that it has |
| CleanForms.CleanOptionsFixpoint | server/proxy/form.go:93-125 | cleaning options changes nothing, and reports nothing, exactly on clean ones |
| CleanForms.FieldKeptIff | server/proxy/form.go:41-84 | a field is kept if and only if its name, and its own label or else its name with dashes, are single words, it is usable, and no kept field before it has its label; it then carries that label and everything else but dropped options |
| CleanForms.FieldProblem | server/proxy/form.go:41-84 | a dropped field is reported with the first problem that it has |
| CleanForms.FieldsSilentIff | server/proxy/form.go:41-91 | no field is reported if and only if all are sound and their labels differ; then all are kept |
| CleanForms.FormContents | server/proxy/form.go:21-91 | what a cleaned form carries, and exactly when nothing is reported |
| CleanForms.CleanFormLoop | server/proxy/form.go:21-91 | the loop computes the cleaned form and its problems |
| CleanForms.CleanFormIdempotent | server/proxy/form.go:21-91 | with an idempotent icon normaliser, cleaning a form twice is cleaning it once |
| CallOnce.AtMostOnce | server/proxy/synchronize.go:72-105 | for any number of nodes and any interleaving f completes at most once, plus once per delete after the first lock and per completed run that was not recorded |
| CallOnce.AllFinishedExactlyOnce | server/proxy/synchronize.go:72-105 | when all nodes have finished, nothing failed and no delete was late, f has completed exactly once and every node returned nil |
| CallOnce.ExactlyOnce | server/proxy/synchronize.go:72-105 | without late deletes and lost records, f has completed exactly once as soon as one node returns nil |
| CallOnce.NilMeansCompleted | server/proxy/synchronize.go:84-104 | a nil return means that f completed on some node in this round |
| CallOnce.ErrorIffOwnFailure | server/proxy/synchronize.go:72-105 | a node that has finished returned an error if and only if one of its own calls, or f on it, failed |
| CallOnce.RoundStaysOpen | server/proxy/synchronize.go:84-91 | until f has completed, every node that checks goes on to run it |
| CallOnce.FailedRunLeavesRoundOpen | server/proxy/synchronize.go:91-93 | after a failed f the next node in line can complete it |
| CallOnce.LateDeleteRunsTwice | server/proxy/synchronize.go:75-78 | one delete after the first lock makes f complete twice |
| Synchronize.SynchronizeInstalledApps | server/proxy/synchronize.go:21-70 | on success exactly the apps with a listed manifest of another version are saved with that manifest, field by field, in the cache, and in what both the list in memory and the persisted one show after a restart; a failed Save ends it with some of them saved |
| Synchronize.SyncedTookOver | server/proxy/synchronize.go:38-52 | a renewed app has ID, version and the rest of the listed manifest and the store's schema version, and keeps bot, OAuth2 ID, flags and the rest of its installation |
| Synchronize.OnlyBuiltinsStayOutdated | server/proxy/synchronize.go:25-45 | after a success only builtin apps can still be outdated, and what Get returns has changed for renewed apps only |
| Keys.Hashkey | server/store/service.go:114-169 | the buffers built by appending are the fixed-width key, or the first error in the order of the checks |
| Keys.HashkeyDefined | server/store/service.go:114-154 | a key of 82 bytes comes out exactly for well-formed requests |
| Keys.HashkeyErrors | server/store/service.go:114-154 | every other request gets the error of the first check that it fails |
| Keys.ParseUndoesHashkey | server/store/service.go:171-183 | parsing gives the parts back exactly when app ID and namespace have no surrounding whitespace |
| Keys.HashkeyInjective | server/store/service.go:114-169 | equal hashkeys come from requests that agree on everything but the hashed ID |
| Keys.ParseUndoesSessionKey | server/store/session.go:30-49 | a session key parses back exactly when neither ID has an underscore |
| Keys.SessionKeyUndoesParse | server/store/session.go:30-49 | whatever parses is the session key of what it parses to |
| Keys.SessionKeyInjective | server/store/session.go:30-36 | session keys do not clash, as user IDs have no underscore |
| Keys.AppKeyPrefix | server/store/session.go:34-36 | which session keys the prefix of an app matches |
| Keys.NamespacesDisjoint | server/store/service.go:35-68 | no key is of two of the seven kinds |
| Keys.KeysHaveTheirKind | server/store/service.go:35-68 | the keys that the stores build are of their kinds |
| Keys.KeyFormats | server/store/service.go:35-68 | the texts of the keys and of the prefixes that tell them apart |
| Paging.PagesArePrefix | server/store/session.go:78-97 | the pages are consecutive pieces of the listing |
| Paging.EmptyPageIsLast | server/store/session.go:81-88 | the first empty page comes exactly after the whole listing |
| Paging.ListMatching | server/store/session.go:78-125 | the page loop terminates and returns the matching keys, each once, in order |
| Paging.DeleteWhilePaging | server/store/service.go:185-222 | with KV.Delete as the callback only matching keys go, and on success exactly the stated survivors stay, in order |
| Paging.DeletionCompleteIff | server/store/service.go:191-222 | the deletion is complete if and only if no matching key is among those that the moving pages skip |
| Paging.OnePageIsComplete | server/store/service.go:191-222 | on a listing of one page it is complete |
| Paging.SecondPageSurvives | server/store/service.go:191-222 | with one matching key more than a page, the last one is never seen |
| AppData.RemoveAllKVAndUserDataForApp | server/store/service.go:225-234 | only the app's hashkeys go, and on success what is left is given by two such deletions |
| AppData.OnePageLeavesNoData | server/store/service.go:225-234 | on a one-page listing exactly the app's data are gone |
| AppData.DataBelongsToItsApp | server/store/service.go:236-246 | a hashkey is taken for an app's data if and only if it was made for that app in one of the two namespaces |
| AppData.DeleteAllForApp | server/store/session.go:186-200 | only the matched session keys go, and of these at most as many stay as calls have failed |
| AppData.TokenBelongsTo | server/store/session.go:90 | a session of app b and user u is matched for app a if and only if a is a prefix of "b_u" |
| AppData.UnderscoreMatchesAcrossApps | server/store/session.go:90 | an underscore lets an app ID match sessions of an app that it is no prefix of |
| DebugInfo.GetDebugKVInfo | server/store/kv_debug_info.go:52-121 | every counter is the number of its keys; AppsTotal is the sum of the per-app totals; each app's KV count is the sum over its namespaces and over its users |
| DebugInfo.PlainCounters | server/store/kv_debug_info.go:63-117 | field by field, which keys the exact counters have counted |
| DebugInfo.RecordCounters | server/store/kv_debug_info.go:107-117 | the same for the records of apps and manifests and the debugging keys |
| DebugInfo.AppCounters | server/store/kv_debug_info.go:74-102 | the same for the counters of one app |
| DebugInfo.AppCountersBy | server/store/kv_debug_info.go:74-78 | and for its counters by namespace and by user |
| DebugInfo.CountersPartition | server/store/kv_debug_info.go:63-117 | the counters partition the key space but for unrecognised keys |
| DebugInfo.KindsExclude | server/store/kv_debug_info.go:66-117 | the order of the tests does not matter: a key belongs to at most one kind |
| Subscriptions.KeyDefinedIffValid | server/store/subscriptions.go:41-81 | an event has a key if and only if it validates without a complaint |
| Subscriptions.KeyTable | server/store/subscriptions.go:41-81 | subject by subject, which events have a key, and which |
| Subscriptions.ComplaintTable | apps/subscription.go:118-160 | each complaint is made exactly for the events that it is about |
| Subscriptions.SubsKeyInjective | server/store/subscriptions.go:41-81 | different events have different keys |
| Subscriptions.SubscribeIsUpdate | server/appservices/subscriptions.go:23-54 | subscribing updates the map (event, app, owner) to call at one place and keeps the lists duplicate-free |
| Subscriptions.SubscribeOrder | server/appservices/subscriptions.go:33-44 | in its list an entry loses its old place and gets the last one; all others stay, in order |
| Subscriptions.UnsubscribeIsRemoval | server/appservices/subscriptions.go:56-73 | unsubscribing removes one entry of the map |
| Subscriptions.UnsubscribeAppIsFilter | server/appservices/subscriptions.go:102-135 | removing an app filters the map |
| Subscriptions.RunRefinesMap | server/appservices/subscriptions.go:23-135 | over every run of successful operations the lists represent the map of the run |
| AppServices.RemoveAt | server/appservices/subscriptions.go:158-161 | the in-place removal shifts the rest forward and keeps every other entry in order |
| AppServices.UnsubscribeOwner | server/appservices/subscriptions.go:137-170 | store and result are determined by whether the list could be read and how the one write ended; forbidden exactly for an existing entry of somebody else without the privilege |
| AppServices.Subscribe | server/appservices/subscriptions.go:23-54 | store and result are those of at most two writes after one read, under their fates |
| AppServices.SubscribeSucceedsIff | server/appservices/subscriptions.go:23-54 | success if and only if the event is valid, the list can be read, and every write that is made goes well; and what subscription is there afterwards, call by call |
| AppServices.SubscribeLosesIff | server/appservices/subscriptions.go:33-51 | an earlier subscription is lost if and only if there was one and its removal took effect while reporting a failure, or went well before the second write was lost; without one nothing is lost |
| AppServices.SubscribeSparesOthers | server/appservices/subscriptions.go:23-54 | whatever happens to the writes, all other subscriptions are the same |
| AppServices.SecondSubscribeLoses | server/appservices/subscriptions.go:33-51 | the loss, on every store: subscribing twice, the last write of the second time lost, leaves none |
| AppServices.Unsubscribe | server/appservices/subscriptions.go:56-73 | success if and only if the event has a key, the list could be read, the entry was there and its removal went well, and it is then gone; not found if and only if there was none to be read, and nothing has changed; nobody else's entry ever changes |
| AppServices.UnsubscribeExact | server/appservices/subscriptions.go:56-73 | the same of the specification, on every store |
| AppServices.List | server/store/subscriptions.go:100-127 | the lists under the subscription keys, in listing order |
| AppServices.GetSubscriptionsExact | server/appservices/subscriptions.go:75-100 | exactly the app's and the user's entries, each once |
| AppServices.UnsubscribeApp | server/appservices/subscriptions.go:102-135 | the lists handled so far have lost exactly the app's entries; on success these are all lists |
| Notify.NotifyUserChannel | server/proxy/notify.go:32-113 | the three notifications are those of the fan-out, each left out exactly if its list cannot be read |
| Notify.NotifyUserTeam | server/proxy/notify.go:115-193 | the same for teams |
| Notify.NotifyChannelCreated | server/proxy/notify.go:197-216 | nothing without a team or when the list cannot be read, otherwise exactly the team's subscriptions, each once |
| Notify.ChannelFanoutExact | server/proxy/notify.go:54-112 | a subscription is dispatched if and only if it is for the channel, or unscoped and the member's own, or a bot one of an enabled app whose bot is the member; each once, unless the channel has no ID and the member has unscoped ones |
| Notify.TeamFanoutExact | server/proxy/notify.go:136-192 | the same for teams |
| Notify.PartialFanoutExact | server/proxy/notify.go:54-112 | a list that cannot be read costs exactly the dispatches for its own event |
| Notify.SameEventRepeats | server/proxy/notify.go:54-88 | with the same event twice, nothing is repeated if and only if the member owns no unscoped subscription |
| Sessions.RunKeepsInv | server/session/session.go:43-164 | over every run of ticks, issued and revoked sessions, each stored session mirrors the server's and at most one per app and user is live |
| Sessions.IssueKeepsInv | server/session/session.go:43-141 | issuing a session keeps this |
| Sessions.RevokeKeepsInv | server/session/session.go:147-164 | revoking one keeps this |
| Sessions.SessionService.CreateSession | server/session/session.go:63-117 | a fresh session of the app and user on the server and in the store that expires ten minutes after a moment of the call, or the exact reason why not |
| Sessions.SessionService.ExtendIfNeeded | server/session/session.go:119-141 | the session unchanged if more than five minutes of it are left at a reading of the clock, otherwise on both sides with an expiry ten minutes after a later one |
| Sessions.SessionService.GetOrCreate | server/session/session.go:43-61 | a stored session that has not expired at a reading of the clock is kept, as it is or for ten minutes more; otherwise a new one for ten minutes; it is the app's and user's, stored and on the server, with more than five minutes left |
| Sessions.SessionService.RevokeSessionsForApp | server/session/session.go:166-175 | without failures exactly the matched sessions leave the store, and those on the server are revoked or expired |
| Sessions.SessionService.RevokeSessionsForUser | server/session/session.go:177-186 | the same for the sessions whose key parses to the user |
| Sessions.RevokedForUserIff | server/store/session.go:99-125 | a session is matched by user if and only if it is the user's and its app ID has no underscore |
| Sessions.ClearingLeavesASecondSession | server/proxy/enable.go:109-112 | after clearing the store alone, enabling, any time and a fresh session, at most one session of each app and user is live if and only if the cleared session, if there was one, has expired |
| Sessions.SecondSessionReachable | server/proxy/enable.go:109-112 | a run with two live sessions of one app and user |
| Lifecycle.Proxy.UninstallApp | server/proxy/uninstall.go:17-85 | on success the app is erased from store, lists, cache and accounts, but for at most as many session keys as calls have failed; a refusal changes nothing; after a failed clean-up a non-builtin app is out of the cache if and only if Delete's first call succeeded, with lists and blob as far as Delete got, and otherwise disabled and persisted so unless it was before or a call of DisableApp failed; a builtin app stays as Get returns it, and its installed copy is the old one, gone, or the disabled one, by how far Delete and DisableApp got; whatever fails, other apps' data, subscriptions, list entries, blobs and cached records are the same |
| Lifecycle.StepsErase | server/proxy/uninstall.go:55-85 | the four steps on the store erase the app's sessions, data, subscriptions and record, and touch no other key |
| Lifecycle.OtherAppsUntouched | server/proxy/uninstall.go:55-85 | another app's data and every other record stay; its session of a user stays exactly when the uninstalled ID is no prefix of "app_user" |
| Lifecycle.Proxy.DisableApp | server/proxy/enable.go:72-123 | on success the bot is inactive, the app's sessions are cleared and its record is saved disabled, in the cache and on disk; afterwards the app is let through if and only if it is builtin; whatever fails, other apps' data, subscriptions, list entries, blobs and cached records are the same |
| Lifecycle.Proxy.EnableApp | server/proxy/enable.go:16-70 | on success the record is saved enabled, in the cache and on disk, its bot is active, and the app is let through if it is listed; whatever fails, only the app's own record has changed |
| AppRecords.PutKeepsOthers | server/store/apps.go:159-212 | saving a record, whatever fails, leaves every other ID's list entries, blobs and cached record as they were; a persisted entry may take over the one in memory |
| AppRecords.RemoveKeepsOthers | server/store/apps.go:214-253 | so does removing one |
| AppRecords.OtherRecordStays | server/store/apps.go:76-253 | after that another app's record is the same in the cache, through the memory list, and after a restart |
| AppRecords.DeletionOutcome | server/store/apps.go:214-253 | App.Delete succeeds if and only if the app is installed and listed and all its calls go well; a failed one has taken the record away if and only if its first call succeeded |
| AppRecords.GoneForGood | server/store/apps.go:231-250 | stopped after that call, the app is gone for Get and, where the two lists agreed, after a restart |
| Expansion.RequiredKeepsLevel | apps/expand.go:42-65 | Required makes a level required and changes nothing else |
| Expansion.Expander.Step | server/proxy/expand.go:226-420 | a step writes its own field only, with what it fetched, and fails exactly when fetching does; ExpansionSources says what that is |
| Expansion.Expander.EnsureGetter | server/proxy/expand.go:422-456 | the getter is made once, by the kind and permissions of the destination app |
| Expansion.Expander.Expand | server/proxy/expand.go:90-224 | a success has every field as expected, passes the check, and keeps only user agent and submit flag; an error is the first one, with its reason; success if and only if no step fails and no answer of the server is refused; nil is dereferenced if and only if the only refusal is a team member of somebody else and there is no channel member |
| Expansion.ExpandContext | server/proxy/expand.go:39-85 | the same from a fresh context, with the bot's token if the app acts as a bot, and of the user agent's part only user agent and submit flag |
| Expansion.RequiredFieldsAreSet | server/proxy/expand.go:173-207 | every field required at one of its levels is set, but for oauth2_user without data; no other field is set |
| Expansion.EntitiesAgree | server/proxy/expand.go:482-520 | the expanded entities agree with the user agent's channel and team |
| Expansion.CheckPassesIff | server/proxy/expand.go:482-520 | the check passes if and only if each entity agrees with the user agent on channel, team and user; it panics exactly on a team member of somebody else without a channel member |
| Expansion.ErrorsAreReal | server/proxy/expand.go:173-213 | an error rules out every successful expansion of the same inputs |
| Expansion.CheckOfInputs | server/proxy/expand.go:482-520 | what the check comes to is determined by the levels, the user agent's IDs and the server's answers |
| Expansion.SucceedsIff | server/proxy/expand.go:90-224 | there is a successful expansion if and only if no step fails and none of the server's answers for post, channel, channel member and team member is refused |
| Expansion.PostDecides | server/proxy/expand.go:483-488 | where nothing else fails, an expansion succeeds if and only if there is no readable post, no channel in the user agent, or the post is of that channel and not at level "id" |
| Expansion.ChannelDecides | server/proxy/expand.go:490-495 | where nothing else fails, an expansion succeeds if and only if the channel cannot be read, there is no team in the user agent, the channel is of that team, or it is a direct or group one not at level "id" |
| Expansion.UnreadableChannelPasses | server/proxy/expand.go:286-309 | a channel that cannot be read is filled in from the user agent's IDs at level "id" |
| Expansion.LocaleOfRun | server/proxy/expand.go:367-375 | in every success the locale is looked up if acting_user is not expanded, the server's default if it is expanded at "id", and else the user's if set |
| Expansion.HonestServerNeverPanics | server/proxy/expand.go:508-517 | with a server that answers with the membership of the user asked for, nil is never dereferenced |
| Expansion.PanicReachable | server/proxy/expand.go:508-517 | inputs with another server for which it is |
| ExpansionSources.LevelTexts | apps/expand.go:42-69 | which texts are parsed as which level |
| ExpansionSources.WantedTexts | server/proxy/expand.go:99-171 | which texts ask for which field, and which require it |
| ExpansionSources.GetterTexts | server/proxy/expand.go:422-456 | whose session asks the server: special, builtin, then the acting user's, and only then the bot's |
| ExpansionSources.ActingUserSources | server/proxy/expand.go:111-114 | acting_user is the server's answer for the request's user, without what its level hides, and never with authentication data |
| ExpansionSources.UserSources | server/proxy/expand.go:167-171 | user is the answer for the user agent's user ID |
| ExpansionSources.PostSources | server/proxy/expand.go:147-150 | post is the answer for the post ID, at level "id" without its channel |
| ExpansionSources.RootPostSources | server/proxy/expand.go:152-155 | root_post is the answer for the root post ID |
| ExpansionSources.ChannelSources | server/proxy/expand.go:286-309 | channel is the answer for the channel ID, or at level "id" filled in |
| ExpansionSources.TeamSources | server/proxy/expand.go:311-332 | the same for the team, whose invitation is never passed on |
| ExpansionSources.MembershipSources | server/proxy/expand.go:268-284 | both memberships are those of the user agent's user, or for want of one of the acting user |
| ExpansionSources.NobodyIsNoMember | server/proxy/expand.go:334-350 | without either there are none |
| ExpansionSources.AppSources | server/proxy/expand.go:226-266 | the app's own data, the webhook secret exactly at "all" for the privileged, and the acting user's token exactly for an app that acts as the user |
| ExpansionSources.LocaleSources | server/proxy/expand.go:367-375 | the locale of the user, else of the server, else English |
| ExpansionSources.OAuth2Sources | server/proxy/expand.go:377-420 | both OAuth2 fields, with the two URLs |
| ExpansionSources.NoErrorIff | server/proxy/expand.go:173-207 | no step ends the expansion if and only if all levels can be parsed, what is asked for has a getter, and what is required is available |
| ByteSizes.InsertCommas | utils/byte_size.go:28-36 | the loop groups digits by three from the right |
| ByteSizes.CommasUndone | utils/byte_size.go:28-36 | removing commas undoes inserting them |
| ByteSizes.CommaPlaces | utils/byte_size.go:28-36 | counted from the right, every fourth place is a comma and no other |
| ByteSizes.String | utils/byte_size.go:23-62 | the scan over the units prints the specified text |
| ByteSizes.PrintedText | utils/byte_size.go:38-60 | from 1,024 on, the size in the largest unit that is not larger, in the nearest number of tenths, with its suffix |
| ByteSizes.ParseByteSize | utils/byte_size.go:64-89 | the scan over the suffixes and the two number parsers give the specified result |
| ByteSizes.ParseOfText | utils/byte_size.go:64-84 | any whole number, signed or not, with any suffix in any case or none, is read as that many units, modulo 2^64 |
| ByteSizes.ParseOfFraction | utils/byte_size.go:64-84 | any number with a fraction, signed or not, with any suffix in any case or none, is read as that many units, cut off at the point |
| ByteSizes.ParseOfSmall | utils/byte_size.go:23-89 | below 1,024 parsing undoes printing |
| ByteSizes.ParseNearPrint | utils/byte_size.go:23-89 | up to (2^63-1-2^39)/10 what is read back differs by at most a twentieth of the printed unit plus one |
| ByteSizes.PrintParsePrintIff | utils/byte_size.go:23-89 | printing what was read back gives the same text if and only if the size was not rounded up to 1,024 of a unit below Tb |
| ByteSizes.OverflowFirst | utils/byte_size.go:77-84 | digits that overflow are a range error, whatever comes after them |
| ByteSizes.TextExactIff | utils/byte_size.go:46-58 | inside of the guard the text shows the rounded size precisely up to (2^63-1-2^39)/10, and a huge number of terabytes above it |
| ByteSizes.NotAvailable | utils/byte_size.go:46-61 | negative sizes and those above the guard print as "n/a", which does not parse |

## Left out

- Idealisations: SHA-1 does not collide (section 6.1 of FIPS 180-4) and never gives the empty string; JSON decoding undoes encoding on valid records, and an encoding fixes its record's ID; the cut SHAKE128 hash encoded as ascii85 has a fixed width of 20; strings are ASCII, so bytes are characters.
- Icons: the path normaliser is an arbitrary function; idempotence results ask it to be idempotent.
- Floating point: `strconv.ParseFloat` is taken to be exact on decimals with one place; what converting a number outside of int64 gives is left open.
- Logging, messages and error texts: only which error and in which order.
- HTTP handlers, upstream calls, JWT, webhooks, OAuth redirects, the builtin command app, i18n, `goapp`, `appclient`, `appsctl`, test apps.
- Permission checks of requests, and of subscriptions, are answers from outside: a boolean each.
- Synchronize.SynchronizeInstalledApps: the OnVersionChanged calls, each through `callOnce`; several apps sharing its one key.
- `NotifyUserCreated`: a single notification without a filter. `invokeNotify`: what happens inside of a dispatched goroutine; the order of the goroutines.
- `ListHashKeys` with callbacks other than deletion, and `WithUserID`, `WithNamespace`: they only read, or match one more field.
- `DeleteAllForUser`, `ListForUser` as an API of its own: the same loops with the other predicate.
- `InitGlobal`, `mergeDeployData`, `AsList`, `WithDefault`, `RootURL`, permission validation, the one-time OAuth state: easy next to the rest.
- Concurrent calls of the same store, service or expander: each method runs by itself, except in `CallOnce`.
- Aliasing of Go slices and pointers: maps and slices are replaced as values; the in-place removal of a subscription is modelled on an array.
- DebugInfo.GetDebugKVInfo: per-app counters are values in a map, where the code keeps pointers to structs; whether an app without a counted key has an entry.
- ArrivalOrder.SortTopBindings: sorts values, where the code sorts the slices in place.
- Paging.ListMatching: one method for the page loops that differ only in the test of a key; reading the sessions follows the listing instead of being interleaved with it.
- Sessions.RunKeepsInv: assumes that no call fails, and that nothing else revokes or extends app sessions on the server; an ID of a new session is one that no session on the server has; user IDs have no underscore.
- Sessions.SessionService.GetOrCreate: roles, CSRF token and session properties other than the app's ID; that sessions mirror the server's is promised for user IDs without underscore, while it held before and no call fails.
- Lifecycle.Proxy.UninstallApp: the app's OnUninstall answer is an input; complete clearing of app data is promised for listings of at most one page; live sessions on the server are left to the deletion of the OAuth app, as the code's comment says.
- Lifecycle.Proxy.DisableApp: the OnDisable call and the message; the same for OnEnable.
- Expansion.Expander.Expand: entities carry the fields that stripping and the check look at, the rest in bulk; the server's answers do not change during one expansion.
