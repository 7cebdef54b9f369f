# Abaris: a verified model of the broker

Abaris is an identity-aware broker between MCP clients and backend tool servers. It decides with merged policy files,
routes tool names by their first segment, and forwards calls with its own credentials. This project models that logic in
Dafny and proves what it promises, or, where a promise does not hold of the code, the exact condition under which it does.

`dafny verify dfyconfig.toml` checks the whole project.

## How the model is laid out

- **Values and strings.** `Text` (Go string helpers), `Domain` (value types), `Ordering` (Go string order and
  sorting), `Base64Url`.
- **Policy pipeline.** `PolicyMerge` is the deep merge, with Go's map iteration as arbitrary choice; `Glob` the
  patterns; `Routing` the route lookup and the cross-file check; `Rego` the decision rules of `policies/abaris.rego`
  and the operation classifier, where two different values for a complete rule are an evaluation error; `DryRun` the
  second decision procedure; `PolicyChange` what merging and adding files do to decisions; `OperationRules` (over
  `PatternSearch`) which policies permit, and which keep out, tools of a given operation; `ConfigLoader` the loader
  and runs of reloads; `PolicyAdapter` the policy engine object; `HotReload` the engine's goroutines, interleaved at
  their locks.
- **Broker.** `Outside` is everything the broker calls, with arbitrary answers that may differ from one moment to the
  next, and a log of the calls; `Discovery`, `Broker` and `OboPipeline` are the flows. Each method is proved to append
  to the log exactly a segment described by a transcript predicate, and `ExecutionSafety`, `ResponseCodes` and `EndToEnd` prove what
  transcripts, and runs of many interleaved ones, imply; `SilentRefresh` is about the session refresh inside a
  request, `ListingUnderReloads` about listings among reloads.
- **Token and session protocols.** `RefreshTransport` (any number of interleaved round trips over one store),
  `SseTransport` and `EventStream`, `TokenStore` (the encrypted store refines a map), `Connect` (state tokens),
  `CompactJwt`; `UserTokens` joins the pipeline and its transport.

## Where the code and its documentation disagree

The model follows the code. The numbered design properties are those of `.kiro/specs/abaris-mcp-proxy/design.md`.

- `README.md:96-98` says that adding a policy file can only expand permissions. A file with `denied_tools` revokes,
  and the loader accepts it (`PolicyChange.AddedFileCanRevoke`); `PolicyChange.AddingAFileRevokes` says exactly which
  tools lose `allow`, `PolicyChange.DryRunKeepsPermitIff` exactly when the dry run's permit stands. A file that covers
  a permitted call under a second rule id turns the permit into an evaluation error, because `matched_rule` is a
  complete rule (`PolicyChange.AddingAFileKeepsPermit`). Such an error for one listed tool also makes the caller's
  whole `tools/list` unavailable (`PolicyAdapter.ListingFailsIff`).
- Design property 8 says that read-only callers never get write or delete tools. No rule enforces it: every configured
  backend's delete tools can be permitted to them by policies that pass validation
  (`OperationRules.ReadOnlyCanDelete`). Whether given policies keep the promise, whatever they allow and deny, is
  decided exactly by a terminating walk over the caller's patterns (`OperationRules.KeepsOutIff`); two conditions that
  can be read off the lists are `OperationRules.LiteralsKeepOutIff` and `OperationRules.KeepsChangesOut`.
- `config/policies/read-only.yaml:5-7` says that its denials block write and delete operations even if a later allowed
  pattern would match them. Its denials are written with dashes; tools spelled with underscores are classified alike
  and are not matched (`OperationRules.DashedDenialsMissUnderscores`, `OperationRules.UnderscoredDelete`).
- Design property 10 says that an unrecognised operation is denied. The operation is inferred from the tool's name and
  is always one that the rules accept, the empty one included (the rules themselves would deny any other,
  `Rego.UnknownOperationIsDenied`), so such tools can be permitted
  (`OperationRules.UnknownOperationCanBePermitted`). The same walk decides which policies deny them all
  (`OperationRules.KeepsOutIff`), and `OperationRules.KeepsUnknownOut` is a condition that can be read off the lists.
- Design property 11 says that every decision names a rule. Exactly the permits do (`Rego.RuleIffPermitted`).
- Design property 14 says that any valid configuration survives being written out and loaded. Of the valid ones
  exactly those do whose policy groups are strictly increasing, whose patterns are routed, and whose secondary
  providers have different names and no secret resolved yet; secrets are not written, and an empty policy list makes
  an invalid file (`ConfigLoader.ConfigRoundTripIff`). What an initial load produced survives exactly when it found a
  policy file (`ConfigLoader.LoadedRoundTripsIff`): an empty policy directory is accepted, an empty policy file is
  not.
- Design property 23 says that a token lives exactly for the configured time. The claims are in whole seconds
  (`CompactJwt.LifetimeIsTTLIffWholeSeconds`).
- `internal/proxy/refresh_transport.go:86-88` deletes "the stale pair" after a failed refresh. It deletes whatever is
  current, also a pair that an overlapping request has just renewed (`RefreshTransport.OverlapLosesRenewedPair`). A
  request that holds the current pair is sure to delete only that one exactly when no other request on its key may
  still renew (`RefreshTransport.DeletesOnlyStaleIff`).
- Requirement 12.2 of `.kiro/specs/abaris-mcp-proxy/requirements.md` says that an expired session is refreshed
  silently. The broker resolves the caller first and refuses an expired token, so the pipeline refreshes exactly when
  the same context is accepted there and then refused by the pipeline's own resolve (`SilentRefresh.RefreshesIff`);
  while answers to one context are stable it never does (`SilentRefresh.NoRefreshUnderStableResolve`). Requirement
  12.3 promises code -32001 when the session cannot be refreshed; while answers are stable the answer to an expired
  token is -32003 from the broker's own refusal, and where the pipeline is reached with the session lost
  (`SilentRefresh.SessionCanBeLost`) it is -32002 (`SilentRefresh.LostSessionIsUnavailable`).
- `internal/policy/opa_adapter.go:231-233` says that `UpdatePolicies` replaces the policies. A polling reload that
  read the old ones before its slow load puts them back (`HotReload.UpdateCanBeLost`,
  `HotReload.UpdateIsDurableIffNothingStale`).
- On an on-behalf-of route the policy is asked again about the stripped name (`internal/proxy/broker.go:368`,
  `internal/proxy/obo_pipeline.go:102`). With policies that passed validation and route prefixes without wildcards, a
  slash-free stripped name is permitted only if it is itself listed literally (`EndToEnd.SlashFreeIsLiteral`). If
  route prefixes are, besides, slash-free, non-empty and pairwise distinct, such a tool can be called at all exactly
  when its name is a route prefix (`EndToEnd.OboToolReachableIff`).
- A backend tool whose name already has a "/" is listed unqualified. With slash-free, non-empty, distinct route
  prefixes it is never called back on its own backend under its own name (`EndToEnd.CalledBackIffSlashFree`).

## Model

| member | source | states |
|---|---|---|
| PolicyMerge.DeepMergePolicies | internal/config/loader.go:301-324 | Whatever order the two map iterations take, the result is the one list that the order-free definition of the merge gives. |
| PolicyMerge.MergeEntry | internal/config/loader.go:303-313 | One more entry keeps the accumulated map equal to the combined entry of each group seen so far. |
| PolicyMerge.Union | internal/config/loader.go:358-373 | The strictly sorted list of the elements of both slices, whatever order the map is walked in. |
| PolicyMerge.MergeIsUnion | internal/config/loader.go:301-324 | A merged entry allows and denies exactly the patterns that some entry of its group allows and denies. |
| PolicyMerge.MergeCovers | internal/config/loader.go:301-324 | Every input entry's group has a merged entry. |
| PolicyMerge.MergeKeys | internal/config/loader.go:316-323 | The merged groups are the input's groups, strictly increasing. |
| PolicyMerge.MergeIgnoresOrder | internal/config/loader.go:301-324 | Permuting files or entries does not change the merged list. |
| PolicyMerge.MergeInStages | internal/config/loader.go:301-324 | Merging a merged list with more files equals merging everything at once. |
| PolicyMerge.MergeIsIdempotent | internal/config/loader.go:301-324 | Merging a merged list returns it unchanged. |
| PolicyMerge.RoundTripIffSorted | internal/config/loader.go:301-324 | Merging returns a policy list unchanged exactly when its groups are strictly increasing. |
| PolicyMerge.MergedListsAreCanonical | internal/config/loader.go:299-313 | Merged lists are sorted and duplicate-free exactly when the group occurs several times or its lone entry was written so. |
| Ordering.SortBy | internal/config/loader.go:320-322 | Sorting by a key gives an ordered permutation. |
| Ordering.LessIsLexical | internal/config/loader.go:320-322 | The order is the lexical one: the first difference decides, and a proper prefix comes first. |
| Ordering.SortedIsUnique | internal/config/loader.go:357-373 | A strictly sorted list is determined by its elements, which is why the map order cannot show. |
| Glob.MatchBySegments | policies/abaris.rego:58-60 | A pattern matches a name exactly when first segments match and rests match: no wildcard crosses a slash. |
| Glob.LiteralMatch | internal/domain/dryrun.go:99-107 | A pattern without wildcards matches exactly itself. |
| Glob.StarTakesAnyRun | internal/domain/dryrun.go:99-107 | A star followed by a pattern matches exactly by taking some run without a slash and matching the rest. |
| Glob.OtherPartsTakeOne | internal/domain/dryrun.go:99-107 | Every other part of a pattern takes exactly one letter: a question mark any but a slash, a literal itself. |
| Glob.PrefixIsPinned | internal/domain/dryrun.go:91-97 | All names a pattern matches share the pattern's prefix exactly when that prefix has no wildcard. |
| Routing.ValidatePolicyRoutes | internal/config/loader.go:328-348 | No error exactly when each pattern's prefix is a route prefix; else the group and pattern of the first offender. |
| Routing.FindRoute | internal/proxy/broker.go:440-448 | A route is found exactly when some route has the name's prefix, and it has that prefix. |
| Routing.FindRouteIsFirst | internal/proxy/broker.go:440-448 | Of several routes with the prefix it is the first. |
| Routing.PatternsAreAllThenDenied | internal/config/loader.go:334-345 | The check reads the allowed patterns of an entry and then the denied ones. |
| Routing.FindsTheRoute | internal/proxy/broker.go:440-448 | With distinct prefixes the route found is the one with the name's prefix. |
| Routing.ValidatedIsRoutable | internal/config/loader.go:328-355 | A name that a validated pattern matches has a route when route prefixes hold no wildcard. |
| Routing.RoutabilityNeedsPlainPrefix | internal/config/loader.go:328-355 | A pattern that passes the check matches only routable names, for all routes, exactly when its own prefix has no wildcard. |
| Rego.NormalForm | policies/abaris.rego:46-117 | Allow holds iff some caller entry covers and none denies; the evaluation errs iff two covering pairs print differently; a permit names the only covering rule. |
| Rego.DecisionMeans | policies/abaris.rego:73-117 | Entry by entry and pattern by pattern: permitted exactly when some pattern of the caller's covers the name and none denies it, and a permit names a pair that covers it. |
| Rego.DenialReasons | policies/abaris.rego:118-141 | The exact decision of a denial: empty rule, and which of the reasons is given when. |
| Rego.DenyReasonNeverConflicts | policies/abaris.rego:123-141 | At most one deny reason holds, for any input. |
| Rego.InferredIsAcceptable | internal/policy/opa_adapter.go:351-384 | The inferred operation is always acceptable to the rules. |
| Rego.UnknownOperationIsDenied | policies/abaris.rego:46-52 | The rules themselves deny every call of an operation they do not know, with that reason. |
| Rego.ClassifiedByVerb | internal/policy/opa_adapter.go:351-384 | The operation depends only on the verb before the first dash, not on the order of lists or prefixes. |
| Rego.CompleteRuleCases | policies/abaris.rego:107-117 | A complete rule errs exactly when two of its bodies give different values. |
| Rego.ReadOnlyMayWrite | policies/abaris.rego:92-134 | For every wildcard-free tool some policy lets a read-only caller use it. |
| Rego.RuleIffPermitted | policies/abaris.rego:107-117 | Whenever there is a decision, it names a rule exactly when it permits. |
| OperationRules.RoutedLiteralIsPermittable | policies/abaris.rego:92-101 | Whatever its operation, every routed wildcard-free name can be permitted to every caller with a group by validated policies. |
| OperationRules.ReadOnlyCanDelete | policies/abaris.rego:92-134 | Every configured backend's qualified delete tools can be permitted to callers who are only read-only, by validated policies. |
| OperationRules.UnknownOperationCanBePermitted | policies/abaris.rego:46-101 | Every configured backend's tools without a verb have no operation and can be permitted by validated policies. |
| OperationRules.LiteralsKeepOutIff | policies/abaris.rego:73-101 | Where allowed patterns hold no wildcards, tools of given operations are never allowed exactly when each allowed name of such an operation is denied. |
| OperationRules.KeepsOutIff | policies/abaris.rego:73-101 | For all policies, callers and operations: tools of these operations are never allowed exactly when the walk over the caller's allowed and denied patterns accepts nowhere. |
| PatternSearch.CanEscapeIff | policies/abaris.rego:58-101 | For all sets of allowed and denied patterns, the walk accepts exactly when some name of such an operation is matched by an allowed and by no denied pattern. |
| PatternSearch.WalkMeans | policies/abaris.rego:58-60 | After any letters, the residual patterns match the empty string exactly when the patterns match those letters. |
| PatternSearch.ReadsOperation | internal/policy/opa_adapter.go:351-384 | Reading a name letter by letter, in finitely many states, gives the operation that is inferred from the whole name. |
| PatternSearch.ExploreIsClosed | policies/abaris.rego:73-101 | The terminating visit contains its start and every successor of what it contains. |
| PatternSearch.UnseenLettersStepAlike | policies/abaris.rego:58-60 | Letters that stand in no pattern and no verb lead to the same state, so one of them stands for all. |
| OperationRules.DashedDenialsMissUnderscores | config/policies/read-only.yaml:5-7 | Where all denials hold a literal dash, every allowed name without a dash is allowed. |
| OperationRules.UnderscoredDelete | internal/policy/opa_adapter.go:351-384 | A qualified name spelled with an underscore after the verb is classified as delete. |
| OperationRules.KeepsChangesOut | policies/abaris.rego:73-101 | For all policies: no write or delete tool is ever allowed if no allowed pattern admits such a verb, and where nothing is denied only if. |
| OperationRules.MayChangeIffAdmits | internal/policy/opa_adapter.go:351-384 | A pattern matches some write or delete tool exactly when a walk over its own part admits such a verb. |
| OperationRules.KeepsUnknownOut | policies/abaris.rego:46-101 | For all policies: no tool of unknown operation is ever allowed if each allowed pattern has a known verb before its first wildcard, and where nothing is denied only if. |
| OperationRules.MayBeUnknownIff | internal/policy/opa_adapter.go:351-384 | A pattern matches some tool of unknown operation exactly when no known verb stands before its first wildcard. |
| Rego.DeleteTools | internal/policy/opa_adapter.go:351-384 | A qualified name whose own part starts with the delete verb is classified as delete, whatever follows. |
| Rego.VerblessTools | internal/policy/opa_adapter.go:351-384 | A qualified name whose own part has no dash or underscore has no operation. |
| DryRun.DryRun | internal/domain/dryrun.go:21-74 | The whole result: verdict, reported rule of the first permitting entry, route and denial text. |
| DryRun.PermittingRule | internal/domain/dryrun.go:32-48 | The policy step reports a rule exactly when an entry permits, and then the first one's. |
| DryRun.MatchesAny | internal/domain/dryrun.go:99-107 | True exactly when some pattern matches. |
| DryRun.FirstMatch | internal/domain/dryrun.go:109-116 | The first matching pattern, or none when there is none. |
| DryRun.LookUpRoute | internal/domain/dryrun.go:57-70 | The dry run's route is the one the broker would find. |
| DryRun.VerdictIgnoresOrder | internal/domain/dryrun.go:21-74 | The verdict does not depend on the order of policies. |
| DryRun.RegoAgainstDryRun | internal/domain/dryrun.go:32-70 | Rego permits and a route exists exactly when the dry run permits and no caller entry denies the tool. |
| DryRun.SameRuleIsNamed | internal/domain/dryrun.go:40-48 | When Rego permits, the rule it names is the policy the dry run reports. |
| DryRun.AgreeForOneGroup | internal/domain/dryrun.go:32-70 | After a merge both procedures agree for a caller with one matching group. |
| DryRun.DryRunMayBeLaxer | internal/domain/dryrun.go:32-48 | For every wildcard-free tool there are policies where the dry run permits and Rego denies. |
| DryRun.NoRouteDenialIsUnreachable | internal/domain/dryrun.go:54-70 | On validated policies the dry run's verdict is the policy's verdict. |
| PolicyChange.MergePreservesMeaning | internal/config/loader.go:301-324 | Merging changes neither what is denied nor under which rule ids a name is covered, for every caller. |
| PolicyChange.MergePreservesDecision | internal/config/loader.go:301-324 | Merged and unmerged policies give every call the same decision, reasons and errors included. |
| PolicyChange.AddingAFileRevokes | README.md:96-98 | A call that was allowed stays allowed exactly when the new file does not deny it to the caller. |
| PolicyChange.AddingAFileKeepsPermit | README.md:96-98 | A permit survives exactly when the new file neither denies the call nor covers it under another rule id; the latter is an evaluation error. |
| PolicyChange.AddedFileCanRevoke | README.md:96-98 | Every allowed wildcard-free call can be revoked by adding one entry, one that the route check accepts wherever it accepts the policies there are. |
| PolicyChange.MergeIsRoutedIff | internal/config/loader.go:301-348 | Merged policies pass the route check exactly when the entries they come from do. |
| PolicyChange.DryRunAfterMerge | internal/domain/dryrun.go:32-48 | After a merge the dry run permits exactly what some one group's entries, taken together, cover and do not deny. |
| PolicyChange.DryRunKeepsPermitIff | README.md:96-98 | After adding a file the dry run permits exactly when some caller group permits by the old entries undenied by the new, or the other way round. |
| PolicyChange.DryRunLosesOnlyDenied | README.md:96-98 | The dry run's permit survives every file that does not deny the tool to the caller. |
| ConfigLoader.Loader.Load | internal/config/loader.go:85-140 | Gives a configuration exactly when all files pass their validation, the policies are routed and the provider names distinct; the whole new state; nothing changes on failure. |
| ConfigLoader.LoadRefusedIff | internal/config/loader.go:85-140 | The initial load is refused exactly when a file is unreadable, a required field empty, a kind unknown, an address no URL, a pattern unrouted, or a provider name repeated. |
| ConfigLoader.Loader.ReloadPolicies | internal/config/loader.go:190-221 | The whole new state is that of the reload step: all or nothing, and on success one launch of the callback if one was given. |
| ConfigLoader.ReloadRefusedIff | internal/config/loader.go:190-221 | A reload is refused, and changes nothing, exactly when a policy file is unusable or a pattern unrouted. |
| ConfigLoader.RawsIff | internal/config/loader.go:273-297 | Under "policies/" and a stem stands the document of the last usable file with that stem. |
| ConfigLoader.ReloadKeepsDocuments | internal/config/loader.go:206-212 | An accepted reload puts the snapshot's documents in place and keeps all others. |
| ConfigLoader.Loader.ResolveSecondaryProviderSecrets | internal/config/loader.go:389-402 | Succeeds exactly when every secret resolves; the providers up to the first failure have theirs, all else is as it was. |
| ConfigLoader.WithSecretsAt | internal/config/loader.go:389-402 | A provider gets its secret exactly when its own and all earlier ones resolve, and nothing else of it changes. |
| ConfigLoader.LoadPolicyFiles | internal/config/loader.go:273-297 | All files' contents and documents, or an error exactly when one file is unusable. |
| ConfigLoader.SecondaryNamesAreUnique | internal/config/loader.go:404-413 | True exactly when no provider name repeats. |
| ConfigLoader.RunKeepsBoundary | internal/config/loader.go:190-221 | Over any run of reloads only policies and policy documents change. |
| ConfigLoader.RunServesLatest | internal/config/loader.go:190-221 | Over any run the active policies are the merge of the latest accepted snapshot, and the callback, if one was given, is launched with exactly the installed configurations, in that order; each launch runs in a goroutine of its own, so nothing is said of the order of delivery. |
| ConfigLoader.RunStaysRouted | internal/config/loader.go:190-221 | Over any run the active policies, and all handed to callbacks, satisfy the route check. |
| ConfigLoader.ReloadOfSavedPolicies | internal/config/loader.go:190-221 | Saving the active policies as the only file and reloading changes nothing in the configuration. |
| ConfigLoader.SavedPoliciesLoadBackIff | internal/config/loader.go:248-348 | A policy list written to one file is accepted and read back unchanged exactly when it is a valid file, its groups are strictly increasing and its patterns routed. |
| ConfigLoader.AcceptedAreUsableIff | internal/domain/types.go:49-118 | The merged policies of an accepted snapshot are a valid file of their own exactly when the snapshot held a file. |
| ConfigLoader.ConfigRoundTripIff | internal/config/loader.go:85-140 | A configuration written out and loaded comes back equal exactly when its files are valid, its groups strictly increasing, its patterns routed, and its secondary providers differently named and without secrets. |
| ConfigLoader.LoadedRoundTripsIff | internal/config/loader.go:85-140 | What an initial load produced comes back equal exactly when it found a policy file. |
| PolicyAdapter.OpaPolicyAdapter.Load | internal/policy/opa_adapter.go:64-136 | Both fields change together once all six stages have succeeded; else the first stage to fail is reported and neither field changes. |
| PolicyAdapter.OpaPolicyAdapter.Evaluate | internal/policy/opa_adapter.go:139-178 | The answer is the decision of the rules over the installed policies. |
| PolicyAdapter.OpaPolicyAdapter.FilterTools | internal/policy/opa_adapter.go:182-203 | The names with permitting answers, in order; an error when an answer is one. |
| PolicyAdapter.ScopeForGroups | internal/policy/opa_adapter.go:302-331 | Exactly the patterns of the caller's entries. |
| PolicyAdapter.Eval | internal/policy/opa_adapter.go:239-278 | Evaluating the three rules and reading the result set gives the decision function's answer. |
| PolicyAdapter.ScopeIsIgnored | internal/policy/opa_adapter.go:139-178 | The scope lists in the input never change a decision, from whichever policies they were taken. |
| PolicyAdapter.FilteredIsExact | internal/policy/opa_adapter.go:182-203 | The filter errs exactly when an answer does, and otherwise keeps exactly the permitted names. |
| PolicyAdapter.ListingFailsIff | internal/policy/opa_adapter.go:182-203 | A caller's whole listing fails exactly when some listed name, as it is read, is covered under two rule ids and not denied. |
| HotReload.StepIsConsistent | internal/policy/opa_adapter.go:64-249 | Every lock-protected step of any goroutine keeps query and policies field from the same load. |
| HotReload.RunIsConsistent | internal/policy/opa_adapter.go:64-249 | So does every interleaving from construction. |
| HotReload.AnswersAreOfOneMoment | internal/policy/opa_adapter.go:139-178 | Every answer is the decision over one policy list that was installed at some moment during that evaluation. |
| HotReload.AnswersByQueryRead | internal/policy/opa_adapter.go:239-249 | An answer is the decision over the very list that was installed when the evaluation read its query. |
| HotReload.InstallsWereGiven | internal/policy/opa_adapter.go:208-236 | Only policies given at construction or to an update are ever installed. |
| HotReload.OnlyGoodLoadsInstall | internal/policy/opa_adapter.go:64-249 | Over any run the install history grows by exactly one for each successful load, and without one neither field changes. |
| HotReload.UpdateIsDurableIffNothingStale | internal/policy/opa_adapter.go:208-236 | The current policies stay until a further update exactly when no load with other policies is under way. |
| HotReload.UpdateCanBeLost | internal/policy/opa_adapter.go:216-220 | A run in which a polling tick undoes an update. |
| Broker.Broker.Handle | internal/proxy/broker.go:118-141 | One response to every request, and the appended log is a transcript of the flow that the request selects. |
| ResponseCodes.InvalidIff | internal/proxy/broker.go:118-141 | Code -32600, with nothing done, exactly for requests that are unreadable, not of version 2.0 or of another method; every answer of the broker's own carries the request's id. |
| Broker.Broker.HandleDiscovery | internal/proxy/broker.go:150-193 | Resolve, aggregate, filter, with the error code of each failure. |
| ResponseCodes.DiscoveryResponse | internal/proxy/broker.go:150-193 | Discovery is answered by the resolve that failed, with its code, or by the filter. |
| Broker.Broker.AggregateTools | internal/proxy/broker.go:197-272 | Every route asked in order under its credential; the result is the first occurrences of the names that answering backends listed. |
| Broker.ParseToolListResponse | internal/proxy/broker.go:277-307 | Trying the two shapes in turn gives the tools of the object or array, none for any other result, an error for malformed and error replies. |
| Discovery.AdvertisedIff | internal/proxy/broker.go:277-321 | A reply advertises exactly the non-empty names that stand in the tool objects of its result's array, under "tools" or itself, and none if it is an error. |
| Broker.ExtractToolNames | internal/proxy/broker.go:310-321 | The loop collects exactly the names that the recursive definition reads. |
| Discovery.NamesAreTheReadableOnes | internal/proxy/broker.go:310-321 | The names read are exactly the readable, non-empty ones. |
| Discovery.DedupIsTheOnlyOne | internal/proxy/broker.go:254-269 | The deduplicated list is the only list with each name once, in order of first occurrence. |
| Discovery.ContributedIffListed | internal/proxy/broker.go:246-269 | A name is aggregated exactly when some backend that answered listed a tool of that qualified name. |
| Discovery.ListingsAreJustified | internal/proxy/broker.go:209-245 | Each listing is made with its own route's credential: the known caller's stored token on an on-behalf-of route, else the service credential. |
| Discovery.RoutesAreAskedInOrder | internal/proxy/broker.go:197-245 | Each route is asked about once, in route order, and listed at once under the credential whenever there is one; nothing else happens. |
| Discovery.AggregatedIff | internal/proxy/broker.go:246-269 | The aggregated names are exactly the names that the replies list, qualified unless they hold a slash. |
| Discovery.ReachableIsAggregated | internal/proxy/broker.go:246-269 | Whatever a backend lists whose credential was there is among the aggregated names. |
| EndToEnd.ReachableToolsAreOffered | internal/proxy/broker.go:150-272 | In every discovery of a resolved caller, whatever a backend lists whose credential was there is offered to the filter. |
| Broker.Broker.HandleExecution | internal/proxy/broker.go:329-373 | Resolve, evaluate, route, strip, dispatch, with the error code of each failure. |
| ResponseCodes.ResponseIsExpected | internal/proxy/broker.go:329-436 | Every tool call is answered as its last event says: which code for which failure, denial or missing route, or what the backend said. |
| ResponseCodes.UnauthenticatedIff | internal/proxy/obo_pipeline.go:110-117 | Code -32001 exactly when the broker's resolve found no credential, or after the second permit the store had no token. |
| ExecutionSafety.RequestTakesSteps | internal/proxy/broker.go:329-422 | Every request is resolved, evaluated if that succeeded, and exactly if permitted taken through each step of its route that the answers before allow. |
| Broker.Broker.HandleStandard | internal/proxy/broker.go:378-422 | Credential of the route's prefix, mint for the caller, one forward of exactly these. |
| Broker.Broker.HandleObo | internal/proxy/broker.go:425-436 | The pipeline's response, or unavailable without a pipeline or on its error. |
| Broker.Broker.ResolveRoute | internal/proxy/broker.go:440-448 | The loop finds the first route with the name's prefix. |
| Broker.StripPrefixFromCall | internal/proxy/broker.go:529-558 | The in-place edit gives the stripped call, unchanged in every case that does not apply. |
| Broker.ToolNameIff | internal/proxy/jsonrpc.go:77-88 | The tool name is the text under "name" of the params object and nothing else. |
| Broker.StrippedKeepsTheRest | internal/proxy/broker.go:529-558 | The name loses exactly the prefix and its slash, if it has them; id, method and other params stay. |
| ExecutionSafety.ExecutionIsSafe | internal/proxy/broker.go:329-436 | At most one contact, last, after a resolve and a permit on the qualified call, with the right credential and assertion; the backend's answer is passed on. |
| ExecutionSafety.HandleIsSafe | internal/proxy/broker.go:118-141 | The same for any request: malformed, unknown and discovery requests never contact a backend with a call. |
| ExecutionSafety.DiscoveryIsQuiet | internal/proxy/broker.go:150-193 | Discovery forwards no tool call and asks for no call decision. |
| ExecutionSafety.DeniedIffLastWordIsDenial | internal/proxy/broker.go:329-373 | The denial code is given exactly when the policy's denial is the last event of the request. |
| ExecutionSafety.StandardForwardIff | internal/proxy/broker.go:378-422 | On a standard route a request reaches the backend exactly when resolve, permit, credential and mint succeed. |
| ExecutionSafety.EveryContactIsJustified | internal/proxy/broker.go:329-436 | In every run of any number of interleaved requests, at every moment, each contact is justified by earlier events of its own request. |
| OboPipeline.OboPipeline.Execute | internal/proxy/obo_pipeline.go:92-172 | The appended log is a transcript of the four steps. |
| OboPipeline.OboPipeline.ResolveIdentity | internal/proxy/obo_pipeline.go:177-231 | Resolve, and at most one silent refresh, save and second resolve, with the error of each failure. |
| OboPipeline.MintAndContact | internal/proxy/obo_pipeline.go:117-157 | Mint for the caller, then one contact with that assertion and credential. |
| OboPipeline.IdentityIsCurrent | internal/proxy/obo_pipeline.go:177-231 | The returned identity was resolved last and under the returned context; one refresh at most, with the token stored for the user of the expired token. |
| OboPipeline.IdentityTakesSteps | internal/proxy/obo_pipeline.go:177-231 | Each call of the silent refresh is made exactly when the answers before it ask for it, with the stored refresh token, and what is saved is the renewed pair. |
| OboPipeline.PolicyTakesSteps | internal/proxy/obo_pipeline.go:92-172 | Each later call likewise, with the caller's own token, assertion and token id, and the answer to each failure. |
| OboPipeline.OboContactIsJustified | internal/proxy/obo_pipeline.go:92-172 | A contact needs a permit on the stripped call and the token stored for the resolved caller and the route's provider. |
| SilentRefresh.RefreshesIff | internal/proxy/broker.go:329-436 | A request refreshes the session exactly when its token was accepted by the broker, the call permitted for a pipeline route, and the same context then refused as expired with a refresh token stored. |
| SilentRefresh.NoRefreshUnderStableResolve | internal/proxy/broker.go:333-337 | While one context is always resolved alike no session is ever refreshed, and an expired token is refused at once. |
| SilentRefresh.LostSessionIsUnavailable | internal/proxy/broker.go:425-436 | Every failure to establish the caller inside the pipeline is answered as service unavailable. |
| SilentRefresh.SessionCanBeLost | internal/proxy/obo_pipeline.go:177-212 | For every permitted call to a pipeline with a refresher there is a run in which the session is lost and no refresh token is stored. |
| EndToEnd.CalledBackIffSlashFree | internal/proxy/broker.go:257-269 | A listed tool is called back on its route under its own name exactly when that name has no slash. |
| EndToEnd.ListedNamesAreUnambiguous | internal/proxy/broker.go:257-269 | Slash-free tools of different routes never share a listed name. |
| EndToEnd.DiscoverThenCall | internal/proxy/broker.go:257-372 | An advertised slash-free tool is offered under its qualified name, and a forwarded call of it goes to that backend under its own name, all else unchanged. |
| EndToEnd.DiscoveryIsExact | internal/proxy/broker.go:150-193 | The response is exactly the permitted names among those listed, each judged by the policies installed when it was evaluated, once, in order of first listing. |
| EndToEnd.AnswersOverOneList | internal/policy/opa_adapter.go:182-203 | Without a reload in between these answers are those of the engine's own filter. |
| ListingUnderReloads.EngineFilters | internal/policy/opa_adapter.go:182-249 | Whatever reloads and updates fall between the evaluations of one listing, its result is that of judging each name by a list installed while that name was evaluated. |
| ListingUnderReloads.DiscoveryIsExactUnderReloads | internal/policy/opa_adapter.go:182-249 | So a discovery response is exact under every interleaving with reloads. |
| EndToEnd.ShownIffPermitted | internal/proxy/broker.go:150-373 | A listed name is shown exactly when a call of it is permitted, if the call meets the policies under which the name was judged. |
| EndToEnd.NeverInvalidParams | internal/proxy/broker.go:353-363 | With validated policies and plain prefixes the no-route answer is never given. |
| EndToEnd.EngineDecidesByValidated | internal/policy/opa_adapter.go:139-236 | In every run of the engine's goroutines over validated policies, each answer is the decision over some validated list. |
| EndToEnd.SlashFreeIsLiteral | internal/proxy/obo_pipeline.go:102-108 | Under validated policies a slash-free name is allowed exactly when the caller's entries list it literally and none denies it so. |
| EndToEnd.OboNeedsRoutableStrippedName | internal/proxy/broker.go:366-372 | On an on-behalf-of route a contact needs a stripped name that itself starts with a route prefix. |
| EndToEnd.OboToolIsOutOfReach | internal/proxy/broker.go:366-372 | A slash-free tool of such a route that is not a route prefix never reaches its backend under its listed name. |
| EndToEnd.OboToolReachableIff | internal/proxy/broker.go:366-372 | Some validated policies and some run get such a tool called exactly when its name is a route prefix. |
| RefreshTransport.RefreshTransport.RoundTrip | internal/proxy/refresh_transport.go:43-110 | What a round trip does is a complete story, and the store is afterwards as its outcome says, all other keys as they were. |
| RefreshTransport.RoundTripIsARun | internal/proxy/refresh_transport.go:43-110 | Every round trip is a run of the interleaved protocol with nobody else in it. |
| RefreshTransport.EveryRequestIsAStory | internal/proxy/refresh_transport.go:43-110 | In every run: a refresh only after a 401, with the refresh token that was read; the retry has the same body, key and headers but for the token, which is that of its own refresh; and a finished request returns the last reply or an error. |
| RefreshTransport.StoreIsReplayed | internal/proxy/refresh_transport.go:84-98 | In every run the store holds exactly what the successful writes and removals made of the first one. |
| RefreshTransport.RunKeepsRequests | internal/proxy/refresh_transport.go:43-110 | In every interleaving each request's events are exactly the history that its phase allows. |
| RefreshTransport.EveryRequestIsBounded | internal/proxy/refresh_transport.go:43-110 | One refresh and two sends at most; the retry is the same request under its own refreshed token; no other key is touched. |
| RefreshTransport.UnwrittenKeyIsKept | internal/proxy/refresh_transport.go:76-98 | Over any run a key that no action writes keeps its pair. |
| RefreshTransport.EveryStoredPairIsAccounted | internal/proxy/refresh_transport.go:84-98 | Every stored pair was initial, saved by another writer, or the provider's answer to a refresh for that key. |
| RefreshTransport.UndisturbedOutcome | internal/proxy/refresh_transport.go:64-110 | Without another writer of its key, a request leaves the refreshed pair, no pair, or what was there, as its outcome says. |
| RefreshTransport.OverlapLosesRenewedPair | internal/proxy/refresh_transport.go:86-91 | For any two requests on one key there is a run in which a failed refresh deletes the other's renewed pair. |
| RefreshTransport.DeletesOnlyStaleIff | internal/proxy/refresh_transport.go:76-91 | In every run of the requests now present, a request that holds the current pair would delete only that pair exactly when no other request on its key is yet to be answered, to read or to ask, or about to save another pair. |
| UserTokens.PipelineCarriesWhatItRead | internal/proxy/obo_pipeline.go:110-151 | A justified contact's request carries the pair that the pipeline read for exactly the user and provider attached to it. |
| UserTokens.SentTokensAreOwn | internal/proxy/refresh_transport.go:43-110 | In every run of pipeline calls, each token a backend sees was stored under that request's user and provider at some moment, or is what that request's own refresh returned. |
| UserTokens.SentTokensBelong | internal/proxy/refresh_transport.go:43-110 | So each such token was there at the start, was saved for that user and provider, or was refreshed for them: never another's. |
| SseTransport.SseBackendTransport.Forward | internal/proxy/sse_backend_transport.go:67-141 | The exchanges are those of the session protocol, and the result is what they say. |
| SseTransport.SseBackendTransport.DoPost | internal/proxy/sse_backend_transport.go:145-194 | A post's result is the interpretation of what came over the wire. |
| SseTransport.SessionsAreCurrent | internal/proxy/sse_backend_transport.go:67-141 | Each call carries the session of the initialize just before it; a second pair follows exactly a 404 under a non-empty session; credentials never change. |
| SseTransport.ForwardPosts | internal/proxy/sse_backend_transport.go:67-141 | Which posts a forward makes, each decided by the status, body and session header of the answers before. |
| SseTransport.ForwardReturns | internal/proxy/sse_backend_transport.go:145-194 | A forward returns x exactly when its last post is the call and was answered 200 or 202 with a readable body whose first message, or which itself, is x. |
| EventStream.ReadFirstMessage | internal/proxy/sse_backend_transport.go:198-224 | The loop returns what the line-by-line definition reads. |
| EventStream.ClassifyMeans | internal/proxy/sse_backend_transport.go:202-219 | A line is blank, an event or a data line by the letters it starts with, whatever carriage returns end it. |
| EventStream.TrimSpaceTakesSpace | internal/proxy/sse_backend_transport.go:208-215 | Trimming takes away the white space at both ends and nothing else. |
| EventStream.SpacesAre | internal/proxy/sse_backend_transport.go:208-215 | Which characters are white space. |
| EventStream.ScanIsFirstMessage | internal/proxy/sse_backend_transport.go:198-224 | It is the first data line that stands under a message event, and an error exactly when there is none. |
| EventStream.PrintThenRead | internal/proxy/sse_backend_transport.go:198-224 | Reading a printed list of events gives the first message's payload. |
| EventStream.LaterDataLinesAreDropped | internal/proxy/sse_backend_transport.go:213-219 | Unlike in section 9.2.6 of the WHATWG HTML standard, the data lines of one event are not joined. |
| TokenStore.EncryptedTokenStore.Save | internal/auth/registry.go:57-109 | New database and answer are those of the store's step, with each fault's error. |
| TokenStore.EncryptedTokenStore.Get | internal/auth/registry.go:113-156 | The same for Get, which changes nothing. |
| TokenStore.EncryptedTokenStore.Delete | internal/auth/registry.go:160-166 | The same for Delete. |
| TokenStore.BadgerTokenStore.Get | internal/auth/registry_badger.go:46-65 | The pair under the composite key, or not connected when there is none. |
| TokenStore.StepRefines | internal/auth/registry.go:57-166 | Each operation answers as the plain map would and keeps the database representing it. |
| TokenStore.EncryptedStoreIsAMap | internal/auth/registry.go:57-166 | Every sequence of operations, faults included, is answered as by a plain map from user and provider to pair. |
| TokenStore.FaultsAreReported | internal/auth/registry.go:57-166 | Which error each fault gives, and that it changes nothing. |
| TokenStore.OpenedIff | internal/auth/registry.go:113-156 | A stored value is read exactly through its blob, data key and ciphertext; unavailable exactly when the data key cannot be decrypted; otherwise corrupt. |
| TokenStore.StoredOnlySealed | internal/auth/registry.go:57-109 | The database depends on a pair only through its ciphertext. |
| TokenStore.StoredWithoutPlainKey | internal/auth/registry.go:84-101 | Nor does it depend on the plain data key otherwise. |
| TokenStore.KeysAreUniqueIffSeparable | internal/auth/registry_badger.go:40-42 | Composite keys tell all users and providers apart exactly when no provider name ends in a colon and a provider name. |
| TokenStore.PlainNamesAreSeparable | internal/auth/registry_badger.go:40-42 | Provider names without colons are such. |
| Base64Url.RoundTrip | internal/proxy/connect_handler.go:96-100 | Decoding undoes encoding, and the encoding holds no dot. |
| Base64Url.CharsAreTheAlphabet | internal/proxy/connect_handler.go:96-100 | The letters are those of the table of section 5 of RFC 4648, in order. |
| Base64Url.GroupIsOneNumber | internal/proxy/connect_handler.go:96-100 | A group of bytes and its letters are the same number, a short one filled up with zero bits. |
| Base64Url.GroupByGroup | internal/proxy/connect_handler.go:96-100 | Longer texts are encoded three bytes at a time. |
| Connect.VerifiesIffSigned | internal/proxy/connect_handler.go:105-135 | A state verifies exactly when it is an unexpired payload signed under the key. |
| Connect.MintedVerifies | internal/proxy/connect_handler.go:86-135 | A minted state gives back user and provider exactly until its time is over. |
| Connect.ConnectHandler.ServeConnect | internal/proxy/connect_handler.go:139-179 | Redirects with a state for this caller and provider, or 404 or 401. |
| Connect.ConnectHandler.ServeCallback | internal/proxy/connect_handler.go:183-245 | Status of each case; the pair goes under the state's user and this provider, and nothing else changes. |
| Connect.StatusIff | internal/proxy/connect_handler.go:183-245 | Each status of the callback, and exactly when it is given. |
| Connect.ConnectHandler.ConnectThenCallback | internal/proxy/connect_handler.go:139-245 | From consent to callback: in time the pair is stored for who asked, late nothing changes. |
| Connect.StoresOnlyForSignedState | internal/proxy/connect_handler.go:183-245 | A pair is stored exactly for a known provider, a signed unexpired state naming it, an exchanged code and a working store. |
| CompactJwt.MintedReadsBack | internal/auth/assertion/minter.go:79-126 | A minted token has three parts, a signature over the first two, and gives back its claims, user and id. |
| CompactJwt.MintedSays | internal/auth/assertion/minter.go:79-126 | Every claim and header field of a minted token, by its name. |
| CompactJwt.ReadsIff | internal/proxy/obo_pipeline.go:259-275 | A user id, or a token id, is read from exactly the tokens of three parts whose payload names one. |
| CompactJwt.LifetimeIsTTLIffWholeSeconds | internal/auth/assertion/minter.go:79-126 | Expiry minus issue time is the configured time exactly when that is whole seconds. |

## Left out

- Patterns with `**`, `[...]`, `{...}` or escapes: Go's `path.Match` and OPA's `glob.match` differ there, so `Glob` has literals, `?` and `*`.
- JSON and YAML text and case-insensitive field names: parsed values are modelled, with "params" a map under exact keys. Number formats, key order and repeated keys are not, nor is the difference between an absent and an empty list. Whether a text is a URL is a function.
- Cryptography and AWS: hashes, signatures, encryption and key services are functions with the inverse laws stated as preconditions.
- OIDC, SAML and the identity cache: what `Resolve` answers is arbitrary at every call.
- The HTTP server, the stdio loop, the file watcher, logging, health, shutdown and wiring.
- `UpdateRoutes` as a concurrent writer: it takes no lock; routes are fixed for a run.
- `DataSnapshot` after a file is deleted: old documents stay in the loader's data, and only rejected reloads are claimed to leave it unchanged.
- The error texts of the broker's responses beyond the code, except those of the dry run and of `deny_reason`.
- Changes of the Rego file itself between reloads: the rules are those of `policies/abaris.rego`, and a bundle loads or does not.
- The order in which `append` may write into the spare capacity of an `allowed_tools` slice inside `validatePolicyRoutes`: lists are values here.
- Reading bodies: a request body that cannot be read, and the body of a 401 that is returned after it was closed.
- The DynamoDB backend and the OAuth2 client behind the refresher.
- The line-length limit of the stream reader and read errors in the middle of a stream.
- Broker.Broker.HandleStandard: a forward over HTTP is one event with one answer; the plain HTTP transport's status handling is not part of this model.
- OboPipeline.OboPipeline.Execute: the contact is one event; the refresh and retry inside it are modelled in `RefreshTransport`, and `UserTokens` is about both together.
- ConfigLoader.Loader.ReloadPolicies: reloads are one at a time, as the watcher's single loop runs them.
- TokenStore.EncryptedTokenStore.Save: a commit that fails is taken to have stored nothing.
- HotReload.StepIsConsistent: the two fields and the query evaluation are modelled; the cost and cancellation of an evaluation are not.
