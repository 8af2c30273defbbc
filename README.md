# HDT agentic interop: a Dafny model of the walk-data core

This project models the core of the Human Digital Twin (HDT) interoperability services.
These services hand a user's walk, trivia and SugarVita data to AI agents over MCP tools and a REST API.

- **The walk-data governor.** There are three generations: `src/hdt_mcp/governor.py`, `hdt_mcp/mcp_governor.py` and `HDT_MCP/mcp_governor.py`. A walk request reads the local vault first (modes auto and vault). It then tries the live sources in preference order and stops at the first success. A live success is written through to the vault. After a total live failure it reads the vault once more (mode auto only). Finally the envelope is shaped for the caller's purpose lane: analytics, coaching or modeling. The governor also fetches trivia and SugarVita data and computes the modeling-lane walk features.
- **The Sources MCP server.** It resolves connectors from the merged user configuration, cleans bearer tokens, windows and pages records by date, and gives its typed errors a fixed precedence.
- **The policy engine and its runtime holder.** Rules are merged in the order defaults < client < tool. Redaction covers dotted paths and fans out over lists. The policy is cached against the file's signature. A payload is denied, or redacted on a deep copy.
- **The tool instrumentation and telemetry.** Correlation ids, purpose gates and scrubbed argument logs. Secret and identifier redaction, the subject hash, and bounded newest-first telemetry queries.
- **The two vaults.** `hdt_mcp/vault_store.py` has a source-aware upsert, a deduplicating ranged read with paging, and retention. `HDT_MCP/vault.py` has a replace-on-write table whose batch is committed only when no record of it raised.
- **The domain service.** A read-through and write-through walk stream with statistics.
- **The HTTP helpers.** URL joining, a GET with retries and a TTL cache, and the compatibility helpers of `HDT_MCP/server.py`.
- **The REST-side helpers.** Pagination and Link headers, walk-record validation, the batch fetcher's window, sort and slice, the merge of the public and secret user files, API-key authentication with permission filtering, and the walk adapters' envelope normalisation.
- **Two clients of the data.** The rule-of-thumb behaviour coach and the diabetes storage runner.

Python values are modelled as a JSON datatype in which a dict keeps its insertion order and a read takes the last binding.
External effects are parameters of the model:

- an MCP tool's answer;
- a vault read or write;
- an HTTP reply;
- the clock;
- the file contents;
- SHA-256.

Each call an operation makes is returned as a trace. This makes statements such as "no live source was called" part of the contracts.
An operation that the source writes as a loop, or as a sequence of state changes, is a method. Each such method is proved equal to a specification function. The properties are lemmas about those functions.
Where the same function exists in an older copy, the copy is modelled once, and the rows below cite the file that was followed.

## Model

| member | source | states |
|---|---|---|
| Envelopes.TypedError | HDT_MCP/core/errors.py:8-18 | the envelope always has "error"; without an "error" among the extra keys its code and message are the given ones and its details are present exactly when truthy; every other top-level key is the extra key's value |
| Governor.ShapeForPurpose | src/hdt_mcp/governor.py:14-57 | error and non-dict payloads come back unchanged; a successful payload in the modeling lane becomes the `not_supported` refusal |
| Governor.ModelingRefusal | src/hdt_mcp/governor.py:36-43 | the refusal has code `not_supported`, purpose "modeling", the payload's user_id and no records |
| Governor.ShapeKeepsTrace | src/hdt_mcp/governor.py:14-57 | outside modeling a success stays a success, keeps user_id, selected_source, attempts and records, and is tagged with the normalised purpose |
| Governor.ShapeCoachingProvenance | src/hdt_mcp/governor.py:31-34 | the coaching lane keeps the provenance unchanged |
| Governor.ShapeMinimisesProvenance | src/hdt_mcp/governor.py:45-57 | other lanes remove player_id, email, token, account_user_id and external_user_id from a dict provenance and keep every other key |
| Governor.MinimisedProvenance | src/hdt_mcp/governor.py:48-54 | the result is the provenance without the identifier keys when it is a dict, the provenance itself otherwise |
| Governor.WithRecords | src/hdt_mcp/governor.py:20-34 | the shaped success has no error, carries records, provenance, purpose, user_id, kind, selected_source and attempts, and has no other key |
| Governor.AsJson | src/hdt_mcp/governor.py:60-69 | text that starts with `{` or `[` after stripping is decoded when it parses; every other value comes back unchanged |
| Governor.LiveOrder | src/hdt_mcp/governor.py:241 | gamebus is tried first exactly when the lowered preference is "gamebus"; both sources are tried |
| Governor.LiveTryFirstSuccess | src/hdt_mcp/governor.py:243-267 | the selected source is the first one whose payload is a dict without "error"; every earlier one failed and was appended in call order; with no success every source failed in order |
| Governor.LiveFromFirstSuccess | src/hdt_mcp/governor.py:243-267 | the same stop-at-first-success statement for the loop started at any position |
| Governor.BadRequest | src/hdt_mcp/governor.py:197-206 | the error has code `bad_request` and carries the user id, the raw `prefer_data` and the normalised purpose at the top level |
| Governor.VaultEmpty | src/hdt_mcp/governor.py:228-237 | the error has code `vault_empty`; its details are the attempts so far, absent when there are none |
| Governor.AllSourcesFailed | src/hdt_mcp/governor.py:270-278 | the error has code `all_sources_failed` and the attempts as details |
| Governor.FetchWalk | src/hdt_mcp/governor.py:170-298 | the result, the attempts trace and the tool calls equal the specification of `fetch_walk` |
| Governor.FetchWalkUnshaped | src/hdt_mcp/governor.py:192-296 | the unshaped result, attempts and calls equal the specification before shaping |
| Governor.LiveSources | src/hdt_mcp/governor.py:239-296 | the live phase and the auto fallback produce what the specification's live phase produces |
| Governor.LiveLoop | src/hdt_mcp/governor.py:243-267 | the loop's outcome, attempts and calls are those of trying the sources in order until the first success |
| Governor.WriteThrough | src/hdt_mcp/governor.py:248-263 | the success branch appends the write-through attempt and returns the stamped payload |
| Governor.FallbackOrFail | src/hdt_mcp/governor.py:270-296 | under auto the fallback vault read replaces the error on a hit; otherwise the result is `all_sources_failed` |
| Governor.VaultTryRead | src/hdt_mcp/governor.py:72-109 | a hit (ok attempt) happens exactly when the vault is enabled and returns a dict with truthy records; a disabled vault is not read and records `vault_disabled`; a miss records `vault_empty`, an exception `vault_read_failed` |
| Governor.VaultTryWrite | src/hdt_mcp/governor.py:112-127 | a disabled vault is neither written nor mentioned; an enabled one writes the records (or an empty list) once and appends a `vault_write_failed` attempt only when the write raises |
| WalkProperties.BadRequestTouchesNothing | src/hdt_mcp/governor.py:197-206 | an unknown `prefer_data` gives `bad_request` with no vault read and no source call |
| WalkProperties.VaultHitServesVault | src/hdt_mcp/governor.py:208-225 | under auto and vault a vault hit is served with selected_source "vault" and the single ok attempt, with no source call |
| WalkProperties.VaultOnlyMissFailsClosed | src/hdt_mcp/governor.py:228-237 | `prefer_data=vault` with a miss gives `vault_empty` whose details are the one vault attempt, and no source is called |
| WalkProperties.WalkReachesLivePhase | src/hdt_mcp/governor.py:208-241 | the live phase runs exactly under live, and under auto after a vault miss |
| WalkProperties.LiveSuccessSelectsFirst | src/hdt_mcp/governor.py:243-263 | the first non-error source is selected; attempts are the earlier failures, its ok entry, then the write-through entry |
| WalkProperties.LiveModeAllFailed | src/hdt_mcp/governor.py:270-278 | under live with every source failing the result is `all_sources_failed`, one failure per source in call order, and the vault is not read again |
| WalkProperties.AutoFallbackAfterAllFailed | src/hdt_mcp/governor.py:280-296 | under auto one more `vault_fallback` read is made after total failure; a hit replaces the error |
| WalkProperties.UnchangedVaultNeverRescues | src/hdt_mcp/governor.py:280-296 | against a vault that answers both reads alike the fallback cannot rescue the request |
| WalkProperties.WriteFailureKeepsSuccess | src/hdt_mcp/governor.py:112-127 | a failing write-through only appends its attempt; the success stays a success; a disabled vault is not mentioned |
| StepMath.MeanBetweenExtremes | src/hdt_mcp/governor.py:145-151 | the truncated mean of a non-empty list lies between its minimum and maximum |
| StepMath.TruncDivOdd | src/hdt_mcp/governor.py:149 | `int(total / n)` truncates toward zero, unlike Dafny's division, for a negative total |
| StepMath.SumBetween | src/hdt_mcp/governor.py:145-149 | elements between lo and hi put the sum between `n*lo` and `n*hi` |
| GovernorTools.UsableStepsFromRecords | src/hdt_mcp/governor.py:130-141 | a step count is used exactly when some record carries it as an int-coercible "steps" |
| GovernorTools.UsableStepsEmpty | src/hdt_mcp/governor.py:130-141 | no step count is usable exactly when no record has one |
| GovernorTools.FeaturesWithoutSteps | src/hdt_mcp/governor.py:141-143 | without usable steps the features are all zero and have no extremes |
| GovernorTools.FeaturesSummarise | src/hdt_mcp/governor.py:141-152 | the features count the usable days and sum their steps; the average is `int(total / days)` (the quotient truncated toward zero) and lies between min and max |
| GovernorTools.CollectSteps | src/hdt_mcp/governor.py:132-138 | the loop keeps every coercible step count in record order |
| GovernorTools.WalkFeaturesFromRecords | src/hdt_mcp/governor.py:130-152 | the method returns the features of the records, or the iteration error |
| GovernorTools.WalkFeatures | src/hdt_mcp/governor.py:473-525 | the result and calls equal the specification |
| GovernorTools.FeaturesRequireModeling | src/hdt_mcp/governor.py:489-506 | any other purpose is refused with `bad_request` before `fetch_walk` runs; modeling makes exactly the calls of a coaching `fetch_walk` |
| GovernorTools.FeaturesEnvelopeFields | src/hdt_mcp/governor.py:513-524 | the modeling envelope names kind and lane, holds the features, has no records, and its provenance names only the selected source |
| GovernorTools.FeaturesWithoutRecords | src/hdt_mcp/governor.py:508-524 | a successful features envelope never carries records |
| GovernorTools.FeaturesPassErrors | src/hdt_mcp/governor.py:508-511 | an error from the coaching `fetch_walk` is returned as it is |
| GovernorTools.GamebusFetchServes | src/hdt_mcp/governor.py:351-357 | a dict answer without "error" is served with selected_source "gamebus" and the one ok attempt |
| GovernorTools.GamebusErrorFields | src/hdt_mcp/governor.py:358-367 | the error envelope carries the answer's code and message (`unknown` when absent), the attempts as details and names gamebus |
| GovernorTools.GamebusFetchFails | src/hdt_mcp/governor.py:358-369 | every other answer gives an error envelope in every lane |
| Envelopes.ErrorBody | HDT_MCP/core/errors.py:13 | the error body holds the given code and message |
| Governor.AttemptJson | src/hdt_mcp/governor.py:250-267 | an attempt entry names its source and whether it succeeded, and carries an error exactly when it failed |
| Governor.AttemptsJson | src/hdt_mcp/governor.py:261 | the attempts list has one entry per attempt, in order |
| Governor.ShapedBase | src/hdt_mcp/governor.py:21-27 | the shaped envelope starts from the payload's user_id, kind, selected_source and attempts (default empty) and the normalised purpose, and has exactly those five keys |
| Governor.LiveFrom | src/hdt_mcp/governor.py:243-267 | a success is reached before the sources run out and is a dict without "error"; otherwise every remaining source failed |
| Governor.LiveTry | src/hdt_mcp/governor.py:243-267 | a success comes from one of the sources and is a dict without "error"; otherwise every source failed |
| Governor.Stamp | src/hdt_mcp/governor.py:260-261 | the stamped payload names its source, carries the attempts trace and is an error exactly when the payload was |
| Governor.FirstRead | src/hdt_mcp/governor.py:208-225 | the vault is read first exactly under the auto and vault modes |
| GovernorTools.StatsJsonFields | src/hdt_mcp/governor.py:146-152 | the features carry days, total, average, minimum and maximum as computed |
| GovernorTools.FeaturesBadPurpose | src/hdt_mcp/governor.py:491-494 | the refusal has code `bad_request` and echoes the purpose and the user id |
| LegacyGovernor.DecodeAgrees | hdt_mcp/mcp_governor.py:15-21 | the unguarded decoder agrees with the guarded one wherever it does not raise, and raises exactly on text that looks like JSON and does not decode |
| LegacyGovernor.LegacyLiveAgrees | hdt_mcp/mcp_governor.py:163-189 | with decodable answers the older live loop has the outcome of the current one; otherwise the exception comes from the first undecodable answer |
| LegacyGovernor.LegacyBadRequest | hdt_mcp/mcp_governor.py:122-130 | the error is `bad_request`, echoes `prefer_data` and has no purpose |
| LegacyGovernor.LegacyVaultEmpty | hdt_mcp/mcp_governor.py:152-159 | the error is `vault_empty` with the attempts as details, absent when there are none |
| LegacyGovernor.LegacyFetchWalk | hdt_mcp/mcp_governor.py:96-220 | the result, attempts and calls equal the specification |
| LegacyGovernor.LegacyLiveLoop | hdt_mcp/mcp_governor.py:165-189 | each answer is decoded, where decoding may raise; failures are appended in call order until the first success |
| LegacyGovernor.LegacyAgreesWithCurrent | hdt_mcp/mcp_governor.py:96-220 | with decodable answers the older governor does what the current one does before shaping, except for its own two error envelopes |
| LegacyGovernor.LegacyBadRequestTouchesNothing | hdt_mcp/mcp_governor.py:122-130 | an unknown `prefer_data` is refused before any vault read or source call |
| LegacyGovernor.LegacyVaultOnlyMiss | hdt_mcp/mcp_governor.py:152-159 | a vault-only miss returns `vault_empty` whose details are exactly the one vault attempt, and calls no source |
| LegacyGovernor.LegacyRaisesOnlyOnUndecodable | hdt_mcp/mcp_governor.py:165-168 | the request raises only when some source answers text that does not decode |
| LegacyGovernor.LegacyGamebusFetchWraps | hdt_mcp/mcp_governor.py:268-271 | a dict is returned as it is, error or not; any other value is wrapped as `unknown` with its text as message |
| StatusGovernor.CandidatesExact | HDT_MCP/mcp_governor.py:53-57 | the candidates are exactly the sources whose status has truthy configured and has_token, gamebus before googlefit; the read raises exactly on a true non-dict entry |
| StatusGovernor.Candidates | HDT_MCP/mcp_governor.py:53-57 | the loop returns the candidates of the specification |
| StatusGovernor.Drop | HDT_MCP/mcp_governor.py:66 | the result keeps, in order, exactly the entries different from the dropped one |
| StatusGovernor.DropDistinct | HDT_MCP/mcp_governor.py:66 | dropping from distinct entries keeps them distinct and shortens the list by one exactly when the entry was present |
| StatusGovernor.PreferOrderPermutes | HDT_MCP/mcp_governor.py:65-68 | the try order holds exactly the candidates, each once, and starts with the preferred source exactly when it is a candidate |
| StatusGovernor.StatusFetchWalk | HDT_MCP/mcp_governor.py:33-93 | the status-driven `fetch_walk`: no candidate gives `no_usable_sources`, otherwise the live loop over the try order |
| StatusGovernor.StatusLiveLoop | HDT_MCP/mcp_governor.py:70-93 | the loop's result and calls over the try order, stopping at the first success |
| StatusGovernor.NoCandidatesNoCall | HDT_MCP/mcp_governor.py:59-63 | without a usable source the request fails with `no_usable_sources` and calls no walk tool |
| StatusGovernor.StatusFirstSuccess | HDT_MCP/mcp_governor.py:76-80 | the first source in try order that answers without error is selected; its attempts are the earlier failures then one ok entry |
| StatusGovernor.StatusAllFailed | HDT_MCP/mcp_governor.py:82-93 | on total failure the details hold one failed entry per candidate in try order; a non-dict payload is recorded as `unknown` |
| StatusLink.ConnStateUsable | src/hdt_sources_mcp/server.py:197-205 | a status entry built from a connector is usable exactly when the connector exists and has a real token |
| StatusLink.StatusFeedsCandidates | HDT_MCP/mcp_governor.py:50-57 | the candidates read from a status answer are gamebus, then googlefit, each when its walk connector has a token, and the read never raises |
| StatusLink.UnknownUserHasNoCandidates | HDT_MCP/mcp_governor.py:59-63 | for an unknown user the status answer has no "walk", so the governor answers `no_usable_sources` without a fetch |
| LegacyGovernor.LegacyLiveFrom | hdt_mcp/mcp_governor.py:165-189 | a decoding error or a success is reached before the sources run out; otherwise every remaining source failed |
| LegacyGovernor.LegacyLiveSources | hdt_mcp/mcp_governor.py:161-220 | the live phase and the auto fallback of the older governor produce what its specification produces |
| StatusGovernor.Named | HDT_MCP/mcp_governor.py:65 | the source named by the lowered preference, when there is one |
| StatusGovernor.NoUsableSources | HDT_MCP/mcp_governor.py:59-63 | the error has code `no_usable_sources` |
| SourcesServer.StripBearerTrims | src/hdt_sources_mcp/server.py:36-42 | an absent or empty token gives None, and a token that is kept has no surrounding whitespace |
| SourcesServer.StripBearerRoundTrip | src/hdt_sources_mcp/server.py:39-41 | a trimmed token behind a "bearer " prefix in any letter case comes back exactly |
| SourcesServer.Aliases | src/hdt_sources_mcp/server.py:99-104 | the normalised application name is always among its aliases |
| SourcesServer.AliasesUnifyGoogleFit | src/hdt_sources_mcp/server.py:101-102 | every spelling of Google Fit stands for the same three names |
| SourcesServer.FindPrimaryFirst | src/hdt_sources_mcp/server.py:94-119 | the connector found is built from the first matching entry (dict, alias match, player id not None), with that entry's player id as text and its cleaned token; with no match and no unreadable entry there is none |
| SourcesServer.GoogleFitSpellingsAgree | src/hdt_sources_mcp/server.py:99-104 | the three spellings of Google Fit find the same connector |
| SourcesServer.DiabetesConnector | src/hdt_sources_mcp/server.py:130-147 | the diabetes connector when there is one, else a connector with the walk connector's application and player id; none exactly when neither exists |
| SourcesServer.GetUser | src/hdt_sources_mcp/server.py:122-127 | a user is found exactly when present and non-empty; otherwise the error is `unknown_user` |
| SourcesServer.UserError | HDT_SOURCES_MCP/server.py:26-32 | the typed error carries the code and the user id beside "error" |
| SourcesServer.ConnState | src/hdt_sources_mcp/server.py:197-205 | `configured` tells whether a connector exists; `has_token` is present only then and tells whether its token is real |
| SourcesServer.GamebusDateIsoIdempotent | src/hdt_sources_mcp/server.py:76-85 | a bare date gains the bounding time of day; converting twice is converting once |
| SourcesServer.Page | src/hdt_sources_mcp/server.py:69-73 | a page never holds more than the (clamped) limit |
| SourcesServer.FilterAndPageSound | src/hdt_sources_mcp/server.py:54-73 | the output is a subsequence of the input, at most `limit` long, and every record in it has a date inside every given bound |
| SourcesServer.FilterAndPageComplete | src/hdt_sources_mcp/server.py:61-71 | without paging every record inside the window is returned; without bounds the input comes back whole, dateless records included |
| SourcesServer.NegativePagingClamps | src/hdt_sources_mcp/server.py:69-73 | a negative offset reads as 0 and a negative limit returns nothing |
| SourcesServer.EndBoundDayVersusDatetime | HDT_SOURCES_MCP/server.py:60-67 | the older server compares datetimes, so a record later on the end day is dropped there but kept by the current server |
| SourcesServer.WalkPayload | src/hdt_sources_mcp/server.py:247-256 | the walk answer carries the paged records and the application label and no error |
| SourcesServer.WalkFetchPrecedence | src/hdt_sources_mcp/server.py:218-256 | errors come in the order `unknown_user`, `not_connected`, `missing_token`, `upstream_error`; the fetcher is called only with a connector holding a token |
| SourcesServer.WalkWindowReachesFetcher | HDT_SOURCES_MCP/server.py:206-211 | only the current server hands the request's window to the walk fetcher |
| SourcesServer.DiabetesPayload | src/hdt_sources_mcp/server.py:331-341 | the trivia or sugarvita answer carries data and latest_activity and no error |
| SourcesServer.DiabetesUpstreamError | src/hdt_sources_mcp/server.py:322-329 | once the fetcher is called with the bounds widened to whole days, the answer is `upstream_error` exactly when data and latest are both None |
| SourcesServer.FirstMatch | src/hdt_sources_mcp/server.py:106-118 | the search stops at the first entry that matches an alias, or at the first entry that raises before one matches; no earlier entry matches or raises |
| SourcesServer.StatusJson | src/hdt_sources_mcp/server.py:197-213 | the status names the gamebus and googlefit walk connectors and the gamebus diabetes connector, and is never an error |
| SourcesServer.Keep | src/hdt_sources_mcp/server.py:63-67 | exactly the records within the bound are kept, each one of the records |
| SourcesServer.PySlice | src/hdt_sources_mcp/server.py:69-73 | a slice is never longer than the sequence nor than the distance between its bounds |
| PolicyRules.SetDefault | HDT_MCP/policy/engine.py:76-77 | the key reads its old value when it had one, else the default; every other key is unchanged |
| PolicyRules.PairsOf | HDT_MCP/policy/engine.py:74-75 | a list override is accepted exactly when every element is a pair (a two-element list with a hashable first element, or a two-character text) |
| PolicyRules.LastPairWins | HDT_MCP/policy/engine.py:74-75 | the last string-keyed pair of a list override is what its key reads |
| PolicyRules.MergeRule | HDT_MCP/policy/engine.py:72-78 | merging succeeds exactly when `dict.update` accepts the override (a false value, a dict, or a list of pairs); then every key reads the override's value, else the base's, else the built-in one, and "allow" and "redact" are always present |
| PolicyRules.MergeLayersPrecedence | HDT_MCP/policy/engine.py:81-87 | defaults < client < tool: each key takes the tool layer's value, else the client's, else the defaults', else the built-in; merging fails exactly when `dict.update` refuses some layer |
| PolicyRules.ClientOnlyWhenGiven | HDT_MCP/policy/engine.py:84-85 | with no client id, or an empty one, no client layer is read |
| PolicyRules.RedactItems | HDT_MCP/policy_engine.py:48-52 | fanning a path over a list keeps the list's length |
| PolicyRules.RedactIdempotent | HDT_MCP/policy/engine.py:90-105 | redacting a path a second time changes nothing |
| PolicyRules.RedactKeepsFixed | HDT_MCP/policy/engine.py:90-105 | redacting one path never un-redacts another path already redacted |
| PolicyRules.RedactLastKey | HDT_MCP/policy/engine.py:101-103 | a one-key path whose key is present reads the token afterwards and counts exactly 1 |
| PolicyRules.RedactOtherKeys | HDT_MCP/policy/engine.py:98-105 | keys other than the path's first key are left as they were |
| PolicyRules.RedactItemsPointwise | HDT_MCP/policy/engine.py:95-96 | each element of a list is redacted on its own, as if alone |
| PolicyRules.RedactFansOut | HDT_MCP/policy/engine.py:95-96 | a one-key path over a list of dicts holding the key redacts it in every element and counts one per element |
| PolicyRules.RedactAllKeepsFixed | HDT_MCP/policy/engine.py:108-114 | a redaction list keeps any already-redacted path redacted |
| PolicyRules.RedactAllFixes | HDT_MCP/policy/engine.py:108-114 | after redaction every listed path is redacted |
| PolicyRules.AllFixedUnchanged | HDT_MCP/policy/engine.py:108-114 | a document already redacted along every listed path is left unchanged |
| PolicyRules.RedactAllIdempotent | HDT_MCP/policy/engine.py:108-114 | applying the same redaction list twice gives the document of applying it once |
| PolicyRules.PathItems | HDT_MCP/policy/engine.py:110 | iterating `paths or []` fails exactly on a true bool or number; a false value gives no items, a list its own items |
| PolicyRules.EnginePaths | HDT_MCP/policy/engine.py:110-113 | every non-empty string entry is split on "." and kept; no path is empty and no more paths than entries come out |
| PolicyRules.RuntimePaths | HDT_MCP/policy_engine.py:37-39 | succeeds exactly when every entry is a string, then gives each entry split on "." in order |
| PolicyStore.Load | HDT_MCP/policy_runtime.py:77-82 | only the runtime loader raises, on an unparsable file; its successful load is a true value or {} |
| PolicyStore.PolicyStep | HDT_MCP/policy/engine.py:52-69 | an override is served as is; a missing file serves and caches {}; a fresh cache is served without reading; a stale one is reloaded and stored with the new signature, failing exactly when the load fails |
| PolicyStore.OverrideIgnoresFile | HDT_MCP/policy/engine.py:54-55 | with an override set, the file's state makes no difference and the override is served |
| PolicyStore.UnreadableServesEmpty | HDT_MCP/policy/engine.py:41-62 | a missing file, or a stale cache whose file is gone or (in the engine) unreadable, serves the empty policy |
| PolicyStore.SecondReadStable | HDT_MCP/policy/engine.py:64-69 | a second read of an unchanged file serves the same policy and leaves the cache as the first read left it |
| PolicyStore.Denied | HDT_MCP/policy/engine.py:124-126 | the denial is a `denied_by_policy` error naming purpose and tool |
| PolicyStore.StringPrefixAll | HDT_MCP/policy_engine.py:37-39 | when every entry is a string, the paths redacted before a failure are all of them |
| PolicyStore.ApplyRule | HDT_MCP/policy/engine.py:122-131 | a denial answers `denied_by_policy`, records 0 redactions and leaves the payload alone; an allowance answers the redacted payload itself; allowed exactly when the rule's "allow" is truthy |
| PolicyStore.ApplyRuleIdempotent | HDT_MCP/policy/engine.py:128-131 | applying the same rule to an already-processed payload changes nothing more |
| PolicyStore.Decide | HDT_MCP/policy/engine.py:117-131 | a rule that cannot be resolved raises and leaves the payload alone; otherwise the outcome is the resolved rule's application |
| PolicyStore.EvaluateOf | HDT_MCP/policy_runtime.py:113-122 | a successful evaluation is a dict whose "allow" is a bool |
| PolicyStore.PolicyHolder.constructor | HDT_MCP/policy_runtime.py:44-63 | a new holder has no cache, no signature, no override and the default last-meta record |
| PolicyStore.PolicyHolder.SetOverride | HDT_MCP/policy_runtime.py:66-70 | sets the override and nothing else |
| PolicyStore.PolicyHolder.ResetCache | HDT_MCP/policy/engine.py:30-34 | clears cache and signature and nothing else |
| PolicyStore.PolicyHolder.Policy | HDT_MCP/policy_runtime.py:84-100 | serves what one policy step serves and stores its cache and signature; a failing load changes nothing |
| PolicyStore.PolicyHolder.Apply | HDT_MCP/policy_runtime.py:128-144 | the cache and signature are those of the policy read, and the answer, the payload left in place and the last-meta record are those of the decision on the served policy; a failing policy read leaves the payload, the cache, the signature and the last-meta record alone |
| PolicyStore.PolicyHolder.ApplySafe | HDT_MCP/policy_runtime.py:146-150 | the caller's payload is never changed; the cache, signature, answer and last-meta record are those of the decision on a copy; a failing policy read changes none of them |
| PolicyStore.PolicyHolder.ApplyMetrics | HDT_MCP/policy/engine.py:140-146 | leaves the caller's payload alone; the cache, signature and last-meta record are those of the safe application, and the answer is its answer with the redaction count it recorded; a failing policy read changes none of them |
| PolicyStore.PolicyHolder.Evaluate | HDT_MCP/policy_runtime.py:113-122 | answers the evaluation of the served policy and leaves override and last-meta alone |
| PolicyRules.WithBuiltIns | HDT_MCP/policy/engine.py:76-77 | a key the rule sets keeps its value; "allow" and "redact" otherwise take their built-in values |
| PolicyRules.RedactItemsIdempotent | HDT_MCP/policy/engine.py:90-106 | redacting a list twice gives the same list as redacting it once |
| PolicyRules.RedactItemsKeepsFixed | HDT_MCP/policy/engine.py:90-106 | redacting a list along one path keeps any other path's redaction in place |
| LegacyServer.FallbackRedact | HDT_MCP/server.py:127-148 | the fallback redaction fails exactly when the path list cannot be iterated |
| LegacyServer.FallbackAgreesWithEngine | HDT_MCP/server.py:123-148 | the fallback redacts the same document and counts the same redactions as the policy engine's redaction |
| LegacyServer.FallbackIdempotent | HDT_MCP/server.py:127-148 | redacting the redacted document again with the same paths changes nothing |
| LegacyServer.Spread | HDT_MCP/server.py:181 | `{**eff, **x}` succeeds exactly on two dicts and every key reads x's value, else eff's |
| LegacyServer.Layered | HDT_MCP/server.py:179-186 | the layering succeeds exactly when every entry read is a dict; each key reads the tool entry's value, else the client's, else the defaults' |
| LegacyServer.LegacyEntries | HDT_MCP/server.py:179-183 | a client entry is read exactly for a non-empty client id, a tool entry exactly for a non-empty tool |
| LegacyServer.LayeredAllow | HDT_MCP/server.py:185-187 | "allow" after layering is truthy exactly when the tool's, else the client's, else the defaults' "allow" is, and true when none sets it |
| LegacyServer.LayeredRedact | HDT_MCP/server.py:185-187 | "redact" after layering is the tool's, else the client's, else the defaults' "redact", and [] when none sets it |
| LegacyServer.EvaluationJson | HDT_MCP/server.py:187 | the answer carries the purpose, the bool allow and the redact value |
| LegacyServer.LegacyEvaluate | HDT_MCP/server.py:166-187 | a successful evaluation carries the purpose, an "allow" that is the bool of the precedence tool, client, defaults, and a "redact" that is the tool's, else the client's, else the defaults' list, else [] |
| LegacyServer.StepsTotal | HDT_MCP/server.py:290 | the sum succeeds exactly when every record's steps coerce to an int; no records sum to 0 |
| LegacyServer.StepsTotalAppend | HDT_MCP/server.py:290 | the total of two runs of records is the sum of their totals |
| LegacyServer.WalkStreamPayload | HDT_MCP/server.py:268-303 | without a view the payload is empty from source "none" with zero stats; a view without stats gets its record count and step total with average 0; a view with stats always builds |
| LegacyServer.BadPrefer | HDT_MCP/server.py:249-250 | the refusal is a `bad_request` naming the preference |
| LegacyServer.HdtWalkStream | HDT_MCP/server.py:234-304 | an unknown preference is refused without touching the policy holder; otherwise the domain is asked to prefer the vault exactly for "auto" and "vault", and the payload goes through the analytics policy of tool `hdt.walk.stream@v1` on a copy: the answer, cache, signature and last-meta record are those of that decision, and a failing view or policy read leaves the holder as it was |
| Tooling.SanitizeLookup | src/hdt_common/tooling.py:22-27 | a key that was not passed reads nothing; a secret key (by its lower-cased name) reads the token; every other key reads its own value |
| Tooling.SanitizeIdempotent | src/hdt_common/tooling.py:22-27 | sanitising the sanitised arguments changes nothing more |
| Tooling.AttachCorrIdFacts | src/hdt_common/tooling.py:196-197 | `setdefault` keeps an existing corr_id, adds the call's one to a dict without it, and leaves every other key and the payload's kind alone |
| Tooling.PutIf | src/hdt_common/tooling.py:191-192 | the key reads the new value when there is one, else its old value; other keys are unchanged |
| Tooling.LogArgsLookup | src/hdt_common/tooling.py:140-192 | the logged arguments read back the sanitised arguments, the purpose, the policy metadata and the error as they were put |
| Tooling.GateFacts | src/hdt_common/tooling.py:144-172 | a call is refused exactly when a policy is set and the normalised purpose is not a lane; the probe raises, denies or lets the call through exactly as its "error" says |
| Tooling.WrappedParts | src/hdt_common/tooling.py:128-198 | a wrapped call runs under the settled correlation id, calls the id hooks then the gate's hooks, and an answered call is logged and gets its corr_id |
| Tooling.WrappedRefused | src/hdt_common/tooling.py:149-160 | an out-of-lane purpose answers the `bad_request` envelope with the corr_id attached, calls no hook past the id, and is logged as not ok |
| Tooling.WrappedRaised | src/hdt_common/tooling.py:163-164 | a probe whose "error" is not a dict raises out of the wrapper after the probe call, and nothing is logged |
| Tooling.WrappedDenied | src/hdt_common/tooling.py:163-172 | a denying probe is the answer (corr_id attached), after the probe and the metadata hook only |
| Tooling.WrappedProceeds | src/hdt_common/tooling.py:174-198 | a call past the gate answers the completed tool result with the corr_id attached and is logged ok exactly when it has no "error" |
| Tooling.ProceedCalls | src/hdt_common/tooling.py:163-189 | the hooks of a call past the gate are the probe, then the tool and the redaction hooks |
| Tooling.IdsOnlyNew | src/hdt_common/tooling.py:129-132 | settling the correlation id calls no hook but `new_request_id` |
| Tooling.DeniedCode | src/hdt_common/tooling.py:164 | a denying probe is an error envelope with code `denied_by_policy` |
| Tooling.LogOfArgs | src/hdt_common/tooling.py:145-192 | the logged arguments gate by gate: always the sanitised arguments; past the gate the purpose and the error of an error answer; a refusal or denial the purpose and the error |
| Tooling.CallsAfterFacts | src/hdt_common/tooling.py:144-189 | never a second new id; nothing after a refusal; the tool exactly past the gate; the redaction hook exactly past the gate on a dict answer without "error" under a purpose |
| Tooling.AttachKeepsError | src/hdt_common/tooling.py:196-197 | attaching the corr_id leaves the "error" entry and the error status as they were |
| Tooling.AnswerOk | src/hdt_common/tooling.py:183-186 | only a raising probe makes the answer a failure; an answered call is logged ok exactly when it has no "error" |
| Tooling.BadPurposeRefused | src/hdt_common/tooling.py:149-160 | an out-of-lane purpose answers `bad_request` with the sorted lanes in the message, before the tool or any policy hook runs, and is logged as not ok |
| Tooling.DenyFast | src/hdt_common/tooling.py:162-172 | a denying probe is answered as it is: the tool and the redaction hook never run and the call is logged as not ok |
| Tooling.ToolAndRedactionCalled | src/hdt_common/tooling.py:174-179 | the tool runs exactly when no policy is set or the purpose is a lane and the probe neither denies nor raises; the redaction hook runs exactly when, besides, the tool answered a dict without "error" |
| Tooling.ToolExceptionIsInternal | src/hdt_common/tooling.py:181-183 | whenever the tool runs and raises, the caller gets an `internal` error carrying the message and the call is logged as not ok |
| Tooling.OkIffNoError | src/hdt_common/tooling.py:185-194 | the caller gets a failure exactly when the probe raises; every answered call is logged, as ok exactly when the answer has no "error" |
| Tooling.CorrIdRule | src/hdt_common/tooling.py:129-132 | a new id is made exactly when asked for on every call or none is set; otherwise the call runs under the id already set |
| Tooling.LoggedArgs | src/hdt_common/tooling.py:140-192 | every logged event carries the sanitised arguments, the purpose under a policy and none without, and the error of an error answer |
| Tooling.SettleCorrId | src/hdt_common/tooling.py:129-132 | returns the call's correlation id and the hooks called, and leaves it set in the request context |
| Tooling.ProceedCall | src/hdt_common/tooling.py:174-198 | the answer is the completed tool result with corr_id attached, the hooks are the tool and redaction hooks, and one event is appended to an enabled log |
| Tooling.RunTool | src/hdt_common/tooling.py:174-183 | a dict answer not sent to redaction comes back as the tool gave it; a raising tool gives an error envelope |
| Tooling.RefuseCall | src/hdt_common/tooling.py:149-160 | answers the `bad_request` envelope with corr_id and appends one not-ok event carrying purpose and error to an enabled log |
| Tooling.DenyCall | src/hdt_common/tooling.py:163-172 | answers the probe with corr_id and appends one not-ok event carrying purpose, policy metadata and error to an enabled log |
| Tooling.LogAndAnswer | src/hdt_common/tooling.py:194-198 | appends exactly one event under the call's correlation id to an enabled log, leaves a disabled one alone, and answers with corr_id attached |
| Tooling.InstrumentAsync | src/hdt_common/tooling.py:121-204 | answer, hooks called, correlation id set and log appended are exactly those of the wrapped-call model |
| Tooling.InstrumentSync | src/hdt_common/tooling.py:59-105 | the same without a policy: the answer, the id set and the one event logged are those of the wrapped call with no policy |
| Telemetry.HidesDisjoint | src/hdt_common/telemetry.py:25-33 | no key is both a secret key and an identifier key |
| Telemetry.TokenStable | src/hdt_common/telemetry.py:40-44 | replacing an already-redacted value gives the same value |
| Telemetry.Scrub | src/hdt_common/telemetry.py:36-64 | a redactor keeps the shape: dicts stay dicts with the same keys in order, lists keep their length and are redacted item by item, scalars are unchanged |
| Telemetry.ScrubFields | src/hdt_common/telemetry.py:38-47 | every key is kept in order; a hidden key's value is replaced (a bearer credential keeps its scheme for secrets) and every other value is redacted recursively |
| Telemetry.ScrubCleans | src/hdt_common/telemetry.py:36-64 | after redaction no hidden key at any depth holds anything but a token |
| Telemetry.CleanFixed | src/hdt_common/telemetry.py:36-64 | a value with nothing left to hide is returned unchanged |
| Telemetry.ScrubIdempotent | src/hdt_common/telemetry.py:36-64 | each redactor applied twice is applied once |
| Telemetry.ScrubKeepsClean | src/hdt_common/telemetry.py:36-64 | one redactor never undoes what the other cleaned |
| Telemetry.SafeClean | src/hdt_common/telemetry.py:137-141 | a record redacted for secrets then identifiers holds neither at any depth |
| Telemetry.SafeIdempotent | src/hdt_common/telemetry.py:170-172 | redacting again on read changes nothing in a record redacted on write |
| Telemetry.ScrubGet | src/hdt_common/telemetry.py:45-46 | a key the redactor does not hide reads the redacted form of its old value |
| Telemetry.FirstKeyIndex | src/hdt_common/telemetry.py:70-72 | the index found is the first key matching after strip and lower, or the end when none does |
| Telemetry.FoundIsBound | src/hdt_common/telemetry.py:67-83 | whatever the search finds (other than None) is bound to a matching key somewhere in the value |
| Telemetry.OwnKeyFirst | src/hdt_common/telemetry.py:69-72 | a dict's own matching key wins over any match nested in its values |
| Telemetry.HashSubject | src/hdt_common/telemetry.py:86-97 | no hash without a salt, for None or for an already-redacted id; otherwise at most 16 leading hex digits of the digest of "salt:uid" |
| Telemetry.EventRecordFields | src/hdt_common/telemetry.py:118-141 | the written record carries a subject hash exactly when one was derived, and its ok flag |
| Telemetry.SafeKeepsScalar | src/hdt_common/telemetry.py:141 | a scalar under a key neither redactor hides survives both |
| Telemetry.ClampN | src/hdt_common/telemetry.py:154-158 | the count is in 1..200, is n itself when n is an int in range, and 50 when `int(n)` fails |
| Telemetry.LastN | src/hdt_common/telemetry.py:162-165 | the result is a suffix of the lines, of at most the requested length |
| Telemetry.LastNOfLastN | src/hdt_common/telemetry.py:161-165 | taking the last k lines of a wider tail window is taking the last k lines |
| Telemetry.ReadableClean | src/hdt_common/telemetry.py:165-173 | every record answered is free of secrets and identifiers |
| Telemetry.Since | src/hdt_common/telemetry.py:225-237 | with a lookback the bound is at least now minus the non-negative lookback; with a parsable `since_ts` at least that time; with both the later one |
| Telemetry.Scan | src/hdt_common/telemetry.py:244-301 | the scan collects at most the requested number of matches |
| Telemetry.ScanClean | src/hdt_common/telemetry.py:295-298 | every record the query collects is free of secrets and identifiers |
| Telemetry.ScanIsNewestAdmitted | src/hdt_common/telemetry.py:244-301 | on dict lines the scan is the newest n admitted records after the newest record older than the bound, newest first |
| Telemetry.StepFacts | src/hdt_common/telemetry.py:252-298 | a record older than the bound moves the time cut past everything; any other line leaves it and adds what it admits |
| Telemetry.TelemetryFile.LogEvent | src/hdt_common/telemetry.py:100-144 | disabled telemetry changes nothing; otherwise exactly the safe record is appended and the file exists |
| Telemetry.TelemetryFile.Recent | src/hdt_common/telemetry.py:147-175 | no file answers no records; otherwise the readable safe records of the last clamped-n lines, at most n of them |
| Telemetry.TelemetryFile.Query | src/hdt_common/telemetry.py:190-304 | no file answers no records; otherwise the scan of the last 5000 lines under the time bound and filters, oldest first |
| Telemetry.Collect | src/hdt_common/telemetry.py:244-303 | the loop answers exactly the scan's matches, reversed to oldest first, or the failure of a non-dict line |
| Telemetry.QueryIsNewestAdmitted | src/hdt_common/telemetry.py:244-304 | on dict lines the query answers the newest clamped-n admitted records after the time cut, oldest first |
| Telemetry.Readable | src/hdt_common/telemetry.py:165-173 | no more records than lines |
| Telemetry.Cut | src/hdt_common/telemetry.py:252-257 | the window starts within the lines read |
| VaultStore.Enabled | hdt_mcp/vault_store.py:17-18 | an unset variable disables the vault; otherwise it is on exactly when the stripped, lower-cased value is an enabling word |
| VaultStore.EnabledNormalises | hdt_mcp/vault_store.py:18 | case and surrounding whitespace of the value do not matter |
| VaultStore.EnabledAccepts | hdt_mcp/vault_store.py:18 | "1", "true", "yes" and "on" enable the vault |
| VaultStore.EnabledRejects | hdt_mcp/vault_store.py:18 | "0", "false", the empty text and an unset variable leave it off |
| VaultStore.NormDate | hdt_mcp/vault_store.py:70-78 | None gives None; None otherwise only for blank text; a result has at most ten characters, no "T", and starts the stripped text |
| VaultStore.NormDateOfIso | hdt_mcp/vault_store.py:76-78 | an ISO day, alone or followed by "T" and a time, normalises to the day |
| VaultStore.SourceLabel | hdt_mcp/vault_store.py:85 | the label is never empty: the stripped, lower-cased source, or "unknown" when that is empty |
| VaultStore.SourceLabelStable | hdt_mcp/vault_store.py:85 | a stored label relabels to itself |
| VaultStore.LastAt | hdt_mcp/vault_store.py:107-121 | the position found holds the key and no later pair does, or -1 |
| VaultStore.UpsertedAt | hdt_mcp/vault_store.py:107-121 | last write wins: a key holds the value of its last pair in the batch, and a key the batch does not name keeps its row |
| VaultStore.UpsertedAppend | hdt_mcp/vault_store.py:107-121 | two upserts in a row are one upsert of both batches |
| VaultStore.UpsertAgain | hdt_mcp/vault_store.py:107-121 | writing the same rows again changes nothing |
| VaultStore.PreparedRows | hdt_mcp/vault_store.py:88-100 | one row per dated record, each for the user and source, with a non-empty date of at most ten characters and the insert time |
| JsonValues.FloatError | hdt_mcp/vault_store.py:95-97 | `float()` of an int or a bool succeeds; of None, a list or a dict it raises TypeError; text raises ValueError unless it reads as a decimal number |
| VaultStore.RowOfFails | hdt_mcp/vault_store.py:88-97 | a record raises exactly when it is not a dict, or it is dated and `int()` rejects its step count or `float()` rejects its distance, duration or calories (the first truthy of each pair of keys, else 0.0); a float column that raises gives its error |
| VaultStore.PreparedFails | hdt_mcp/vault_store.py:88-97 | the batch raises exactly when one of its records raises, the float conversions included |
| VaultStore.UnreadableDistanceAborts | hdt_mcp/vault_store.py:95 | `[{"date": "2025-01-01", "steps": 1, "distance": "n/a"}]` raises ValueError, so nothing is written |
| VaultStore.PreparedStaysFailed | hdt_mcp/vault_store.py:89-94 | once a prefix of the batch has raised, the batch raises with that error |
| VaultStore.BoundOf | hdt_mcp/vault_store.py:142-156 | a bound is applied exactly when it normalises to a non-empty text, and then as that text |
| VaultStore.SourcesOnRows | hdt_mcp/vault_store.py:172-180 | a source holds a row for the user on a date exactly when its key is in the table |
| VaultStore.DateHasSource | hdt_mcp/vault_store.py:172-187 | every date in range has at least one source to rank |
| VaultStore.NewestOf | hdt_mcp/vault_store.py:178 | the source chosen is among the candidates and no candidate was inserted later |
| VaultStore.Pick | hdt_mcp/vault_store.py:172-187 | the chosen row exists; it is the preferred source when that has a row, else the newest insert of the date |
| VaultStore.Deduped | hdt_mcp/vault_store.py:196-211 | one record per date in range |
| VaultStore.Window | hdt_mcp/vault_store.py:214-219 | the page is the slice of the records starting at the offset, at most `lim` long, all the rest when no limit is given |
| VaultStore.WindowFrom | hdt_mcp/vault_store.py:214-219 | each page entry is the record at offset plus its position |
| VaultStore.SourcesInSnoc | hdt_mcp/vault_store.py:228-230 | collecting one more record adds its source |
| VaultStore.CollectPage | hdt_mcp/vault_store.py:227-240 | the loop returns the page's records in order and exactly their sources |
| VaultStore.DedupedRanked | hdt_mcp/vault_store.py:196-211 | the i-th de-duplicated record is on the i-th date in sorted order and is the ranked row of that date |
| VaultStore.PageFromAll | hdt_mcp/vault_store.py:213-221 | the page is a window of the de-duplicated records at the offset |
| VaultStore.FetchRanked | hdt_mcp/vault_store.py:172-221 | every returned record is a stored row of the user in range, with its steps: the preferred source when it has a row that day, else the newest insert |
| VaultStore.FetchAscending | hdt_mcp/vault_store.py:210 | returned dates are strictly ascending, so one record per date |
| VaultStore.FetchComplete | hdt_mcp/vault_store.py:171-194 | every date with a row of the user in range has its record among all the de-duplicated ones, which the statistics count and sum |
| VaultStore.StatsIgnorePaging | hdt_mcp/vault_store.py:171-194 | the statistics do not depend on limit or offset |
| VaultStore.RetainedCount | hdt_mcp/vault_store.py:264-268 | the rows removed are exactly those inserted before the cutoff, and the count reported is their number; every other row is kept |
| VaultStore.Vault.UpsertWalk | hdt_mcp/vault_store.py:81-127 | a raising record leaves the table unchanged; otherwise the table is the old one upserted with the prepared rows, and the report counts them under the source label |
| VaultStore.Vault.FetchWalk | hdt_mcp/vault_store.py:130-250 | answers the page of de-duplicated records, the statistics of all of them and the sorted sources of the page |
| VaultStore.Vault.Maintain | hdt_mcp/vault_store.py:253-273 | the table keeps exactly the rows inserted at or after now minus the kept days, and the report names the days kept and the rows deleted |
| WalkVault.BatchWrites | HDT_MCP/vault.py:70-80 | every write is for the user at the call's time, keyed by the text of its record's truthy date; without an error every dict record with a truthy date is written |
| WalkVault.BatchStops | HDT_MCP/vault.py:70-80 | once a prefix of the batch has raised, the rest of the batch is not written |
| WalkVault.BatchAtAnyTime | HDT_MCP/vault.py:69-79 | a batch writes the same keys, records and step counts whenever it runs; only the insert time changes |
| WalkVault.RewriteLeavesOneRow | HDT_MCP/vault.py:63-80 | writing the same records again at a later time leaves the table exactly as that later write alone would: one row per (user, date) |
| WalkVault.SameRecordTwice | HDT_MCP/vault.py:75-79 | a dated record is written as one row, and writing it again replaces that row rather than adding one |
| WalkVault.DatesDesc | HDT_MCP/vault.py:89-90 | the user's stored dates, each once, newest first |
| WalkVault.DescMembers | HDT_MCP/vault.py:89-90 | reversing the ascending dates keeps exactly the user's stored dates |
| WalkVault.RawsOf | HDT_MCP/vault.py:93 | one stored record per date, in the given order |
| WalkVault.Limited | HDT_MCP/vault.py:105 | `LIMIT n` keeps a prefix of at most n rows, and everything for a negative n |
| WalkVault.OneRowOneDate | HDT_MCP/vault.py:89-90 | a table with a single row of the user lists exactly that row's date |
| WalkVault.RaisingBatch | HDT_MCP/vault.py:70-79 | a batch whose second record has step count "x" writes the first record and then raises ValueError |
| WalkVault.UncommittedRowsLost | HDT_MCP/vault.py:54-81 | after that batch the connection reads the first record, but once the vault is closed and the same file opened again the user has no records |
| WalkVault.Vault.Init | HDT_MCP/vault.py:20-52 | the same path is a no-op, rows still pending on the connection included; another path closes the old connection, dropping its uncommitted rows, and opens one on the committed table there, created empty when the file had none |
| WalkVault.Vault.Close | HDT_MCP/vault.py:54-61 | drops the connection and with it every uncommitted row; the committed tables stay as they were |
| WalkVault.Vault.UpsertWalkRecords | HDT_MCP/vault.py:63-82 | without a connection nothing is written and 0 is returned; otherwise the batch's writes (up to a raising record) are upserted into the connection's view, which is committed to the file only when no record raised (taking earlier pending rows with it); the answer is the count or the error |
| WalkVault.Vault.ReadWalkRecords | HDT_MCP/vault.py:84-93 | no records without a connection; otherwise one record per date of the user as the connection sees them (uncommitted rows included), newest date first |
| WalkVault.Vault.ReadWalkLatest | HDT_MCP/vault.py:95-108 | a prefix of the newest-first records, at most `limit` long, all of them for a negative or large limit |
| DomainService.StepsOf | src/hdt_mcp/domain/services.py:24 | one step count per record, a missing count read as 0 |
| DomainService.StatsOf | src/hdt_mcp/domain/services.py:22-26 | days is the record count and the total their step sum; the average is 0 without records and otherwise `int(total / days)` (truncated toward zero), which lies between the least and the greatest step count |
| DomainService.VaultHitSkipsLive | src/hdt_mcp/domain/services.py:47-60 | a non-empty vault read under preference answers from the vault with its statistics; the vault read is the only call |
| DomainService.LiveFallback | src/hdt_mcp/domain/services.py:62-82 | otherwise the live source is always called, after the vault read exactly when the vault was preferred and present; the view is the live records (none when live raised) and they are written through exactly when a vault exists and they are non-empty; only the older service of HDT_MCP/domain/services.py:36-44 lets a live exception through |
| DomainService.WriteAtMostOnce | src/hdt_mcp/domain/services.py:75-80 | a run writes to the vault at most once |
| DomainService.IntegratedView | src/hdt_mcp/domain/services.py:84-101 | the integrated view exists exactly when the preferred-vault walk stream does, else it carries the stream's error; its records, stats, count, days and source are the stream's, with the user id given and the clock reading as generated_at |
| HttpClient.ApiUrl | HDT_MCP/http/client.py:10-12 | the URL is the base without trailing slashes, exactly one slash, then the path without leading slashes |
| HttpClient.JoinOneSlash | HDT_MCP/http/client.py:12 | joining a base that does not end in a slash and a path that does not start with one puts exactly one slash between them |
| HttpClient.RStripMore | HDT_MCP/http/client.py:12 | one more trailing slash on the base strips away |
| HttpClient.LStripMore | HDT_MCP/http/client.py:12 | one more leading slash on the path strips away |
| HttpClient.ApiUrlSlashInsensitive | HDT_MCP/http/client.py:10-12 | extra slashes on either side of the joint do not change the URL |
| HttpClient.FirstAnswer | HDT_MCP/http/client.py:32-48 | the attempt found answers and no earlier one answered; none found means no attempt below n answered |
| HttpClient.LastAdoptedIsLatest | HDT_MCP/http/client.py:38-41 | no id is adopted exactly when no accepted reply carried a truthy X-Request-Id; otherwise the id adopted is that of the latest such reply |
| HttpClient.SentChain | HDT_MCP/http/client.py:31-41 | the first attempt sends the id read before the loop; each next attempt sends the previous reply's adopted server id, else the same id |
| HttpClient.SentIdsAt | HDT_MCP/http/client.py:31-41 | attempt i sends the latest id adopted before it, else the id read first |
| HttpClient.HdtGet | HDT_MCP/http/client.py:15-48 | at most retry_max + 1 attempts; the ids sent are `SentIds`: attempt i carries the latest id adopted from an accepted reply before it (even one whose body then failed to decode), else the id read at the start, which `SentChain` spells out step by step; `adopted` is the latest adopted id; the first answering attempt ends the loop with its body; if none answers, the last error is raised; no attempts answer None |
| HttpClient.StableRequestId | HDT_MCP/http/client.py:27-41 | when no accepted reply carries a server id, every attempt sends the id read first |
| HttpClient.CacheKeyOrderFree | HDT_MCP/http/client.py:69 | the order in which parameters are given does not change the cache key |
| HttpClient.GetCache.CachedGet | HDT_MCP/http/client.py:51-79 | a fresh entry is answered from the cache without fetching; otherwise the fetch is made, a success is stored with the time and answered, and a failure is passed on with the cache unchanged |
| HttpClient.StoredThenHit | HDT_MCP/http/client.py:73-78 | after a fetch stores data at a time, the same key requested before the TTL expires is a hit answering that data; other keys keep their entries |
| Fetchers.IsoKey | HDT_API/services/fetchers.py:29-38 | the key has no "Z" and has a "T": the text without its "Z"s, with "T00:00:00" appended when that has no "T" |
| Fetchers.IsoKeyIdempotent | HDT_API/services/fetchers.py:29-38 | normalising a key again changes nothing |
| Fetchers.OrderedTotal | HDT_API/services/fetchers.py:23-26 | any two dated rows are ordered one way or the other |
| Fetchers.OrderedTrans | HDT_API/services/fetchers.py:23-26 | the date order is transitive |
| Fetchers.Insert | HDT_API/services/fetchers.py:26 | inserting a row adds exactly that row |
| Fetchers.InsertMembers | HDT_API/services/fetchers.py:26 | after insertion every row is the inserted one or an old one |
| Fetchers.ConsSorted | HDT_API/services/fetchers.py:26 | a head that may precede every row of a sorted tail keeps the whole sorted |
| Fetchers.BeforeAll | HDT_API/services/fetchers.py:26 | a row that the head of a sorted sequence does not precede precedes all of it |
| Fetchers.InsertSorted | HDT_API/services/fetchers.py:26 | inserting into a sorted sequence keeps it sorted |
| Fetchers.SortDated | HDT_API/services/fetchers.py:23-26 | the dated rows sorted by their key without "Z", ascending or descending as configured, as a permutation |
| Fetchers.DatedRows | HDT_API/services/fetchers.py:19 | the rows whose date is a string, drawn from the rows |
| Fetchers.UndatedRows | HDT_API/services/fetchers.py:20 | none of these rows has a string date |
| Fetchers.SplitPermutes | HDT_API/services/fetchers.py:19-20 | the dated and the undated rows together are exactly the rows |
| Fetchers.SortRecordsFacts | HDT_API/services/fetchers.py:13-27 | the sort is a permutation: the dated rows first in the configured order, then the undated rows in their original order |
| Fetchers.Windowed | HDT_API/services/fetchers.py:65-79 | the kept rows are exactly the rows with a string date whose key is within the given bounds |
| Fetchers.PyIndex | HDT_API/services/fetchers.py:82 | the slicing position lies within the sequence |
| Fetchers.PySliceAt | HDT_API/services/fetchers.py:82 | `s[a:b]` for non-negative bounds: empty when b <= a, otherwise the elements from a up to b or the end |
| Fetchers.BatchPage | HDT_API/services/fetchers.py:60-82 | `total` counts every row that passed the window; the records are the page [offset, offset + limit) of the sorted rows, each one a provider row, inside the window when one is given |
| Fetchers.SortedPage | HDT_API/services/fetchers.py:80-82 | sorting keeps the count; the page holds at most limit rows, the ones from offset on, each a selected row |
| Fetchers.SortKeepsRows | HDT_API/services/fetchers.py:13-27 | sorting keeps the number of rows and every row it gives was given |
| Fetchers.SliceMembers | HDT_API/services/fetchers.py:82 | a slice holds only elements of the sequence |
| Fetchers.SelectedRows | HDT_API/services/fetchers.py:65-79 | the selected rows are provider rows, inside the window when one is given |
| Fetchers.NoRowsWithoutProvider | HDT_API/services/fetchers.py:131-136 | an unknown app, or a placeholder app without the mock switch, answers no records and total 0 |
| Fetchers.MockBatch | HDT_API/services/fetchers.py:105-112 | a placeholder app with the switch on and no window serves its three fixed rows |
| Fetchers.FilterWindow | HDT_API/services/fetchers.py:68-79 | the window loop keeps exactly the rows of the window function, in order |
| Fetchers.FetchWalkBatch | HDT_API/services/fetchers.py:41-138 | the answer is the batch specification for the connected app |
| Fetchers.BatchSpecOf | HDT_API/services/fetchers.py:80-82 | with provider rows, the batch is the page [offset, offset + limit) of the sorted selection, with its size as total |
| ApiUtils.ArgInt | HDT_CORE_INFRASTRUCTURE/hdt_api_utils.py:14-15 | an absent argument reads as the default |
| ApiUtils.ParsePaginationArgs | HDT_CORE_INFRASTRUCTURE/hdt_api_utils.py:8-22 | an accepted pair has 1 <= limit <= max and offset >= 0 and is what the arguments parse to; a non-integer argument is the 400 "must be integers" error; an integer pair out of range is the 400 range error |
| ApiUtils.PaginationDefaults | HDT_CORE_INFRASTRUCTURE/hdt_api_utils.py:5-15 | without limit and offset the page is limit 200 at offset 0 |
| ApiUtils.PaginationAccepts | HDT_CORE_INFRASTRUCTURE/hdt_api_utils.py:13-22 | every integer pair given as decimal text is accepted exactly when 1 <= limit <= 1000 and offset >= 0, and is otherwise refused with "limit 1..1000, offset >= 0" and status 400 |
| ApiUtils.MaxLimitText | HDT_CORE_INFRASTRUCTURE/hdt_api_utils.py:20 | the maximum renders as "1000" in the message |
| ApiUtils.Paginate | HDT_CORE_INFRASTRUCTURE/hdt_api_utils.py:25-42 | the page echoes total, limit and offset; with a total, `has_next` holds exactly when offset + limit < total; without, exactly when a returned count of at least limit was given |
| ApiUtils.HasNextIffMore | HDT_CORE_INFRASTRUCTURE/hdt_api_utils.py:37-38 | with the total known, `has_next` says exactly that the next page sliced from the same rows is not empty |
| ApiUtils.Names | HDT_CORE_INFRASTRUCTURE/hdt_api_utils.py:50 | the i-th name is the i-th query parameter's name, one per parameter |
| ApiUtils.SetParam | HDT_CORE_INFRASTRUCTURE/hdt_api_utils.py:52 | the name reads the single new value and every other name is unchanged |
| ApiUtils.SetParamNames | HDT_CORE_INFRASTRUCTURE/hdt_api_utils.py:52 | a present name keeps its place and a new one goes last |
| ApiUtils.BuildUrlWithParams | HDT_CORE_INFRASTRUCTURE/hdt_api_utils.py:45-54 | scheme, host and path kept, the query updated, params and fragment dropped |
| ApiUtils.UpdatedKeeps | HDT_CORE_INFRASTRUCTURE/hdt_api_utils.py:51-52 | a name no update touches keeps its values |
| ApiUtils.UpdatedSets | HDT_CORE_INFRASTRUCTURE/hdt_api_utils.py:51-52 | a name reads the value of its last update |
| ApiUtils.UpdatedNames | HDT_CORE_INFRASTRUCTURE/hdt_api_utils.py:51-52 | no existing name moves |
| ApiUtils.PrevTarget | HDT_CORE_INFRASTRUCTURE/hdt_api_utils.py:81-82 | the previous page's URL sets limit and offset max(0, offset - limit), keeps every other parameter, scheme, host and path |
| ApiUtils.PrevUrl | HDT_CORE_INFRASTRUCTURE/hdt_api_utils.py:81-82 | the URL built by the parameter loop is the previous page's target |
| ApiUtils.NextUrl | HDT_CORE_INFRASTRUCTURE/hdt_api_utils.py:58-69 | the next URL sets limit and the next offset; with a query on the base it keeps every other parameter; everything but the query is the base's |
| ApiUtils.AppendLink | HDT_CORE_INFRASTRUCTURE/hdt_api_utils.py:71-72 | the new header is the value alone when there was none, else appended after ", " |
| ApiUtils.LinksAccumulate | HDT_CORE_INFRASTRUCTURE/hdt_api_utils.py:71-72 | a header holding some links holds them and the new one after them |
| ApiUtils.JoinSnoc | HDT_CORE_INFRASTRUCTURE/hdt_api_utils.py:72 | joining one more part appends the separator and the part |
| ApiUtils.Response.SetNextLink | HDT_CORE_INFRASTRUCTURE/hdt_api_utils.py:57-73 | the Link header gains the `rel="next"` link to the next URL and no other header changes |
| ApiUtils.Response.AppendPrevLinkIfAny | HDT_CORE_INFRASTRUCTURE/hdt_api_utils.py:76-86 | headers are unchanged when offset <= 0; otherwise the Link header (and nothing else) becomes the old one with the `rel="prev"` link to the previous page's target appended |
| Validation.NormalizeIsoDatetime | HDT_CORE_INFRASTRUCTURE/validation.py:11-30 | a non-string is refused as such; a stripped text with a trailing "Z" or an offset sign past the date is refused as a timezone offset; anything accepted is a calendar date or a date and time joined by a space |
| Validation.DigitsNotSpace | HDT_CORE_INFRASTRUCTURE/validation.py:15 | a text that starts and ends with a digit or ":" is left alone by strip |
| Validation.NormalizeDate | HDT_CORE_INFRASTRUCTURE/validation.py:20-23 | a calendar date alone comes back unchanged |
| Validation.NormalizeDatetime | HDT_CORE_INFRASTRUCTURE/validation.py:20-24 | a date and a valid time joined by "T" or a space come back joined by a space |
| Validation.NormalizeIdempotent | HDT_CORE_INFRASTRUCTURE/validation.py:11-30 | a normalised date normalises to itself |
| Validation.CoerceIntMin | HDT_CORE_INFRASTRUCTURE/validation.py:32-39 | a value is accepted exactly when `int()` reads it and it is at least the minimum (if any), and the result is what `int()` reads; a value `int()` rejects is refused as not an integer, one below the minimum as below the minimum |
| Validation.FloatOrNone | HDT_CORE_INFRASTRUCTURE/validation.py:41-47 | None stays None; an accepted value is kept; a list or a dict is refused as not a float |
| Validation.DurationOrNone | HDT_CORE_INFRASTRUCTURE/validation.py:54-60 | None stays None; an accepted value is its text and matches dd:dd:dd; any other text is refused |
| Validation.Extras | HDT_CORE_INFRASTRUCTURE/validation.py:88-90 | the copy only adds fields after those already written |
| Validation.ExtrasKeepOut | HDT_CORE_INFRASTRUCTURE/validation.py:88-90 | a field already written is never overwritten by the copy |
| Validation.ExtrasCopy | HDT_CORE_INFRASTRUCTURE/validation.py:88-90 | a field not yet written ends with the record's value when the record has it, and absent otherwise |
| Validation.Sanitized | HDT_CORE_INFRASTRUCTURE/validation.py:62-92 | a non-dict is refused as not an object, a dict without "date" as missing the date; a record is accepted exactly when its date normalises, its steps (0 when absent) read as an integer of at least zero, its distance and energy convert and its duration is None or HH:MM:SS; negative steps are refused as below the minimum; a clean record is a dict |
| Validation.CoreLookups | HDT_CORE_INFRASTRUCTURE/validation.py:75-85 | the five fields written first read back as written and no other key is among them |
| Validation.SanitizedFields | HDT_CORE_INFRASTRUCTURE/validation.py:62-92 | a clean record has the normalised date, steps equal to `int()` of the record's steps (0 when absent) and at least zero, the converted distance and energy, the duration as None or `str()` of the value in HH:MM:SS form, and every other field copied from the record |
| Validation.CopyExtras | HDT_CORE_INFRASTRUCTURE/validation.py:88-90 | the loop over the record's items gives the copy of the specification: each key not yet written, with the record's value |
| Validation.SanitizeWalkRecord | HDT_CORE_INFRASTRUCTURE/validation.py:62-92 | the result is the clean record, or the refusal, of the specification |
| Validation.Outcomes | HDT_CORE_INFRASTRUCTURE/validation.py:98-100 | one checking outcome per record, in order |
| Validation.KeptSnoc | HDT_CORE_INFRASTRUCTURE/validation.py:98-104 | one more outcome adds its record exactly when it is clean |
| Validation.LenientKeepsValid | HDT_CORE_INFRASTRUCTURE/validation.py:101-104 | lenient mode never fails and keeps exactly the clean records, in order |
| Validation.StrictFailsFirst | HDT_CORE_INFRASTRUCTURE/validation.py:101-103 | strict mode fails at the first bad record, naming its index and reason, with every earlier record clean |
| Validation.StrictKeepsAll | HDT_CORE_INFRASTRUCTURE/validation.py:94-105 | when strict mode succeeds every record was clean and all are kept, cleaned, in order |
| Validation.SanitizeWalkRecords | HDT_CORE_INFRASTRUCTURE/validation.py:94-105 | the loop answers the cleaning of the specification; None gives no records |
| Validation.CleanAllStays | HDT_CORE_INFRASTRUCTURE/validation.py:101-103 | once a prefix has failed, the whole list fails the same way |
| UsersStore.IdentityOf | src/hdt_sources_mcp/core_infrastructure/users_store.py:40 | an identity has one component per identity key |
| UsersStore.FirstMatch | src/hdt_sources_mcp/core_infrastructure/users_store.py:38-45 | a secret found is one of the secrets and has the entry's identity; none is found only when no secret has it |
| UsersStore.FirstMatchIsFirst | src/hdt_sources_mcp/core_infrastructure/users_store.py:45 | the secret found is the earliest with that identity |
| UsersStore.Dropping | src/hdt_sources_mcp/core_infrastructure/users_store.py:49 | the identity keys read as absent after dropping; every other key reads as before |
| UsersStore.IndexedEntry | src/hdt_sources_mcp/core_infrastructure/users_store.py:38-45 | the head of an identity's bucket in the finished index is the first secret with that identity, and a missing bucket means there is none |
| UsersStore.MergedList | src/hdt_sources_mcp/core_infrastructure/users_store.py:25-55 | one merged entry per public entry, in the public order |
| UsersStore.Iterated | src/hdt_sources_mcp/core_infrastructure/users_store.py:39-43 | `v or []` is iterated exactly when it is falsy or a list, and gives the list's items |
| UsersStore.ConnectorItems | src/hdt_sources_mcp/core_infrastructure/users_store.py:39-44 | a connector value is read exactly when it is falsy or a list whose every item is a dict with hashable identity values; then it is that list, or nothing |
| UsersStore.IndexSecrets | src/hdt_sources_mcp/core_infrastructure/users_store.py:38-41 | the first loop succeeds exactly when every secret entry can be indexed, and then indexes each identity to its secrets in order |
| UsersStore.MergeEach | src/hdt_sources_mcp/core_infrastructure/users_store.py:43-53 | the second loop succeeds exactly when every public entry can be indexed, and then gives the merge of the specification |
| UsersStore.MergeListsByIdentity | src/hdt_sources_mcp/core_infrastructure/users_store.py:25-55 | the two loops, index then merge, answer the merge of the specification, or fail where Python raises |
| UsersStore.OverlayKeepsIdentity | src/hdt_sources_mcp/core_infrastructure/users_store.py:46-50 | a secret never changes an identity field of the public entry it overlays |
| UsersStore.OverlayFields | src/hdt_sources_mcp/core_infrastructure/users_store.py:46-53 | every other field takes the matched secret's value when it has one and keeps the public one otherwise; without a truthy secret the entry is unchanged |
| UsersStore.MergedUserFields | src/hdt_sources_mcp/core_infrastructure/users_store.py:69-75 | a user is merged exactly when every connector list of the public and the secret user can be iterated into indexable dicts; then each of the three connector lists is the merge of the public and the secret list and every other field is the public user's |
| UsersStore.NonListConnectorRaises | src/hdt_sources_mcp/core_infrastructure/users_store.py:39-75 | a truthy connector value that is not a list, on either side, makes the merge of that user fail |
| UsersStore.SecretsById | src/hdt_sources_mcp/core_infrastructure/users_store.py:63 | every secret user kept is a dict |
| UsersStore.SecretsByIdFails | src/hdt_sources_mcp/core_infrastructure/users_store.py:63 | the secret users are indexed exactly when none is refused: not a number, bool or null, not a text or list containing "user_id", and not a dict whose "user_id" `int()` rejects |
| UsersStore.MergeUsers | src/hdt_sources_mcp/core_infrastructure/users_store.py:58-79 | the merge succeeds exactly when the secrets are indexed and every public user has an integer id and connector lists, of its own and of its secret user, that the merge can iterate |
| UsersStore.MergedUsersKeys | src/hdt_sources_mcp/core_infrastructure/users_store.py:58-79 | the merged map is keyed by exactly the public ids, so secret-only users are dropped; it fails exactly when some public user has no integer id or a connector list, of its own or of its secret user, that cannot be merged |
| UsersStore.PublicIdsDefined | src/hdt_sources_mcp/core_infrastructure/users_store.py:66-67 | the public ids are read exactly when every public user has an integer id |
| UsersStore.MergedUsersValues | src/hdt_sources_mcp/core_infrastructure/users_store.py:66-77 | each id maps to the last public user with that id merged with the secret user of that id, or with nothing; that merge exists |
| UsersStore.UsersOfFile | src/hdt_sources_mcp/core_infrastructure/users_store.py:90-107 | a file that cannot be loaded gives no users |
| UsersStore.NoPublicNoUsers | src/hdt_sources_mcp/core_infrastructure/users_store.py:82-111 | without a public file there are no users, whatever the secrets hold |
| UsersStore.PrimaryEntry | src/hdt_sources_mcp/core_infrastructure/users_store.py:123-132 | there is a primary connector exactly when the user is present and truthy and its list is non-empty; it is the list's first entry |
| UsersStore.ConnectedAppInfo | src/hdt_sources_mcp/core_infrastructure/users_store.py:114-137 | without a primary connector the answer is ("Unknown", None, None); otherwise its application (default "Unknown"), player id and token |
| UsersStore.StoreConnectedAppInfo | HDT_API/users_store.py:103-118 | the same answer with the application name passed through `str()` |
| UsersStore.AppInfoOfMerged | src/hdt_sources_mcp/core_infrastructure/users_store.py:114-137 | for a merged user the application and player id reported are those of the public file's first walk connector |
| UsersStore.ListedEntries | src/hdt_sources_mcp/core_infrastructure/users_store.py:127-128 | a user holding a list under `connected_apps_<app_type>` is truthy and lists exactly it |
| UsersStore.WalkEntriesOfMerged | src/hdt_sources_mcp/core_infrastructure/users_store.py:69-77 | a merged user is truthy and lists the merge of its public and secret walk connectors |
| UsersStore.MergedWalkList | src/hdt_sources_mcp/core_infrastructure/users_store.py:71-75 | the walk list of a merged user is the merge of the public and secret walk lists |
| Auth.PartiesOf | HDT_CORE_INFRASTRUCTURE/auth.py:17-21 | a dict gives its "external_parties" list, or none; a list is taken as it is |
| Auth.BearerToken | HDT_CORE_INFRASTRUCTURE/auth.py:29-32 | a token is read only from a header of at least seven characters, and is what follows "Bearer ", stripped |
| Auth.ApiKeyOf | HDT_CORE_INFRASTRUCTURE/auth.py:26-42 | a key found is never empty |
| Auth.KeyPrecedence | HDT_CORE_INFRASTRUCTURE/auth.py:29-40 | a bearer token wins over the X-API-KEY header, and the header over the `api_key` query argument |
| Auth.HeaderSpellings | HDT_CORE_INFRASTRUCTURE/auth.py:36 | "X-API-KEY" and "x-api-key" name the same header |
| Auth.ExtractKey | HDT_CORE_INFRASTRUCTURE/auth.py:26-42 | the step-by-step reassignment of the key gives a usable key exactly when one is present, and then the same key as the specification |
| Auth.MatchingClient | HDT_CORE_INFRASTRUCTURE/auth.py:56-60 | a party found is the first registered party whose api_key, else its client_id, equals the key; none is found only when no party matches |
| Auth.ClientIdFallback | HDT_CORE_INFRASTRUCTURE/auth.py:58 | a party whose api_key is empty or missing is matched by its client_id |
| Auth.GrantedId | HDT_CORE_INFRASTRUCTURE/auth.py:76-83 | an entry contributes an id exactly when its key reads as an integer and it grants the permission to the client; the id is that integer |
| Auth.GrantedIds | HDT_CORE_INFRASTRUCTURE/auth.py:76-83 | one contribution per permissions entry, in order |
| Auth.SomesMembers | HDT_CORE_INFRASTRUCTURE/auth.py:81-83 | an id is collected exactly when some entry contributes it |
| Auth.AccessibleIdsMembers | HDT_CORE_INFRASTRUCTURE/auth.py:75-83 | exactly the ids granted by some entry are accessible |
| Auth.CollectIds | HDT_CORE_INFRASTRUCTURE/auth.py:75-83 | the loop collects the accessible ids of the specification, in the order of the permissions file |
| Auth.Request.Authorize | HDT_CORE_INFRASTRUCTURE/auth.py:42-104 | the answer is the decision: 401 missing_api_key, 401 invalid_api_key, the AttributeError of a truthy non-dict `user_permissions`, 403 forbidden, or handled; only a handled call changes the request, attaching the client and its users |
| Auth.NonDictPermissionsRaise | HDT_CORE_INFRASTRUCTURE/auth.py:75-76 | once the key has matched a party, the guard raises AttributeError exactly when `user_permissions` is truthy and not a dict |
| Auth.HandledIsAuthorized | HDT_CORE_INFRASTRUCTURE/auth.py:56-100 | a handled request carries a registered party the key matches, and every attached id is granted the permission by an entry of the permissions file |
| ApiWalk.Iterate | hdt_mcp/adapters/api_walk.py:49 | a list iterates over its items; iterating None, a boolean or a number fails |
| ApiWalk.NewAdapter | hdt_mcp/adapters/api_walk.py:15-27 | the base URL loses its trailing slashes; the timeout is `timeout` when given, else `timeout_sec`, else 30 |
| ApiWalk.ToRecord | hdt_mcp/adapters/api_walk.py:35-43 | a record has exactly the five walk fields, steps defaulting to 0 and the date copied |
| ApiWalk.DictRecords | hdt_mcp/adapters/api_walk.py:49 | no more records than items, each the record of a dict among the items |
| ApiWalk.RecordsOf | hdt_mcp/adapters/api_walk.py:49 | a falsy value gives no records; a list gives the records of its dicts |
| ApiWalk.FindEnvelope | hdt_mcp/adapters/api_walk.py:47 | an envelope found is the first of the payload's dicts whose integer user_id is the user's, every envelope before it being a dict with another integer id; none is found only when every envelope is a dict whose id reads as another integer |
| ApiWalk.Normalize | hdt_mcp/adapters/api_walk.py:29-57 | a payload that is neither a list nor a dict gives no records; a dict gives the records of its "data", else of its "records" |
| ApiWalk.NormalizeEnvelopes | hdt_mcp/adapters/api_walk.py:45-49 | a list of envelopes gives the records of the matching envelope's "data", else "records"; no matching envelope gives no records |
| ApiWalk.DataWins | hdt_mcp/adapters/api_walk.py:51 | records under a non-empty "data" win over those under "records" |
| ApiWalk.AddParam | hdt_mcp/adapters/api_walk.py:69-77 | adding an absent key to the query binds it and keeps every other binding |
| ApiWalk.BuildParams | hdt_mcp/adapters/api_walk.py:69-77 | the query binds user_id always, from and to only when non-empty, limit and offset only when given, and nothing else |
| ApiWalk.FetchOutcome | hdt_mcp/adapters/api_walk.py:79-95 | a transport error, a 401 or 403 and any error status give no records; a success gives the normalised body |
| ApiWalk.FetchWalk | hdt_mcp/adapters/api_walk.py:59-95 | the request goes to `<base>/get_walk_data` with the adapter's timeout and the built query; the records are those of the reply |
| ApiWalk.LegacyUrl | HDT_MCP/adapters/api_walk.py:22-23 | the older adapter joins base and path as the HTTP client does, with one slash |
| ApiWalk.FindLeaf | HDT_MCP/adapters/api_walk.py:37-38 | an envelope found is the first dict whose user_id has the user id's text, every item before it being a dict with another id text; none is found only when every item is a dict with another id text |
| ApiWalk.LegacyFetchWalk | HDT_MCP/adapters/api_walk.py:25-43 | a transport error fails, and an error status fails as an HTTP error |
| ApiWalk.LegacyEnvelopes | HDT_MCP/adapters/api_walk.py:37-43 | a dict reply gives its "data", else its "records", else nothing; an envelope whose id is the text "7" matches user 7 |
| ApiWalk.ErrorStatusDiffers | hdt_mcp/adapters/api_walk.py:88-95 | on an error status the newer adapter answers no records where the older one fails |
| Behavior.VaultFlag | HDT_MCP/models/behavior.py:13-18 | the vault is switched on exactly when HDT_VAULT_ENABLE is set and, lower-cased, is "1", "true" or "yes" |
| Behavior.Headers | HDT_MCP/models/behavior.py:31-37 | there is no header exactly when no API key is configured |
| Behavior.HeadersCarryKey | HDT_MCP/models/behavior.py:31-37 | the API's guard reads the configured key back from these headers |
| Behavior.Envelopes | HDT_MCP/models/behavior.py:46 | a list body is the list of envelopes, any other body is one envelope |
| Behavior.LeafRecords | HDT_MCP/models/behavior.py:49 | the matched envelope's truthy "data", else its truthy "records", else an empty list |
| Behavior.FetchViaApi | HDT_MCP/models/behavior.py:39-49 | a transport error and an error status both fail; a body that does not decode is the JSONDecodeError; a non-dict envelope read before the match raises AttributeError; no matching envelope gives an empty list; a match gives its records as `LeafRecords` reads them |
| Behavior.NextDay | HDT_MCP/models/behavior.py:61 | within a month consecutive days are numbered one apart |
| Behavior.MonthBoundary | HDT_MCP/models/behavior.py:61 | the first of a month follows the last day of the month before |
| Behavior.ParseDate | HDT_MCP/models/behavior.py:51-56 | a parsed day is that of the text before the first "T", read as a date or as a date and a time |
| Behavior.ParseDateIgnoresTime | HDT_MCP/models/behavior.py:54 | whatever follows a "T" does not matter to the day read |
| Behavior.See | HDT_MCP/models/behavior.py:63-71 | a non-dict record raises; a dict record is kept exactly when it counts, with its integer steps |
| Behavior.Collect | HDT_MCP/models/behavior.py:63-71 | the only failure is the AttributeError of a non-dict record |
| Behavior.Seens | HDT_MCP/models/behavior.py:63-71 | one outcome per record, in order |
| Behavior.CollectMembers | HDT_MCP/models/behavior.py:63-71 | a value is collected exactly when some record is kept with it |
| Behavior.CollectSucceeds | HDT_MCP/models/behavior.py:63-71 | collecting succeeds exactly when no record raises |
| Behavior.CountedMembers | HDT_MCP/models/behavior.py:61-71 | exactly the steps of the records that count, dated on or after the cutoff with integer steps, are collected |
| Behavior.CountedSucceeds | HDT_MCP/models/behavior.py:63-64 | counting succeeds exactly when every record is a dict |
| Behavior.CollectPrefixFails | HDT_MCP/models/behavior.py:63-64 | once a prefix has raised, the whole loop raises |
| Behavior.RoundDiv | HDT_MCP/models/behavior.py:74 | the result is within half of the exact mean, ties going to the even integer |
| Behavior.RoundDivBetween | HDT_MCP/models/behavior.py:74 | the rounded mean of values between two bounds lies between them too |
| Behavior.SumBetween | HDT_MCP/models/behavior.py:74 | the sum of values between two bounds lies between their multiples by the count |
| Behavior.Average | HDT_MCP/models/behavior.py:58-74 | no records gives an average of 0 |
| Behavior.AverageBetween | HDT_MCP/models/behavior.py:58-74 | the average lies between any bounds of the counted steps that include 0 |
| Behavior.OldRecordsIgnored | HDT_MCP/models/behavior.py:61-67 | a record dated before the cutoff does not count, whatever its steps |
| Behavior.AvgStepsLastDays | HDT_MCP/models/behavior.py:58-74 | the loop answers the average of the specification |
| Behavior.PickMessage | HDT_MCP/models/behavior.py:77-101 | the low advice exactly below 3000 steps, the high advice exactly from 7000, and the middle one between |
| Behavior.PickMessageMonotone | HDT_MCP/models/behavior.py:85-101 | more steps never move the advice down a tier |
| Behavior.ChosenRecords | HDT_MCP/models/behavior.py:108-120 | the vault's records when the vault is used and gave some, else the API's |
| Behavior.Reads | HDT_MCP/models/behavior.py:108-120 | the vault is read exactly when it is switched on and loaded; the API is asked exactly when the vault gave nothing |
| Behavior.ChooseRecords | HDT_MCP/models/behavior.py:108-120 | the reassignments of `records` give the chosen records and make the reads of the specification |
| Behavior.Strategy | HDT_MCP/models/behavior.py:103-131 | the plan exists exactly when the average over the chosen records (the vault's when it gave some, else the API's) does, and then its avg_steps is that average; otherwise it carries the average's error; a plan considers the given days and carries the message, references and rationale of the advice its average picks |
| Behavior.BehaviorStrategy | HDT_MCP/models/behavior.py:103-131 | the method answers the plan of the specification and makes its reads |
| Behavior.VaultHitSkipsApi | HDT_MCP/models/behavior.py:110-116 | when the vault gives records only the vault is read and the average is over its records |
| Behavior.AsWrittenVaultNeverServes | HDT_MCP/models/behavior.py:7-10 | with the vault switched on and the read raising the AttributeError of the imported module, the vault is read, the API is then asked, and the plan is the one without the vault |
| Behavior.ApiFallback | HDT_MCP/models/behavior.py:116-126 | an empty, failing or switched-off vault ends with the API call, the plan is the one with the vault switched off, and its average is the one over the API's records |
| Behavior.NoRecordsLowTier | HDT_MCP/models/behavior.py:58-60 | with the vault off and the API failing the plan is the low advice with an average of 0 |
| Diabetes.LoadJson | hdt_models/HDT_DIABETES_model.py:71-87 | the document always has a "users" dict; a missing, blank or undecodable file, or one without "users", starts fresh; a well-formed document is kept as read; a "users" that is not a dict is replaced and every other key kept |
| Diabetes.UnwrapToolResult | hdt_models/HDT_DIABETES_model.py:124-134 | an answer without content is itself; otherwise the first content item's text |
| Diabetes.ToolPayload | hdt_models/HDT_DIABETES_model.py:215-221 | the payload is always a dict: the decoded answer when that is a dict, otherwise an error envelope |
| Diabetes.ExtractMetrics | hdt_models/HDT_DIABETES_model.py:149-170 | a non-dict, an error envelope or a non-dict "data" has no metrics; a dict "data" without a nested results dict of its kind is returned itself; metrics found are a dict, either "data" itself or the nested results of its kind |
| Diabetes.ExtractPrefersNested | hdt_models/HDT_DIABETES_model.py:164-170 | a nested results dict of the payload's kind is preferred, and the other kind ignores it and takes "data" |
| Diabetes.BadShapeHasNoMetrics | hdt_models/HDT_DIABETES_model.py:215-221 | a tool answer that is not a dict never yields metrics |
| Diabetes.Stored | hdt_models/HDT_DIABETES_model.py:281-283 | storing succeeds exactly when the document has no "users" yet or the user's bucket is shaped for storing |
| Diabetes.StoredAppendsOne | hdt_models/HDT_DIABETES_model.py:281-283 | storing appends exactly one entry to that user's entries and changes no other user and no other key |
| Diabetes.NewUserStored | hdt_models/HDT_DIABETES_model.py:71-87 | a user not yet in a loaded document can always be stored |
| Diabetes.Storage.ProcessUser | hdt_models/HDT_DIABETES_model.py:226-284 | missing metrics answer False and leave the document untouched; otherwise the entry is stored and the answer is True, or the storing error with the document untouched |
| Diabetes.UserIds | hdt_models/HDT_DIABETES_model.py:287-294 | no more ids than parts |
| Diabetes.UserIdsMembers | hdt_models/HDT_DIABETES_model.py:289-293 | every id comes from a non-blank part, and every non-blank part gives one |
| Diabetes.UserIdsPrefixFails | hdt_models/HDT_DIABETES_model.py:293 | once the parse of some leading parts has failed, the parse of all parts fails with ValueError |
| Diabetes.UserIdsFailsOnBadPart | hdt_models/HDT_DIABETES_model.py:289-293 | the parse fails exactly when some part is neither blank nor an integer |
| Diabetes.UserIdsFailure | hdt_models/HDT_DIABETES_model.py:293 | the only failure is ValueError |
| Diabetes.ParseUserIds | hdt_models/HDT_DIABETES_model.py:287-294 | the loop answers the ids of the specification for `(s or "").split(",")` |
| Diabetes.NoIdsFromNothing | hdt_models/HDT_DIABETES_model.py:289 | an empty or missing list gives no ids |

## Left out

- MCP transport, stdio sessions, FastMCP registration and asyncio. Tool calls are answers given as parameters, and the asynchronous wrappers run sequentially.
- Flask routing and response building. The JSON answer of a denied request is its status and error code only.
- Network I/O, SQLite and the SQL text, file reads and writes, and `save_json_atomic`. Vault tables are finite maps, files are their contents or their absence, and HTTP exchanges are the replies given.
- The clock, `uuid4`, SHA-256, environment variables and context variables are parameters. So is the `policy_last_meta` context variable. Logging, `print` and timing are left out.
- Governor.FetchWalk: a live tool call that raises is not modelled; each source gives an answer. In the source the exception is re-raised, so no later source, no write-through and no vault fallback follow it.
- LegacyGovernor.LegacyFetchWalk: a tool call that raises, which ends the request in the source, is not modelled.
- StatusGovernor.StatusFetchWalk: a status or tool call that raises, which ends the request in the source, is not modelled.
- GovernorTools.WalkFeatures: a tool call that raises is not modelled; the trivia and SugarVita fetches are answers too.
- Tooling.InstrumentAsync: the deny probe is an answer; an `apply_policy` that raises, which escapes the wrapper in the source, is not modelled.
- Fetchers.FetchWalkBatch: the provider's rows are an answer; a provider fetch that raises, which escapes the function in the source, is not modelled.
- Telemetry.TelemetryFile.LogEvent: the log file is a sequence of lines, one per event. Python reads it back with `str.splitlines()`, which also splits at \v, \f, \x1c-\x1e, U+0085, U+2028 and U+2029; an event whose text holds one of these would be read back as several undecodable lines. That is not modelled.
- Telemetry.TelemetryFile.Recent: reads one line per event, as above; the tail window counts events, not the lines `splitlines` would give.
- Telemetry.TelemetryFile.Query: reads one line per event, as above; a naive `since_ts` against aware times raises TypeError in the source and is not modelled either.
- PolicyRules.PairsOf: a two-key dict inside a list override is refused in the model, whereas `dict.update` reads its two keys as a pair. A pair whose key is not a text (an integer, a boolean, None) is dropped, since the model's dict keys are texts.
- PolicyRules.RedactAll: payloads are values, so two places that hold the same Python list are redacted independently. In the error envelopes of `fetch_trivia` and `fetch_sugarvita` (src/hdt_mcp/governor.py:360-366 and 428-440) `error.details` and `attempts` are one list; `copy.deepcopy` keeps that sharing, so in Python a redaction along a path through one of them also shows through the other, which the model does not capture.
- PolicyStore.ApplyRule: the same; the deep copy it redacts is a value, so the sharing inside that copy is not captured.
- Text.Lower: case is the ASCII one; Python's `str.lower()` also lowers other letters. Whitespace (`Text.IsSpace`) is Python's full set.
- JsonValues.PyStr: `str()` of a list or a dict is rendered as `[...]` or `{...}`. Python writes the contents; only the opening bracket agrees.
- Behavior.VaultHitSkipsApi: states the vault path as intended. As written, the vault module the file imports has no `read_walk_records`, so the vault is never used; see Findings.
- `HDT_CORE_INFRASTRUCTURE/hdt_api_fetchers.py` is not part of this model. Its fetcher passes a name `users` that the module never defines (line 53), so as written every call raises NameError before a provider is asked.
- Floating-point numbers. The values of distances, calories and the vault's float columns are not modelled; only whether `float()` accepts them is. `int()` of a float is not modelled either.
- Validation.FloatOrNone: the value is kept as given instead of being converted by `float()`. Exponents, "inf" and "nan", and underscores between digits ("1_000"), which `float()` accepts, are refused.
- JsonValues.FloatError: the same decimal forms are read; exponents, "inf", "nan" and underscores between digits, which `float()` accepts, are taken as its ValueError, so VaultStore.RowOfFails also counts such a record as raising.
- `hdt_core_infrastructure/validation.py`, the `strptime` copy of the validation module, is not part of this model. It differs from the modelled copy in its date parsing: `strptime` also accepts one-digit month, day and time fields ("2024-1-5"), and refuses the hour-only and hour-and-minute forms.
- Text.ParseInt: underscores between digits and non-ASCII digits, which Python's `int()` accepts, are refused.
- `\d` in the duration pattern is ASCII only; Python also matches other Unicode digits.
- Dates and times are read in the forms each member names: a calendar date `YYYY-MM-DD`, and a date with an `HH:MM:SS` time. Date arithmetic past year 9999 is not modelled.
- Validation.NormalizeIsoDatetime: the hour-only and hour-and-minute times ("2024-01-05 10", "2024-01-05T10:30"), fractional seconds and the other forms `datetime.fromisoformat` accepts are refused as bad dates in the model, whereas the source normalises them. The year is always written with four digits; `strftime("%Y")` on glibc writes a year below 1000 without padding ("1-01-05 10:00:00" for year 1).
- Behavior.ParseDate: a date followed by a space and a time ("2024-01-05 10:30"), which `datetime.fromisoformat` accepts, reads as no date in the model.
- SourcesServer.Keep: the date key is a total function given as a parameter. `_parse_date_loose` raises ValueError on a record date or bound it cannot read, and the older server raises TypeError when it compares a naive with an aware time; neither exception is modelled.
- Telemetry.Since: the time parser is a parameter that answers a time or nothing. A naive `since_ts` compared with the aware lookback bound or an aware record time raises TypeError in the source; that is not modelled.
- ApiUtils.Encode: `urlencode` is modelled without percent-encoding. Parsing a URL and its query (`urlparse`, `parse_qs`, including its dropping of blank values) is not modelled; a URL arrives already parsed.
- VaultStore.Pick: when the preferred source has no row, the newest insert wins, and among several non-preferred rows with the same `inserted_at` the model picks the one whose source name sorts first. The SQL `ROW_NUMBER() ... ORDER BY` (hdt_mcp/vault_store.py:174-178 and :199-203) leaves that tie unspecified, so SQLite may pick another row, and the statistics query and the page query may even pick differently; the model uses one choice for both.
- Fetchers.SortDated: the result is sorted and holds the same rows. That rows with equal dates keep their input order, as Python's stable sort guarantees, is not stated.
- Where the source calls `.get` on a value that may not be a dict, the model returns the `AttributeError` as a failure on most paths. The members named below instead skip such a value or read it as empty, where Python raises. The message text of Python's exceptions is not modelled.
- Fetchers.Windowed: a row that is not a dict is left out of the window; in the source `r.get` raises AttributeError (HDT_API/services/fetchers.py:70 and :91).
- Fetchers.FilterWindow: the same; the loop passes over a row that is not a dict where the source raises AttributeError.
- Fetchers.SortRecordsFacts: a row that is not a dict is sorted among the undated rows; in the source `r.get` raises AttributeError.
- UsersStore.IdentityOf: identities are compared as JSON values, so `True` and `1` are different identities; in Python `(True, "x") == (1, "x")` and the two entries share a bucket. Entries that are not dicts, or whose identity holds a non-empty list or dict, never reach it: the merge fails on them as Python raises.
- UsersStore.ConnectedAppInfo: a connector entry that is not a dict is passed over and the default answer is given; in the source `.get` raises AttributeError.
- Auth.MatchingClient: a party that is not a dict is passed over; in the source `c.get` raises AttributeError.
- Auth.PartiesOf: a truthy `external_parties` that is neither a dict nor a list (or a dict whose "external_parties" is such a value) reads as no parties, so the key is refused with 401 `invalid_api_key`. In the source (HDT_CORE_INFRASTRUCTURE/auth.py:21 and :56-59) the loop iterates it: the characters of a text raise AttributeError on `.get`, and a number or `True` raises TypeError.
- SourcesServer.DateOf: a record that is not a dict reads as dateless; in the source `r.get` raises AttributeError.
- Auth.GrantedId: a grant that is a number, a boolean or null makes Python's `in` raise a TypeError; the model reads it as no grant. So it reads a permissions entry that is not a dict, where Python raises an AttributeError. A dict grant holds a permission that is one of its keys, as in Python. When `allowed_clients` is a list or a text that contains the client id, Python's `in` is true and the indexing that follows raises TypeError; the model reads it as no grant.
- Diabetes.ToolPayload: an answer object with no content is kept under "raw" as the object itself; the model keeps null there, since an answer object is not a JSON value.
- `WalkRecord.model_validate`, the adapters' record checks, is not part of this model: the values handed to it are the result.
- ApiWalk.FetchOutcome: a body that does not decode is a `RequestException` in `requests` and degrades to no records; the model takes it as such.
- `_load_user_ids_from_config`, `main`, `_pick_gateway_module`, `fetch_user_data_via_mcp`'s session set-up and the `tool_get_sugarvita_*` helpers are I/O plumbing around the modelled functions.
- Reading a users file or a policy file can also fail in other ways, for example with a permission error. The model keeps only what the source catches.
- `load_user_permissions` and the configuration loaders only read files.
- `HDT_API/users_store.py` `UsersStore.from_files` is an empty stub.
- The score calculations of `hdt_models/HDT_DIABETES_calculations.py` are not part of this model; an entry's scores are parameters.
- `hdt_common/errors.py` is not part of this model. Its `typed_error` is taken to be the one of `HDT_MCP/core/errors.py`.
- `hdt_common/context.py` is not part of this model. The request and correlation ids it keeps are state of the instrumentation class.
- `src/hdt_mcp/domain/models.py` is not part of this model. Records are JSON values.

## Findings

| source | as written | input that shows it | evidently intended | confidence | as-written member | corrected member |
|---|---|---|---|---|---|---|
| HDT_MCP/models/behavior.py:7-10 | the vault module imported is `hdt_mcp.vault_store`, which defines no `read_walk_records`; the read at line 112 raises AttributeError and the `except` swallows it | HDT_VAULT_ENABLE=1 and a vault holding the user's walks: the API is still asked and its records are averaged | the vault's records are used and the API is not asked, as the "Prefer vault" comment says and as `HDT_MCP/vault.py`, which does define `read_walk_records`, would allow | not executed; medium, since another module on the import path could provide the function | Behavior.AsWrittenVaultNeverServes | Behavior.VaultHitSkipsApi |
