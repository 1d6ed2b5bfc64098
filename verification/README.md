# Verified models of Logix

Dafny models of the stateful parts of Logix: the client protocols that must survive lost replies,
the sign-in session of a browser tab, two caches fed by racing replies, the canonical JSON text behind
payload hashes, the demonstration store, one form, the reference-data seeds, and a few loops and
encoders. `dafny verify dfyconfig.toml` checks everything.

Each stateful component has a few modules. One describes it as functions on its state, one
function for the code between two awaits, next to a class whose methods are that code and are proved to
do exactly what the functions say. Another puts the component among its clients, network and server as a
state machine and proves what every run keeps.

- **Unloading** (`UnloadingServer`, `UnloadingCommands`, `UnloadingSafety`, `UnloadingRetries`,
  `UnloadingClients`, `UnloadingAnswers`). A network that loses, delays and repeats messages, the
  server's two writes, one page and then any number of them, and other clients. Keys and evidence are
  dropped only after both writes and the reload, which gives exactly one report and one fact, both as
  entered; a retry resends exactly what was sent until then, and never afterwards, and gets the answer
  that was lost.
- **Pending completion** (`PendingText`, `PendingReading`, `PendingCompletion`, `PendingRuns`). Cargo,
  SKU and document completion with overlapping calls. Signatures and keys are the real texts; a
  signature decides its command, so a key never carries two payloads. A success of one call also forgets
  an operation a later call has saved under the same signature, so a command is sent again as the same
  request exactly until the next success.
- **OIDC session** (`OidcSession`, `OidcTab`, `OidcShown`, `OidcSteps`). Per-page memory and the per-tab
  marker under every interleaving of requests, navigations, callbacks, SDK events and page loads; who is
  shown as signed in, and what every step asks the provider for.
- **Market signals** (`MarketSignals`, `MarketSignalWorkbench`, `MarketSignalRuns`,
  `MarketSignalVersions`, `MarketSignalDecisions`, `MarketSignalScenes`, `MarketSignalPages`,
  `MarketSignalOrder`). Generations, tokens, cursors and versioned upserts under arbitrary replies; what
  each scenario shows and in which order. Two properties fail in reachable runs and are given with their
  exact conditions. Ids are distinct exactly as long as no registered signal is already listed. A
  decision does not outdate pages in flight, so a decided signal is shown in an older version exactly if
  it was dropped and what brought it back since was older.
- **Live workspace** (`LiveWorkspace`, `LiveWorkspaceRuns`, `LiveWorkspaceTasks`). Reloads and further
  pages, with a filter that is followed by a reload; the tasks, the active one and the evidence for it.
- **Canonical JSON** (`CanonicalJson`, `CanonicalPrinting`, `CanonicalText`, `CanonicalReading`). RFC
  8259, sections 3 to 7, as `JSON.stringify` prints it and `JSON.parse` reads it back. The comparator is
  a parameter. Where it calls two keys equal, the text depends on key order; the main law is proved
  exactly for comparators that tell the keys apart.
- **Demonstration store** (`DemoOperations`, `DemoOperationsStore`, `DemoOperationRuns`,
  `DemoOperationEffects`).
- **Initiative draft** (`UnitEconomics`, `InitiativeDraft`, `InitiativeDraftRuns`,
  `InitiativeDraftContents`). The constant code lists are parameters of the loops. What the form saves
  is restored exactly. A saved risk that lacks an optional field, which the form itself never saves, is
  merged into the form that was open before.
- **Reference seeds** (`ReferenceTables`, `ReferenceReleases`, `ReferenceSeed`, `ReferenceOutcomes`).
  Transactions over tables with their unique constraints. The index that allows one active release per
  dataset makes the 1.0.0 seed throw, rather than add a second active release, when it is missing while
  another release is active.
- **Loops and encoders** (`CursorLoops`, `SpreadsheetCells`, `SpreadsheetContents`, `UuidLayout`,
  `SqlLiteral`), and the shared `Wrappers`, `Text` and `Numerals`. Two of the three cursor loops stop at
  an empty cursor; exactly when the third differs from them is part of the result.

Assumptions. `crypto.randomUUID` gives values never seen before. The server of a protocol answers a
known key with its stored result, or refuses it, before it compares versions; any other refusal is an
error reply. A hash stands for the whole value it is taken of. Ids that are UUIDs contain no colon.

## Model

| member | source | states |
|---|---|---|
| UnloadingCommands.ContainerUnloadingCommands.constructor | apps/web/src/composables/useContainerUnloadingCommands.ts:36-41 | a new composable holds no key, no evidence, no result and is not submitting |
| UnloadingCommands.ContainerUnloadingCommands.TakeKey | apps/web/src/composables/useContainerUnloadingCommands.ts:128-134 | a scope keeps its key; only a scope without one draws a new key |
| UnloadingCommands.ContainerUnloadingCommands.SubmitReport | apps/web/src/composables/useContainerUnloadingCommands.ts:43-58 | a call during a submission changes nothing; otherwise kept evidence is reused, or evidence is asked for |
| UnloadingCommands.ContainerUnloadingCommands.ContinueWithEvidence | apps/web/src/composables/useContainerUnloadingCommands.ts:60-91 | the report request is built from the draft with the key of its scope; unparsable times end in an error |
| UnloadingCommands.ContainerUnloadingCommands.OnEvidence | apps/web/src/composables/useContainerUnloadingCommands.ts:55-59 | resolved evidence is remembered for its scope before the report is sent; a failure ends the submission and keeps everything |
| UnloadingCommands.ContainerUnloadingCommands.OnReport | apps/web/src/composables/useContainerUnloadingCommands.ts:92-116 | a saved completed report leads on to the "unloaded" fact under a key of its own, any other to the reload |
| UnloadingCommands.ContainerUnloadingCommands.OnFact | apps/web/src/composables/useContainerUnloadingCommands.ts:97-117 | a recorded fact is kept as the result and leads on to the reload |
| UnloadingCommands.ContainerUnloadingCommands.OnReload | apps/web/src/composables/useContainerUnloadingCommands.ts:117-126 | keys and evidence are dropped only here, after both writes and the reload, and all together |
| UnloadingCommands.ContainerUnloadingCommands.Abort | apps/web/src/composables/useContainerUnloadingCommands.ts:121-126 | an error ends the submission and keeps keys and evidence |
| UnloadingCommands.ResolveEvidence | apps/web/src/composables/useContainerUnloadingCommands.ts:145-169 | one reference per distinct trimmed non-empty value, in order; an error exactly when there is none or a registration fails |
| UnloadingSafety.AppendKeepsStored | apps/api/src/modules/inland-fulfillment/infrastructure/prisma-container-unloading-report.repository.ts:32-129 | the server stores at most one report per container and version, each under one key with the command it was sent with |
| UnloadingSafety.StepKeepsInv | apps/web/src/composables/useContainerUnloadingCommands.ts:43-135 | every step of client, network, server and other clients keeps the invariant that ties keys, requests, stored reports and facts |
| UnloadingSafety.ExactlyOnce | apps/web/src/composables/useContainerUnloadingCommands.ts:43-134 | when a submission of a completed draft ends without an error on a page, exactly one report of it exists and exactly one fact that the page has recorded |
| UnloadingRetries.RetryResendsTheSameReport | apps/web/src/composables/useContainerUnloadingCommands.ts:43-134 | over any run, the same draft submitted again after its first report request sends exactly that request if and only if no submission of its scope has ended without an error since |
| UnloadingRetries.RetryRecordsTheSameFact | apps/web/src/composables/useContainerUnloadingCommands.ts:43-134 | likewise, after the same saved report it leads to exactly the first fact request if and only if no submission of the scope has ended without an error since |
| UnloadingRetries.DroppedTogether | apps/web/src/composables/useContainerUnloadingCommands.ts:118-120 | a reload drops the key of a fact exactly if it drops the key of the report the fact is of |
| UnloadingRetries.SuccessForgetsItsOwn | apps/web/src/composables/useContainerUnloadingCommands.ts:43-126 | a submission that ends without an error, with evidence and keys new or kept from failed attempts, has removed exactly its own evidence and its own one or two keys |
| UnloadingClients.NeverTwiceAnywhere | apps/web/src/composables/useContainerUnloadingCommands.ts:36-134 | with any number of pages, closed, reopened and retrying, the server holds at most one report per container and version and the pages have recorded at most one fact per report |
| UnloadingClients.ExactlyOnceAnywhere | apps/web/src/composables/useContainerUnloadingCommands.ts:43-134 | when a submission of a completed draft ends without an error on any page, all pages together have left exactly one report and one fact of it |
| UnloadingSafety.ReportAskedExactly | apps/web/src/composables/useContainerUnloadingCommands.ts:64-91 | a report is asked for exactly when there is evidence and the times can be read; it carries container, version, warehouse, state, start, fields, evidence and reason of the draft, and a completion time exactly if that is completed |
| UnloadingSafety.EvidenceAskedExactly | apps/web/src/composables/useContainerUnloadingCommands.ts:47-58 | evidence is asked for exactly when a submission begins whose scope has none |
| UnloadingSafety.FactAskedExactly | apps/web/src/composables/useContainerUnloadingCommands.ts:94-116 | a fact is asked for exactly after a completed report to a completed draft, and says when and where it was completed, with the evidence of the report |
| UnloadingSafety.EndsExactly | apps/web/src/composables/useContainerUnloadingCommands.ts:117-126 | a submission ends by an error, which is shown and keeps its keys and evidence, or by the successful reload after its writes |
| UnloadingCommands.EvidenceIsSelected | apps/web/src/composables/useContainerUnloadingCommands.ts:145-157 | the values registered are the trimmed non-empty ones, each once, in the order of their first occurrences |
| UnloadingClients.SavedAsEntered | apps/web/src/composables/useContainerUnloadingCommands.ts:60-116 | when a submission ends without an error on any page, the stored report holds every field of its draft, and the fact the same completion time, warehouse and evidence |
| UnloadingClients.HistoryIsInOrder | apps/api/src/modules/inland-fulfillment/domain/container-unloading-report.ts:186-204 | in every run the versions of a container run without a gap from 1, their states never go back, and no two facts of a container were recorded against one projection version |
| UnloadingAnswers.AppendAnswers | apps/api/src/modules/inland-fulfillment/infrastructure/prisma-container-unloading-report.repository.ts:32-119 | a known key is answered from what is filed, if the command is the same; any other report is appended exactly if it continues the history of its container |
| UnloadingAnswers.RecordAnswers | apps/api/src/modules/lifecycle-control/infrastructure/prisma-lifecycle-date-fact.repository.ts:29-207 | the same for a fact and the projection of its container |
| UnloadingAnswers.RepeatsAreAnsweredAlike | apps/api/src/modules/inland-fulfillment/infrastructure/prisma-container-unloading-report.repository.ts:38-54 | over any run, a request the server has filed is answered as the first time and changes nothing |
| UnloadingAnswers.LostAnswerIsRecovered | apps/web/src/composables/useContainerUnloadingCommands.ts:43-134 | if the server filed a report whose answer never came, the same draft submitted again, after any run without a success of its scope, gets the lost answer and files nothing more |
| UnloadingAnswers.LostFactIsRecovered | apps/web/src/composables/useContainerUnloadingCommands.ts:43-134 | and so for the fact that follows it |
| PendingText.SignatureDecides | apps/web/src/composables/usePostDepartureHandoffWorkbench.ts:847-852 | two commands of a kind have the same signature text exactly when they are the same command |
| PendingText.KeysDiffer | apps/web/src/composables/usePostDepartureHandoffWorkbench.ts:848-851 | keys drawn with different UUIDs are different texts, across kinds and shipments |
| PendingCompletion.PendingCompletionWorkbench.constructor | apps/web/src/composables/usePostDepartureHandoffWorkbench.ts:199-228 | a new workbench has no saved operation and idle panels |
| PendingCompletion.PendingCompletionWorkbench.SavePendingShipmentCargo | apps/web/src/composables/usePostDepartureHandoffWorkbench.ts:833-863 | nothing is sent without a shipment or lines; otherwise the saved operation of the signature, or a new one that is then saved, is sent |
| PendingCompletion.PendingCompletionWorkbench.OnCargoReply | apps/web/src/composables/usePostDepartureHandoffWorkbench.ts:864-874 | a success forgets the operation of the signature, an error keeps it |
| PendingCompletion.PendingCompletionWorkbench.BindPendingShipmentSku | apps/web/src/composables/usePostDepartureHandoffWorkbench.ts:877-903 | the same for a SKU binding, filed under shipment, version, cargo line and its version |
| PendingCompletion.PendingCompletionWorkbench.OnSkuReply | apps/web/src/composables/usePostDepartureHandoffWorkbench.ts:904-917 | a success forgets the operation, an error keeps it and frees the line |
| PendingCompletion.PendingCompletionWorkbench.SavePendingShipmentDocuments | apps/web/src/composables/usePostDepartureHandoffWorkbench.ts:920-961 | documents are normalised before the signature is taken; nothing is sent without a shipment or drafts |
| PendingCompletion.PendingCompletionWorkbench.OnDocumentReply | apps/web/src/composables/usePostDepartureHandoffWorkbench.ts:963-972 | a success forgets the operation of the signature, an error keeps it |
| PendingCompletion.PendingCompletionWorkbench.OnReload | apps/web/src/composables/usePostDepartureHandoffWorkbench.ts:872-874 | the busy flag falls once the list was reloaded |
| PendingRuns.StepKeepsInv | apps/web/src/composables/usePostDepartureHandoffWorkbench.ts:833-972 | every step of any number of overlapping calls keeps each saved operation and each sent request with the command its key was drawn for |
| PendingRuns.SameKeySameRequest | apps/web/src/composables/usePostDepartureHandoffWorkbench.ts:833-972 | in every run, two requests with one key are the same request: shipment, version, payload and time |
| PendingRuns.NeverAConflict | apps/web/src/composables/usePostDepartureHandoffWorkbench.ts:833-972 | a server that files requests under their key never meets a known key with another payload, and a success means it holds exactly that request |
| PendingRuns.RetryResendsTheSameRequest | apps/web/src/composables/usePostDepartureHandoffWorkbench.ts:847-874 | over any run, a command is sent again as exactly the same request if and only if no call for it has succeeded in between |
| PendingRuns.SuccessForgetsTheKey | apps/web/src/composables/usePostDepartureHandoffWorkbench.ts:867-868 | after a success the same command goes out under a key never sent before |
| PendingText.NormalizeSaysDraft | apps/web/src/composables/usePostDepartureHandoffWorkbench.ts:934-946 | a document sent has type and trimmed number of its draft, its SCAC trimmed in upper case or none if blank, and each container once, in the order of first occurrence |
| PendingReading.SignatureReads | apps/web/src/composables/usePostDepartureHandoffWorkbench.ts:847-847 | a signature is shipment, version and a text that reads, as JSON, exactly as the lines or documents entered |
| PendingReading.KeyReads | apps/web/src/composables/usePostDepartureHandoffWorkbench.ts:848-851 | a new key names its purpose, the shipment and the UUID |
| OidcSession.AuthSession.constructor | apps/web/src/auth/session.ts:104-111 | a page starts initializing, with no profile, no error and nothing in flight; the marker is the tab's |
| OidcSession.AuthSession.OnUserChanged | apps/web/src/auth/session.ts:118-128 | a usable user makes the session authenticated with its profile; without one an authenticated session becomes anonymous |
| OidcSession.AuthSession.StartSignIn | apps/web/src/auth/session.ts:132-138 | redirecting is published without an error and the redirect is asked for |
| OidcSession.AuthSession.OnSignInFailed | apps/web/src/auth/session.ts:139-143 | a failed redirect is published as its error |
| OidcSession.AuthSession.StartInitialize | apps/web/src/auth/session.ts:145-154 | the stored user is read only when no initialization is kept |
| OidcSession.AuthSession.OnInitialized | apps/web/src/auth/session.ts:154-166 | a failed read is forgotten and published as an error; a successful one is kept |
| OidcSession.AuthSession.StartCompleteSignIn | apps/web/src/auth/session.ts:196-199 | the callback is run once per page |
| OidcSession.AuthSession.OnSignInCallback | apps/web/src/auth/session.ts:199-211 | the returned user is applied, or the failure published without a profile |
| OidcSession.AuthSession.StartSignOut | apps/web/src/auth/session.ts:217-221 | redirecting is published before the sign-out redirect |
| OidcSession.AuthSession.OnSignOutFailed | apps/web/src/auth/session.ts:222-228 | after a failed sign-out the user that is really left is shown |
| OidcSession.AuthSession.OnSignOutUserRemoved | apps/web/src/auth/session.ts:230-246 | a completed sign-out clears the marker; one whose callback failed does not and is an error |
| OidcSession.AuthSession.StartRecovery | apps/web/src/auth/session.ts:247-250 | one recovery per page |
| OidcSession.AuthSession.OnRecoveryUserRemoved | apps/web/src/auth/session.ts:251-261 | with the marker set the session is rejected, without it the marker is set and sign-in starts |
| OidcSession.AuthSession.Confirm | apps/web/src/auth/session.ts:262-266 | an accepted reply clears the marker |
| OidcTab.StepLawful | apps/web/src/api/httpClient.ts:105-155 | each step of a request, a navigation, a callback or the SDK balances recoveries against marker clearings and keeps the snapshot coherent |
| OidcTab.RecoveryAccounting | apps/web/src/auth/session.ts:247-266 | over any run, recovery redirects plus the marker before equal marker clearings plus the marker after |
| OidcTab.NothingClears | apps/web/src/auth/session.ts:230-266 | the marker is cleared by an accepted reply or a completed sign-out only |
| OidcTab.NoLoginLoop | apps/web/src/api/httpClient.ts:113-155 | without an accepted reply or completed sign-out a tab is sent to sign in for recovery at most once, over any number of page loads and 401 replies |
| OidcTab.RecoveriesWithinBudget | apps/web/src/auth/session.ts:247-261 | the recovery redirects of a run are at most what its first page can still start plus one for each page load |
| OidcTab.OneRecoveryPerPage | apps/web/src/auth/session.ts:247-261 | however many requests of a page fail at once, a tab starts at most one recovery redirect for its first page and each further page load |
| OidcTab.APageRecoversOnce | apps/web/src/auth/session.ts:247-261 | a page starts at most one recovery redirect from its load to the next, whatever the tab did before |
| OidcTab.SnapshotAlwaysCoherent | apps/web/src/auth/session.ts:113-168 | under every interleaving authenticated means a profile and no error, error means an error code, signed out means neither, and one initialization at most is outstanding |
| OidcTab.InitializationsFollowFailures | apps/web/src/auth/session.ts:145-168 | within a page the stored user is read again exactly once per failed read: failures are forgotten, a success is never repeated |
| OidcTab.NavigationLawful | apps/web/src/auth/routeGuard.ts:8-17 | the route guard starts an initialization and a sign-in, but no recovery |
| OidcShown.StepMoves | apps/web/src/auth/session.ts:113-266 | after any step, what is shown is decided by the user it delivered, by what failed, by a redirect or sign-out, and is else unchanged |
| OidcShown.OnlyAnUnexpiredUserIsShown | apps/web/src/auth/session.ts:118-128 | a step signs somebody in, or changes who is shown, only by delivering an unexpired user, and shows its subject and first non-blank name; an expired or absent user leaves nobody signed in |
| OidcShown.WhoeverIsShownWasDelivered | apps/web/src/auth/session.ts:118-211 | over any run, whoever is shown as signed in was delivered unexpired |
| OidcShown.RequestsCarryAToken | apps/web/src/api/httpClient.ts:105-155 | a request goes out exactly with the token of an unexpired user; recovery begins exactly where a token is missing or a 401 was read, once per page |
| OidcSteps.StepWaits | apps/web/src/api/httpClient.ts:105-155 | each step ends the await of its event and begins the next one of the same request, and no other |
| OidcSteps.StepCalls | apps/web/src/auth/session.ts:132-261 | each step makes exactly the adapter call that is listed for it, if any |
| OidcSteps.StepFlags | apps/web/src/auth/session.ts:145-266 | the marker and the three flags of the page after any step |
| MarketSignalWorkbench.Workbench.constructor | apps/web/src/composables/useMarketSignalWorkbench.ts:88-110 | an empty queue, no request and generation 0 |
| MarketSignalWorkbench.Workbench.UpsertScenario | apps/web/src/composables/useMarketSignalWorkbench.ts:741-751 | a new id is appended, a listed one replaced unless its listed version is later |
| MarketSignalWorkbench.Workbench.UpsertEach | apps/web/src/composables/useMarketSignalWorkbench.ts:729-739 | items are upserted in their order |
| MarketSignalWorkbench.Workbench.ApplyProjection | apps/web/src/composables/useMarketSignalWorkbench.ts:672-704 | on replacement retained opportunities that are gone are dropped; each opportunity is assigned and its signal upserted |
| MarketSignalWorkbench.Workbench.StartLoad | apps/web/src/composables/useMarketSignalWorkbench.ts:165-201 | a reload starts a new generation, of the whole load and, unless the older API is in use, of every group |
| MarketSignalWorkbench.Workbench.TakeLegacyPage | apps/web/src/composables/useMarketSignalWorkbench.ts:228-239 | a page of the older API replaces the queue and puts new page objects of the same generation in place |
| MarketSignalWorkbench.Workbench.TakeGroups | apps/web/src/composables/useMarketSignalWorkbench.ts:240-259 | the groups that were read replace the queue, with their cursors; failed ones lose theirs |
| MarketSignalWorkbench.Workbench.OnLists | apps/web/src/composables/useMarketSignalWorkbench.ts:176-223 | lists of an overtaken load are dropped; a refused session applies them at once without asking for responsibilities |
| MarketSignalWorkbench.Workbench.OnResponsibilities | apps/web/src/composables/useMarketSignalWorkbench.ts:179-278 | an overtaken load is dropped, otherwise the whole queue is put in place |
| MarketSignalWorkbench.Workbench.StartRetry | apps/web/src/composables/useMarketSignalWorkbench.ts:307-323 | a retry starts a new generation of its group, or a whole reload for the responsibility group and the older API |
| MarketSignalWorkbench.Workbench.OnGroup | apps/web/src/composables/useMarketSignalWorkbench.ts:324-336 | only the present attempt replaces the signals of its group |
| MarketSignalWorkbench.Workbench.StartLoadMore | apps/web/src/composables/useMarketSignalWorkbench.ts:426-436 | a further page is asked for only with a cursor and none in flight |
| MarketSignalWorkbench.Workbench.OnMore | apps/web/src/composables/useMarketSignalWorkbench.ts:449-466 | a further page of an earlier generation is dropped |
| MarketSignalWorkbench.Workbench.OnMoreOpportunities | apps/web/src/composables/useMarketSignalWorkbench.ts:437-448 | the same for a further page of the responsibility group |
| MarketSignalWorkbench.Workbench.OnLegacyMore | apps/web/src/composables/useMarketSignalWorkbench.ts:468-481 | a further page of the older API is applied whatever was reloaded meanwhile |
| MarketSignalWorkbench.Workbench.StartDetail | apps/web/src/composables/useMarketSignalWorkbench.ts:338-340 | a detail read draws the next token of its signal |
| MarketSignalWorkbench.Workbench.OnDetail | apps/web/src/composables/useMarketSignalWorkbench.ts:341-379 | only the latest read counts; an older version only enriches what is listed |
| MarketSignalWorkbench.Workbench.OnDecision | apps/web/src/composables/useMarketSignalWorkbench.ts:572-588 | a decision reply outdates every reload in flight and upserts its signal |
| MarketSignalWorkbench.Workbench.OnSupplement | apps/web/src/composables/useMarketSignalWorkbench.ts:618-630 | a saved supplement upserts its signal |
| MarketSignalWorkbench.Workbench.OnRefresh | apps/web/src/composables/useMarketSignalWorkbench.ts:706-727 | the opportunity of a handed-over signal is assigned and its signal upserted |
| MarketSignalWorkbench.Workbench.OnRegistered | apps/web/src/composables/useMarketSignalWorkbench.ts:518-518 | a registered signal is put in front without looking for its id |
| MarketSignalRuns.FindUpserted | apps/web/src/composables/useMarketSignalWorkbench.ts:741-751 | an upsert changes what is listed under the one id, to the new version unless a later one is listed, and nothing else |
| MarketSignalRuns.NoStepFallsBehind | apps/web/src/composables/useMarketSignalWorkbench.ts:165-751 | no step but a whole reload lets a signal listed before and after fall to a lower version; ids stay distinct |
| MarketSignalRuns.RegisterStep | apps/web/src/composables/useMarketSignalWorkbench.ts:518-518 | a registration keeps ids distinct exactly when its signal was not listed yet |
| MarketSignalRuns.DistinctExactlyIfClean | apps/web/src/composables/useMarketSignalWorkbench.ts:518-518 | ids are distinct in every state of a run exactly if no signal was listed when its registration was answered |
| MarketSignalRuns.VersionsNeverDrop | apps/web/src/composables/useMarketSignalWorkbench.ts:324-379 | along a run in which a signal stays listed and no reload is put in place its version never drops |
| MarketSignalRuns.OlderDetailOnlyAddsEvidence | apps/web/src/composables/useMarketSignalWorkbench.ts:355-373 | an older detail replaces evidence, reason and gaps of the listed signal, and no other field or signal |
| MarketSignalVersions.StepDecides | apps/web/src/composables/useMarketSignalWorkbench.ts:165-751 | after any step a signal is listed from a version on exactly if the applied reply brings it so, or it was listed so before and is not dropped by a reload or by the retry of its group |
| MarketSignalVersions.StepShowsBelowExactly | apps/web/src/composables/useMarketSignalWorkbench.ts:324-326 | a step shows a signal below a version exactly if it brings it or leaves it listed, but neither in that version nor in a later one |
| MarketSignalVersions.RunDecides | apps/web/src/composables/useMarketSignalWorkbench.ts:165-751 | after any run a signal is listed from a version on exactly if it was brought so since it was last dropped, or stood so at the start and was never dropped |
| MarketSignalDecisions.DecisionOvertakesReloads | apps/web/src/composables/useMarketSignalWorkbench.ts:572-572 | no reload started before a decision reply is applied after it, however late its replies come |
| MarketSignalDecisions.OnlyRetriesDrop | apps/web/src/composables/useMarketSignalWorkbench.ts:661-670 | after a decision, while no reload is asked for, a signal is dropped exactly by the applied retry of the group it is shown in, when that no longer has it |
| MarketSignalDecisions.DecisionsStick | apps/web/src/composables/useMarketSignalWorkbench.ts:532-607 | after a decision reply the signal is shown in that version or later exactly if it was never dropped or was so brought since, and below it exactly if it was dropped and brought since in earlier versions only |
| MarketSignalDecisions.OlderVersionReturns | apps/web/src/composables/useMarketSignalWorkbench.ts:572-581 | a reachable run in which a late retry drops a decided signal and a late further page lists it again in the version before the decision |
| MarketSignalDecisions.RegistrationRepeatsAnId | apps/web/src/composables/useMarketSignalWorkbench.ts:518-518 | a reachable run in which a registered signal is already listed and is then listed twice |
| MarketSignalScenes.BuiltShows | apps/web/src/composables/useMarketSignalWorkbench.ts:779-850 | a scenario awaits acceptance exactly if its signal is handed off and its opportunity retained by the market; its reason, gaps and evidence follow from the detail |
| MarketSignalScenes.StepExplains | apps/web/src/composables/useMarketSignalWorkbench.ts:165-751 | every scenario listed after a step was listed before, shows all that is known of a signal the step brought, or is a listed one enriched by an older detail |
| MarketSignalScenes.EveryScenarioHasASource | apps/web/src/composables/useMarketSignalWorkbench.ts:779-850 | over any run, each listed scenario shows the state, reason, gaps and opportunity of one signal with what was known of it |
| MarketSignalScenes.HandoffIsShown | apps/web/src/composables/useMarketSignalWorkbench.ts:706-727 | a refresh that finds an opportunity retained by the market shows its signal as awaiting acceptance, unless a detail was read or a later version is listed |
| MarketSignalPages.ProjectionAssigns | apps/web/src/composables/useMarketSignalWorkbench.ts:672-704 | after a projection each signal has the last opportunity that names it; on replacement a retained one that is gone is dropped |
| MarketSignalPages.LoadIsNewAttempt | apps/web/src/composables/useMarketSignalWorkbench.ts:165-201 | a load raises the generation of the responsibility group and, unless the older API is in use, of all groups |
| MarketSignalPages.ListsSetAllCursors | apps/web/src/composables/useMarketSignalWorkbench.ts:240-259 | each group gets the cursor of its own reply, and none if that failed |
| MarketSignalPages.LegacyPageIsTheFirst | apps/web/src/composables/useMarketSignalWorkbench.ts:228-239 | a reload goes the way of the older API exactly if a reply does not count its group, with the first such reply |
| MarketSignalOrder.StepKeepsOrder | apps/web/src/composables/useMarketSignalWorkbench.ts:661-751 | what stays on the list keeps its order; what is new comes behind it, each once, in the order the reply brings it; a registered signal comes first |
| LiveWorkspace.LiveWorkspace.constructor | apps/web/src/composables/useLiveWorkspace.ts:43-60 | an empty workspace that is loading |
| LiveWorkspace.LiveWorkspace.RebuildLists | apps/web/src/composables/useLiveWorkspace.ts:130-156 | tasks are the details that name a container; the active one stays if listed, else it is the first or none |
| LiveWorkspace.LiveWorkspace.Remember | apps/web/src/composables/useLiveWorkspace.ts:121-128 | more is offered only with a cursor |
| LiveWorkspace.LiveWorkspace.StartReload | apps/web/src/composables/useLiveWorkspace.ts:158-166 | a reload starts a new generation, clears the cursor and the further-page flag |
| LiveWorkspace.LiveWorkspace.OnReload | apps/web/src/composables/useLiveWorkspace.ts:167-185 | only the present reload is applied; a failed one empties the list |
| LiveWorkspace.LiveWorkspace.StartLoadMore | apps/web/src/composables/useLiveWorkspace.ts:187-209 | a further page is asked for only with a cursor and nothing in flight |
| LiveWorkspace.LiveWorkspace.OnPage | apps/web/src/composables/useLiveWorkspace.ts:206-212 | a page that no longer fits is dropped; otherwise the unknown details are kept for the next step |
| LiveWorkspace.LiveWorkspace.OnContainers | apps/web/src/composables/useLiveWorkspace.ts:213-238 | the page is applied after both awaits only if it still fits |
| LiveWorkspace.LiveWorkspace.Select | apps/web/src/composables/useLiveWorkspace.ts:240-245 | only a listed task can be selected |
| LiveWorkspace.LiveWorkspace.Verify | apps/web/src/composables/useLiveWorkspace.ts:347-362 | evidence is recorded on the active task only |
| LiveWorkspaceRuns.StepKeepsInv | apps/web/src/composables/useLiveWorkspace.ts:112-245 | every step keeps list, cursor, flags and requests in flight consistent |
| LiveWorkspaceRuns.ViewIsConsistent | apps/web/src/composables/useLiveWorkspace.ts:112-245 | under every interleaving the list is the merge of one chain of pages of one generation; task ids are distinct, the active task is listed or absent, more implies a cursor |
| LiveWorkspaceRuns.MergeLosesNothing | apps/web/src/composables/useLiveWorkspace.ts:211-229 | every id on an applied page is listed |
| LiveWorkspaceRuns.MergeInventsNothing | apps/web/src/composables/useLiveWorkspace.ts:211-229 | every listed detail comes from an applied page |
| LiveWorkspaceRuns.FlagsTellTheTruth | apps/web/src/composables/useTaskWorkspace.ts:9-15 | unless the filter changed without a reload, each flag is up exactly while the one request of the present generation is in flight |
| LiveWorkspaceRuns.MergeKeepsOrder | apps/web/src/composables/useLiveWorkspace.ts:211-229 | details are listed in the order in which the pages brought them |
| LiveWorkspaceTasks.TasksAreTheDetails | apps/web/src/composables/useLiveWorkspace.ts:130-152 | in every run the tasks are the listed details that name a container, one each, in their order |
| LiveWorkspaceTasks.ActiveTaskStays | apps/web/src/composables/useLiveWorkspace.ts:153-154 | the active task changes only by a selection while it stays listed; otherwise the first task of the new list is active, or none |
| LiveWorkspaceTasks.EvidenceStays | apps/web/src/composables/useLiveWorkspace.ts:347-362 | evidence is recorded on the active task only, and lost only when a new list is put in place |
| CanonicalText.CanonicalTextDecidesEquivalence | packages/contracts/lifecycle-date-fact-inbox.js:7-26 | two payloads have the same canonical text exactly when they are equal up to key order and undefined fields at every depth |
| CanonicalText.SortJsonIdempotent | packages/contracts/post-departure-lifecycle.js:9-28 | canonicalisation is idempotent |
| CanonicalText.NormalFormsDecideEquivalence | packages/contracts/post-departure-lifecycle.js:19-28 | two payloads sort to the same normal form exactly when they are equivalent |
| CanonicalPrinting.PrintInjective | packages/contracts/lifecycle-date-fact-inbox.js:7-9 | distinct normal forms print to distinct texts |
| CanonicalPrinting.PrintEnds | packages/contracts/lifecycle-date-fact-inbox.js:7-9 | a printed value can be read off the front of any text that goes on with a closing mark |
| CanonicalText.TieKeepsArrivalOrder | packages/contracts/lifecycle-date-fact-inbox.js:20-25 | two keys the comparator calls equal keep their arrival order, so the text shows it |
| CanonicalText.OrderInsensitiveExactlyWithoutTies | packages/contracts/lifecycle-date-fact-inbox.js:17-26 | the text is independent of key order exactly when the comparator tells the keys apart |
| CanonicalReading.PrintedReadsBack | packages/contracts/lifecycle-date-fact-inbox.js:7-9 | the text of any value reads back, by the grammar of JSON, as the value without its undefined fields |
| CanonicalReading.CanonicalTextReadsBack | packages/contracts/lifecycle-date-fact-inbox.js:7-26 | the canonical text reads as a value that differs from the payload only in key order and undefined fields, with the keys in order at every depth |
| CanonicalReading.NormalFormOrdered | packages/contracts/lifecycle-date-fact-inbox.js:17-26 | in every object array indices come first in numeric order, then the other keys in the order of the comparator |
| DemoOperationsStore.Store.DrawId | apps/web/src/composables/useDemoOperationsStore.ts:75-76 | every id takes the next sequence number |
| DemoOperationsStore.Store.UpdateTaskProjection | apps/web/src/composables/useDemoOperationsStore.ts:84-94 | the first container of the id shows the task status |
| DemoOperationsStore.Store.UpdateSyncProjection | apps/web/src/composables/useDemoOperationsStore.ts:96-125 | the first container of the id shows the submission stage |
| DemoOperationsStore.Store.SaveSubmission | apps/web/src/composables/useDemoOperationsStore.ts:127-131 | the submission of the task is replaced and shown |
| DemoOperationsStore.Store.RecordOperation | apps/web/src/composables/useDemoOperationsStore.ts:133-146 | a copy of the submission is appended, unless it has no action |
| DemoOperationsStore.Store.CommitNow | apps/web/src/composables/useDemoOperationsStore.ts:148-173 | an immediate commit draws its result id first, applies and logs a committed record |
| DemoOperationsStore.Store.RejectNow | apps/web/src/composables/useDemoOperationsStore.ts:175-192 | an immediate rejection logs a rejected record with its error |
| DemoOperationsStore.Store.Claim | apps/web/src/composables/useDemoOperationsStore.ts:194-208 | only an unassigned pool task is claimed |
| DemoOperationsStore.Store.Acknowledge | apps/web/src/composables/useDemoOperationsStore.ts:210-225 | only a pending input becomes ready |
| DemoOperationsStore.Store.Verify | apps/web/src/composables/useDemoOperationsStore.ts:227-278 | a scan must match its non-empty expected value, a photo must be given; external events and receipts are left alone |
| DemoOperationsStore.Store.Start | apps/web/src/composables/useDemoOperationsStore.ts:280-296 | a submission is started under its old operation id or a new one |
| DemoOperationsStore.Store.Receive | apps/web/src/composables/useDemoOperationsStore.ts:298-310 | trace and reception time are kept if there are any |
| DemoOperationsStore.Store.Accept | apps/web/src/composables/useDemoOperationsStore.ts:312-329 | an accepted completion reports the task |
| DemoOperationsStore.Store.ApplyContainerEvent | apps/web/src/composables/useDemoOperationsStore.ts:331-369 | the event is applied exactly when the container is at the start of its rule |
| DemoOperationsStore.Store.CommitResult | apps/web/src/composables/useDemoOperationsStore.ts:371-418 | a result that cannot be put on its container is rejected, any other committed under a new result id |
| DemoOperationsStore.Store.CommitReport | apps/web/src/composables/useDemoOperationsStore.ts:420-456 | an exception is filed under the present sequence number and blocks a task that is not closed |
| DemoOperationsStore.Store.Retryable | apps/web/src/composables/useDemoOperationsStore.ts:458-465 | a submission is marked for retry |
| DemoOperationRuns.ContainersAdvanceAtMostOnce | apps/web/src/composables/useDemoOperationsStore.ts:331-418 | in every run each container changes its status at most once, along a rule, and its timeline grows by one entry exactly if it does |
| DemoOperationRuns.SecondCommitRejected | apps/web/src/composables/useDemoOperationsStore.ts:376-397 | a second commit of an applied event, by any task, is rejected with status, rail and timeline untouched |
| DemoOperationRuns.LogIsSound | apps/web/src/composables/useDemoOperationsStore.ts:133-192 | the log only grows, by committed records with a result and rejected ones with an error; no two committed records share a result |
| DemoOperationRuns.NumberOfNextId | apps/web/src/composables/useDemoOperationsStore.ts:75-76 | the sequence number can be read off an id, so ids of different numbers differ |
| DemoOperationRuns.NumberOfException | apps/web/src/composables/useDemoOperationsStore.ts:430-430 | the number can be read off a padded exception id, also beyond six digits |
| DemoOperationRuns.ExceptionsStayDistinct | apps/web/src/composables/useDemoOperationsStore.ts:420-441 | exception ids stay pairwise distinct, from the two initial ones on |
| DemoOperationRuns.StartIsSound | apps/web/src/data/sample.ts:1176-1200 | the initial state meets what the runs assume |
| DemoOperationRuns.ScansAreVerifiedRightly | apps/web/src/composables/useDemoOperationsStore.ts:227-277 | every scan verified along a run had captured a value that normalises to its non-empty expected value |
| DemoOperationEffects.ClaimEffect | apps/web/src/composables/useDemoOperationsStore.ts:194-208 | a task of the pool that nobody has goes to the current user and in progress; any other stays as it is |
| DemoOperationEffects.AcknowledgeEffect | apps/web/src/composables/useDemoOperationsStore.ts:210-225 | only the pending input named becomes ready |
| DemoOperationEffects.ScanFailsExactly | apps/web/src/composables/useDemoOperationsStore.ts:237-239 | a scan fails exactly if nothing is expected or its text, without separators and in upper case, is not what is expected |
| DemoOperationEffects.VerifyingIs | apps/web/src/composables/useDemoOperationsStore.ts:227-278 | what becomes of each kind of evidence when a value is given for it |
| DemoOperationEffects.VerifyEffect | apps/web/src/composables/useDemoOperationsStore.ts:227-278 | and what task, submission, container and log are then |
| DemoOperationEffects.StartEffect | apps/web/src/composables/useDemoOperationsStore.ts:280-296 | a submission starts afresh under its old operation id or the next one |
| DemoOperationEffects.ReceiveEffect | apps/web/src/composables/useDemoOperationsStore.ts:298-310 | a receipt keeps the trace and time there are and draws what there is not |
| DemoOperationEffects.AcceptEffect | apps/web/src/composables/useDemoOperationsStore.ts:312-329 | an acceptance dates the submission; a completion is then reported on the task and its container |
| DemoOperationEffects.EventEffect | apps/web/src/composables/useDemoOperationsStore.ts:331-369 | an event is put on a container exactly if its rule starts there; its node is done, current, dated and evidenced, a pending next node is marked, all others stay, and the entry names task and result |
| DemoOperationEffects.ResultEffect | apps/web/src/composables/useDemoOperationsStore.ts:371-418 | a result is refused exactly if it is to move its container and may not; task, submission, container and log in both cases |
| DemoOperationEffects.ReportEffect | apps/web/src/composables/useDemoOperationsStore.ts:420-456 | a report is filed under the next number, blocks a task that is not closed, and commits its submission |
| DemoOperationEffects.RetryableEffect | apps/web/src/composables/useDemoOperationsStore.ts:458-465 | a submission is marked for another try and shown as it is |
| DemoOperationEffects.UnknownIsLeftAlone | apps/web/src/composables/useDemoOperationsStore.ts:298-465 | nothing happens to a task that is not there or a submission never started |
| UnitEconomics.SerializeUnitEconomicsDraft | apps/web/src/composables/useProductInitiativeDecision.ts:1059-1100 | fields that are blank and scenarios without a field are left out |
| UnitEconomics.UnitEconomicsDraftFrom | apps/web/src/composables/useProductInitiativeDecision.ts:1040-1057 | what is absent becomes an empty range |
| UnitEconomics.SavedFormRestored | apps/web/src/composables/useProductInitiativeDecision.ts:1040-1100 | loading what was saved gives exactly the form, trimmed |
| UnitEconomics.TrimmedFormSavesTheSame | apps/web/src/composables/useProductInitiativeDecision.ts:1059-1100 | trimming a form changes nothing that is saved |
| InitiativeDraft.DraftForm.constructor | apps/web/src/composables/useProductInitiativeDecision.ts:215-270 | a new form is an empty one |
| InitiativeDraft.DraftForm.Hydrate | apps/web/src/composables/useProductInitiativeDecision.ts:631-702 | every part is replaced by what was saved for its code, or emptied, but a saved risk is merged and leaves the form what it lacks; exactly the saved risks count as touched |
| InitiativeDraft.DraftForm.Update | apps/web/src/composables/useProductInitiativeDecision.ts:704-710 | a patched risk counts as touched |
| InitiativeDraft.DraftForm.DraftPayload | apps/web/src/composables/useProductInitiativeDecision.ts:559-586 | texts are trimmed, empty ones sent as nothing; only touched risks are sent |
| InitiativeDraftRuns.StepKeepsInv | apps/web/src/composables/useProductInitiativeDecision.ts:593-710 | every edit, load and reset keeps each risk under its own code and every untouched one empty |
| InitiativeDraftRuns.HydratedKeepsInv | apps/web/src/composables/useProductInitiativeDecision.ts:593-702 | a load or reset establishes this from any form |
| InitiativeDraftRuns.SavedDraftRestored | apps/web/src/composables/useProductInitiativeDecision.ts:559-702 | loading a saved draft over whatever the form holds restores exactly the form that was saved, trimmed |
| InitiativeDraftRuns.PayloadRoundTrip | apps/web/src/composables/useProductInitiativeDecision.ts:559-702 | after any run, the payload loaded and saved again is the same payload |
| InitiativeDraftRuns.LoadForgetsExactly | apps/web/src/composables/useProductInitiativeDecision.ts:690-700 | a load is independent of what the form held exactly if each risk it loads carries all four fields the contract makes optional |
| InitiativeDraftRuns.PayloadIsComplete | apps/web/src/composables/useProductInitiativeDecision.ts:575-577 | what the form saves carries all of them |
| InitiativeDraftRuns.OldConclusionStays | apps/web/src/composables/useProductInitiativeDecision.ts:694-697 | a saved risk without a conclusion leaves the conclusion of the form that was open before |
| InitiativeDraftContents.PayloadSaysTheForm | apps/web/src/composables/useProductInitiativeDecision.ts:559-586 | after any run the payload holds each point, dimension and touched risk in the order of the codes, each text trimmed and none for a blank one, and exactly the ranges something was entered for |
| InitiativeDraftContents.LoadShowsTheSaved | apps/web/src/composables/useProductInitiativeDecision.ts:631-702 | a load shows, for every saved draft and form, the first saved part of each code field by field, and what was not saved as empty; risks are merged |
| ReferenceTables.CreateManyInChunks | database/seeds/seed-authoritative-location-reference-data.ts:381-388 | rows inserted in chunks of any size give the table that one statement gives |
| ReferenceTables.CountedAndFound | database/seeds/seed-ocean-reference-v1.1.ts:72-101 | as many rows as expected, and every expected one found, means exactly the expected rows |
| ReferenceTables.ChecksPassExactly | database/seeds/seed-ocean-reference-v1.1.ts:58-102 | the checks pass exactly when the release held only expected rows before and no other release uses their ids |
| ReferenceReleases.ActivateSelectsOnlyItself | database/seeds/seed-authoritative-location-reference-data.ts:275-292 | activating a release leaves it the only active one of its dataset, other datasets untouched, all constraints kept |
| ReferenceReleases.LocationAlwaysSelectsItself | database/seeds/seed-authoritative-location-reference-data.ts:230-292 | the location seed ends with its own release active, whatever was selected before |
| ReferenceReleases.InternalFailsExactly | database/seeds/seed-internal-ocean-reference-data.ts:75-111 | the 1.0.0 release cannot be ensured exactly when its version is under another id, or it is missing while its id is taken or another release is active, each with its own error |
| ReferenceReleases.CreateKeepsSound | database/migrations/20260923170000_add_authoritative_location_reference_data/migration.sql:35-38 | a created row keeps the keys and the one active release per dataset |
| ReferenceSeed.Store.RunInternal | database/seeds/seed-internal-ocean-reference-data.ts:20-73 | the 1.0.0 seed checks its counts and changes nothing when it throws |
| ReferenceSeed.Store.RunOcean | database/seeds/seed-ocean-reference-v1.1.ts:27-131 | the 1.1.0 seed inserts, compares counts and contents, selects its release on first publication, and changes nothing when it throws |
| ReferenceSeed.Store.CheckTypes | database/seeds/seed-ocean-reference-v1.1.ts:91-102 | each expected container type is found with equal values and an equal standard basis text |
| ReferenceSeed.Store.CheckCarriers | database/seeds/seed-ocean-reference-v1.1.ts:77-90 | each expected carrier is found with equal values |
| ReferenceSeed.CommitMeansPublished | database/seeds/seed-ocean-reference-v1.1.ts:58-147 | when the 1.1.0 seed commits, the rows of its release are exactly the expected ones with equal contents, the standard basis up to key order |
| ReferenceSeed.OceanCommitsExactly | database/seeds/seed-ocean-reference-v1.1.ts:30-102 | the 1.1.0 seed commits exactly when its header fits and the rows there are expected ones |
| ReferenceSeed.OceanSelects | database/seeds/seed-ocean-reference-v1.1.ts:103-118 | a first publication leaves 1.1.0 the only active release, a later one changes no release |
| ReferenceSeed.InternalAddsOrKeeps | database/seeds/seed-internal-ocean-reference-data.ts:75-111 | the 1.0.0 seed changes no release unless it is missing; then it is added active to a dataset with none active |
| ReferenceSeed.SeedingSelectsOnce | database/seed.ts:28-35 | both seeds leave 1.1.0 the only active release if it was missing, and change no release if both were there |
| ReferenceSeed.MissingInternalBlocks | database/migrations/20260923170000_add_authoritative_location_reference_data/migration.sql:37-38 | while 1.0.0 is missing and another release of its dataset is active, seeding stops at the unique index |
| ReferenceSeed.SeedingFromEmpty | database/seed.ts:28-35 | from empty tables both seeds commit, and exactly 1.1.0 is active |
| ReferenceOutcomes.OceanOutcome | database/seeds/seed-ocean-reference-v1.1.ts:27-131 | the 1.1.0 seed commits exactly when none of its five checks fails, and else throws the error of the first that does |
| ReferenceOutcomes.InternalOutcome | database/seeds/seed-internal-ocean-reference-data.ts:20-111 | the same for the three checks of the 1.0.0 seed |
| ReferenceOutcomes.CommitsOnlyAdd | database/seeds/seed-ocean-reference-v1.1.ts:40-57 | a commit of either seed loses and changes no row, and leaves the releases of other datasets alone |
| CursorLoops.ListWorkSessions | apps/web/src/api/workSessions.ts:11-40 | the first occurrences of the pages of the cursor chain, or an error exactly when it revisits a cursor; no more fetches than cursors plus one |
| CursorLoops.ListProductInitiatives | apps/web/src/api/marketSignals.ts:171-196 | the same with the plain concatenation, and the head of the first page |
| CursorLoops.ListAllProductOpportunities | apps/web/src/composables/useProductOpportunityWorkbench.ts:162-179 | the same, but going on through an empty cursor |
| CursorLoops.WalkIsShort | apps/web/src/api/workSessions.ts:14-33 | a chain that follows no cursor twice has at most one page more than there are cursors |
| CursorLoops.NeverBoth | apps/web/src/api/workSessions.ts:28-33 | no server both ends a chain and revisits a cursor on it, so the outcome is determined |
| CursorLoops.FirstOccurrencesAreFirst | apps/web/src/api/workSessions.ts:25-27 | every id once, each with the first item that carries it |
| CursorLoops.LoopsAgree | apps/web/src/composables/useProductOpportunityWorkbench.ts:162-179 | on any server two loops read the same pages, one deduplicated; the third gives the same outcome exactly if their last page has no empty cursor or only pages without items follow it |
| CursorLoops.EmptyCursorDivides | apps/web/src/composables/useProductOpportunityWorkbench.ts:168-177 | on any server that answers a request with an empty cursor like the first one, two loops return the pages of a chain that ends with an empty cursor and the third fails |
| CursorLoops.GoingOnAdds | apps/web/src/composables/useProductOpportunityWorkbench.ts:168-177 | whatever a server sends after an empty cursor, what the third loop returns begins with what the other two return |
| SpreadsheetCells.ExtractSheet | scripts/analyze_replenishment_samples.py:111-136 | rows and cells are placed by their index or the next position, cells a merge covers skipped |
| SpreadsheetCells.ExtractedInOrder | scripts/analyze_replenishment_samples.py:117-134 | if every index lies ahead, cells come in strictly ascending order within the reported counts, with any merges |
| SpreadsheetCells.AddressesAreUnique | scripts/analyze_replenishment_samples.py:127-131 | then no two cells share an address |
| SpreadsheetCells.SheetRecords | scripts/build_replenishment_demo.py:22-29 | one record for each row below the header that has a headered cell, in ascending row order |
| SpreadsheetCells.LastCellWins | scripts/build_replenishment_demo.py:28-28 | in a record a header name has the value of the last cell that names it |
| SpreadsheetContents.ColumnsAddUp | scripts/analyze_replenishment_samples.py:117-134 | a cell without an index stands behind the last one that has one, as many columns further as the cells between take, merges included |
| SpreadsheetContents.RowsCountOn | scripts/analyze_replenishment_samples.py:112-116 | rows without an index count on from the last one that has one |
| SpreadsheetContents.SheetGivesExactly | scripts/analyze_replenishment_samples.py:111-136 | the sheet gives a cell for each one with a value or a formula, at its position, and no other |
| SpreadsheetContents.CountIsTheLastColumn | scripts/analyze_replenishment_samples.py:126-135 | the column count is the last column any cell stands in, empty ones included |
| SpreadsheetContents.RecordSays | scripts/build_replenishment_demo.py:22-29 | a record has a name exactly if a cell of its row stands under that header, the last cell of row 1 in its column, and then the value of the last such cell |
| SpreadsheetContents.RecordedExactly | scripts/build_replenishment_demo.py:22-29 | a row has a record exactly if one of its cells stands below a header |
| UuidLayout.DeterministicUuid | database/seeds/seed-real-replenishment-sample.ts:388-397 | the form that overwrites two bytes of the first 16 lays out their UUID |
| UuidLayout.DeterministicUuidFromHex | database/seeds/seed-ocean-reference-v1.1.ts:148-157 | the form through the hexadecimal digest gives the same text |
| UuidLayout.UuidMatchesPattern | database/seeds/seed-real-replenishment-sample.ts:385-386 | every text matches the pattern, with version digit 5 |
| UuidLayout.UuidsCollideExactly | database/seeds/seed-authoritative-location-reference-data.ts:398-404 | two digests give one UUID exactly when their first 16 bytes agree outside the six forced bits |
| UuidLayout.UuidShowsTheDigest | database/seeds/seed-ocean-reference-v1.1.ts:148-157 | the text shows the first 16 bytes of the digest in order, high digit first, with dashes in their places, four bits of byte 6 being the version and two of byte 8 the variant |
| SqlLiteral.LiteralReadBack | scripts/build_replenishment_demo.py:32-33 | a literal in front of any text is read back as its value and up to its end exactly when no quote follows |
| SqlLiteral.LiteralsDelimitThemselves | scripts/build_replenishment_demo.py:32-33 | a literal stands for one value and none is the beginning of another |

## Left out

- UnloadingSafety.ExactlyOnce: the reload is taken as one reply, and the facts of other pages are counted in `UnloadingClients` only.
- UnloadingClients.ExactlyOnceAnywhere: a fact recorded by a client that does not follow the protocol is not counted, because a fact does not name its report and is told apart by the key it was sent under.
- PendingRuns.NeverAConflict: a request the server refuses before or after looking at its key is one kind of refusal, because the checks of versions and existing cargo are in another service.
- PendingText.SignatureDecides: relationship versions are natural numbers below the point where JavaScript prints an exponent, and `toUpperCase` is that of the letters A to Z, because no other values occur there.
- OidcTab.NoLoginLoop: redirects of the route guard are not counted, because a user starts them by navigating.
- OidcTab.SnapshotAlwaysCoherent: the OIDC mode only, because the development mode has no session.
- MarketSignalRuns.NoStepFallsBehind: `saving`, totals, error texts and loading flags are not modelled, because no step that changes the queue reads them.
- MarketSignalDecisions.DecisionsStick: for runs in which no registered signal is already listed, because an id that is listed twice has no one version.
- MarketSignalScenes.BuiltShows: titles, urgency, dates and the codes of pending fields that have no known gap, which the page drops, are not modelled, because no step reads them.
- CanonicalReading.PrintedReadsBack: the reader takes no white space, and keeps the entries of an object in the order of the text, because the printed text has no white space and its keys are in enumeration order.
- LiveWorkspaceRuns.ViewIsConsistent: assumes that no page lists an id twice and that a changed filter is followed by a reload before more is loaded, as the page wires it.
- CanonicalText.CanonicalTextDecidesEquivalence: numbers are the tokens JavaScript prints, `undefined` occurs as an object field only, and lone surrogates do not occur, because JSON has no text for them.
- DemoOperationRuns.ScansAreVerifiedRightly: upper-casing is that of the letters A to Z, because container numbers have no others.
- InitiativeDraftRuns.PayloadRoundTrip: a risk patch never changes the risk code and holds no undefined values, as in the panel, because the code is how a saved risk is found again; the server is taken to return what was saved.
- ReferenceSeed.CommitMeansPublished: assumes the fixture has distinct ids and codes and the comparator tells the basis keys apart.
- SpreadsheetCells.AddressesAreUnique: the column name function is a parameter, because it comes from a library.
- Submitting, claiming and completing work orders in `useLiveWorkspace`, and takeback and selection in `useMarketSignalWorkbench`: their calls add no further reply race.
- Pending-facts saving and the correction, customs and dispatch commands: their keys are not tied to a payload this way.
- What `hydrate` takes from a formal decision besides the draft: it is overwritten field by field.
- URL parsing and building, header guards and error texts: they rest on the platform.
- `resetDemoOperations`: a run ends there.
- Country, port and alias rows of the location seed: inserted as the modelled tables are.
- Labels, tones, messages and Vue reactivity.
