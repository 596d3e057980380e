# Scorepeek, verified

Scorepeek watches a rhythm game: a Vulkan layer hands captured frames to a recogniser, a catalog of songs is federated
from three sources and shipped as a snapshot, recognised results are folded into a score database, and an overlay shows
the state of play. This project models the parts of it whose correctness spans several functions, threads or runs, and
proves what they are for.

`dafny verify dfyconfig.toml` checks the whole project (Dafny 4.11).

The modules, by component:

- **Capture hand-off** (`CaptureProtocol`, `CaptureInvariant`, `CaptureSteps`, `CaptureSafety`, `CaptureCounts`,
  `CaptureDisabled`, `CaptureAnswers`, `CaptureCarryOver`, `CaptureClosing`, `CaptureService`, `CaptureRecovery`,
  `CaptureRuns`). The game's present call, the fence thread, the socket thread and `disable` share atomics, fields
  under a lock and, per connection, one exported image with a consumer process. Every atomic access, locked update, GPU
  event and consumer move is a step, and any enabled participant may take the next one. One invariant over all runs
  gives mutual exclusion, the layout and queue family ownership chain (the Vulkan specification, section "Queue Family
  Ownership Transfer"), the truth of every READY and the value of each counter; further theorems say exactly when
  `disabled` is final, exactly which connections only get READYs of their own, and that the layer never locks itself
  up: it can come to serve a new connection, and there any request, exactly when it is neither stopped nor shutting
  down.
- **Catalog federation** (`CatalogModel`, `CatalogValidation`, `Federation`, `FederationSongs`, `FederationValid`,
  `FederationTheorems`, `FederationAccounting`, `FederationAdditions`, `FederationVerdicts`, `FederationOutcome`,
  `FederationRepeat`, `FederationKeys`, `Federator`). Three snapshots are merged into a catalog in place. `Federation`
  says what a merge does, and the class `Federator` and the methods beside it do it loop by loop. The theorems say, by
  the members of the catalog alone, whom each record is identified with, why it is set aside and what it adds, and what
  a merge keeps: validity, every fact already there, every record accounted for, and the same result the second time.
- **Score store** (`ScoreFacts`, `ScoreStore`, `ScoreRuns`, `ScoreReports`, `ScoreDeliveries`). A materialised view of
  best results beside the table of plays, under upserts, retractions, confirmations, selections and recovery after a
  crash. The class `Store` and the array methods follow the source; the lemmas say exactly when the view stays equal to
  a fold from scratch, what each row and fact says of the event it came from, and exactly which deliveries are
  consumed.
- **JSON as rows** (`Text`, `Ordering`, `Structured`, `StructuredRows`, `StructuredRoundTrip`, `AttributeTable`). A
  JSON value stored as one row per node under an escaped path (sections 3 and 4 of RFC 6901) and rebuilt from the rows
  in the order of a query, with the exact family of values that do not come back.
- **Catalog snapshots** (`SnapshotTables`, `SnapshotColumns`, `SnapshotRoundTrip`, `SnapshotStore`,
  `SnapshotConstraints`, `SnapshotReader`). The tables of a snapshot with their keys and texts, the writer and its one
  possible clash, the reader's loops, and the round trip between them.
- **Activation of a snapshot** (`Activation`, `ActivationSafety`, `ActivationDurability`, `ActivationExact`,
  `ActivationHistory`, `ActivationProgress`, `ActivationRuns`). Processes stage, sync, rename and activate generations
  on a file system in which an entry that was not synced may or may not survive a power loss, name by name. The
  theorems say what is safe, what survives, and exactly which updates can complete.
- **Smaller parts.** The overlay's fold of snapshot and live records with its validation (`OverlayConsumer`,
  `OverlayGrammar`, `OverlayDisplay`, `OverlayRuns`, `Overlay`), the publications of the music select screen
  (`SelectResolver`), the validation of a recording against the walk that decodes it (`Replay`), rectangle subtraction
  (`Canvas`) and the rank arithmetic (`Rank`).

What the proofs turned up:

- A value with an array of more than ten elements below an object key that contains a NUL is saved but cannot be loaded
  (`Structured.TenBeforeTwo`, `StructuredRoundTrip.RoundTrip`): the query orders by the length of the path, which ends
  at the first NUL.
- A result event that detects a known attempt on another chart leaves the bests of the first chart stale, and a select
  event does not repair them (`ScoreRuns.SilentMoveLeavesStaleBests`, `ScoreRuns.SelectEventKeepsAgreement`).
- `begin_update` syncs the content directory before it takes the lock. An update that waited for the lock can therefore
  find a generation in place whose rename was never synced, and make it active (`ActivationRuns.StaleSyncIsUnsafe`).
- `disabled` is overwritten by every store that a thread has already decided on when `disable` stores it: the errors
  and the success of a capture, the opening of a connection, and an accepted ACK
  (`CaptureDisabled.DisabledIsFinalExactly`, `CaptureRuns.DisabledIsOverwritten`).
- A READY may answer a request of an earlier connection, exactly when its capture read the pending number before the
  new connection had stored one; a connection can get such a READY exactly when it was opened under a present call that
  may still capture (`CaptureAnswers.ReadyAnswersItsConnectionExactly`,
  `CaptureCarryOver.ConnectionAnswersItselfExactly`).
- Federating twice is not federating once when a Tachi snapshot is held against evidence filed under a dqn id that the
  same federation replaces (`FederationRepeat.FederateTwiceExactly`); no valid catalog is like that.

## Model

| member | source | states |
|---|---|---|
| CaptureSafety.RunInv | native/vulkan-capture/src/layer.cpp:592-1168 | Whatever the three producer threads, `disable`, the GPU and the consumers of all connections do, in any order, one invariant holds that ties the phase, the lock, the current image, both message queues, the fences and the counters together. |
| CaptureSafety.StepKeeps | native/vulkan-capture/src/layer.cpp:592-1168 | Every single step of any participant keeps that invariant. |
| CaptureSafety.ReadyExcludesCopy | native/vulkan-capture/src/layer.cpp:641-834 | While a READY is outstanding (sent, its ACK not handled, or the READY or its answer still under way) no copy into that image is queued, running or being recorded, even after the producer has dropped the connection. |
| CaptureSafety.ReadyIsTrue | native/vulkan-capture/src/layer.cpp:1119-1166 | Whenever the fence thread sends, it sends exactly one READY on the open connection, for a copy that has completed, whose present returned success or suboptimal, with the image holding exactly that capture, and answering a request that was received. |
| CaptureSafety.ReadbackSeesItsCapture | crates/scorepeek-vulkan-capture/src/resources.rs:230-310 | For as long as a consumer reads, the image holds the capture its READY named, no copy runs, and the image is in the layout and ownership the acquire barrier gave it. |
| CaptureSafety.BarriersMatch | native/vulkan-capture/src/layer.cpp:711-801 | Before every producer copy, after it, and before every consumer acquire and release, the image has the layout and the owner of the old side of the barrier about to execute: first exports, failed submits, reconnects and skipped readbacks included. |
| CaptureSafety.RequestsAreAccountedFor | native/vulkan-capture/src/layer.cpp:1063-1089 | The balance: between two packets with no take left to settle, requests equal captures, busy drops, coalesced drops and refused takes, plus one for a pending request; a call that was running when the counters were cleared can add one outcome and no more. What each counter is by itself is `CaptureCounts.CountersAreTallied`. |
| CaptureCounts.CountersAreTallied | native/vulkan-capture/src/layer.cpp:1063-1089 | In every run each counter is what its name says, counted from the states in which threads met their requests since the counters were last cleared: coalesced drops are the requests that found the phase idle and one pending, busy drops those that found another phase and the takes that left busy, captures the submissions. |
| CaptureSafety.DestroyWaitsForCopy | native/vulkan-capture/src/layer.cpp:297-352 | Unless a fence wait has failed, no copy into the image is queued or running when the reset destroys it. |
| CaptureSafety.OneFenceThread | native/vulkan-capture/src/layer.cpp:1022-1036 | The fence thread of the previous connection is over before the next one is started. |
| CaptureSafety.ReadyAnswersRequest | native/vulkan-capture/src/layer.cpp:597-601 | Every READY on its way carries the number of a request received on the same connection or an earlier one. |
| CaptureDisabled.DisabledIsFinalExactly | native/vulkan-capture/src/layer.cpp:592-1168 | Once `disable` has set `stop` and stored its phase, every continuation keeps `disabled` exactly when no thread is past its last test and on its way to another store: no capture being recorded or published (its errors store `idle`, its success stores `submitted`), no connection being opened (`disconnected`, then `idle`), and no ACK accepted (`idle`). |
| CaptureRuns.DisabledIsOverwritten | native/vulkan-capture/src/layer.cpp:650-656 | One such store happens: there is a run in which `disable` has stored `disabled` and an error in the present thread stores `idle` over it. |
| CaptureAnswers.ReadyAnswersItsConnectionExactly | native/vulkan-capture/src/layer.cpp:597-601 | A READY answers a request of the connection it is sent on exactly when the capture it reports read the pending number after that connection had stored one. |
| CaptureCarryOver.ConnectionAnswersItselfExactly | native/vulkan-capture/src/layer.cpp:999-1054 | For a connection just opened, every READY that any continuation ever sends on it answers one of its own requests exactly when the layer has been stopped or no present call that took a request of an earlier connection may still capture. |
| CaptureRuns.ReadyMayAnswerAnEarlierConnection | native/vulkan-capture/src/layer.cpp:597-601 | Otherwise it happens: there is a run in which the second connection gets a READY for a request that only the first one sent. |
| CaptureRuns.LateReadMayAnswerAnEarlierConnection | native/vulkan-capture/src/layer.cpp:597-601 | It happens also to a call that reads the pending number only after the second connection was opened. |
| CaptureClosing.ErrorsCloseTheConnection | native/vulkan-capture/src/layer.cpp:592-1168 | In every run an error of a fence check, a present or a send closes the connection it happens on: while one is served with a phase disabled by neither a stop nor a lost device, its socket is closed or a thread is about to close it; and a completed capture is being delivered, handed over, or given up with the phase disabled. |
| CaptureService.RequestIsServed | native/vulkan-capture/src/layer.cpp:592-1168 | After any run that leaves a connection at rest, any request can be served: some continuation has READY for this very request on its way with its pixels in the image, and then, read and acknowledged, the connection at rest again. |
| CaptureService.ConnectionComesToRest | native/vulkan-capture/src/layer.cpp:972-1054 | Between two connections, with no call under way and no stop, the next connection can come to rest. |
| CaptureRecovery.ServiceCanResumeExactly | native/vulkan-capture/src/layer.cpp:297-352 | No thread blocks another for good: after any run, whatever the threads are doing, some continuation, in which no fence wait fails, brings a new connection to rest exactly when the layer is not stopped and its socket thread not shutting down. |
| CaptureRecovery.ResetEnds | native/vulkan-capture/src/layer.cpp:297-352 | A reset that has the lock, or can take it, always has a way to its end: the fence thread it waits for ends, and so does the wait for the copy. |
| CatalogValidation.CollectBindings | crates/scorepeek-core/src/catalog/model.rs:365-374 | The insertions into the global bindings report a repetition exactly when a binding of the song was met before, and otherwise add all of them. |
| CatalogValidation.BindingsAreUnique | crates/scorepeek-core/src/catalog/model.rs:355-412 | The nested loops accept exactly the catalogs in which no source record is bound to two songs. |
| CatalogValidation.TachiPrimary | crates/scorepeek-core/src/catalog/model.rs:610-628 | The flag is the OR over the stored Tachi attributes, and there is none exactly when the evidence or one of the attributes is missing. |
| CatalogValidation.SongIsValid | crates/scorepeek-core/src/catalog/model.rs:355-494 | One song passes exactly when it meets every demand on a song. |
| CatalogValidation.Validate | crates/scorepeek-core/src/catalog/model.rs:288-553 | Validation accepts exactly the valid catalogs. |
| Federator.AddTachiTitles | crates/scorepeek-catalog-publisher/src/federation.rs:283-317 | Visiting the variants in any order asserts every one that the song did not assert yet, under the new evidence. |
| Federator.AddCharts | crates/scorepeek-catalog-publisher/src/federation.rs:631-655 | The loop adds the missing charts and the assertions that no earlier evidence of the source makes. |
| Federator.IdentifyTextage | crates/scorepeek-catalog-publisher/src/federation.rs:378-408 | The method finds the identity that `FederationVerdicts.TextageIsJudged` characterises: the bound song or the one match, or the reason of the first rule that fails. |
| Federator.Federator.TachiRecordStep | crates/scorepeek-catalog-publisher/src/federation.rs:181-281 | One Tachi record changes catalog and quarantine as the specification of the fold says. |
| Federator.Federator.TachiSource | crates/scorepeek-catalog-publisher/src/federation.rs:146-179 | The admission, the sorting and the loop over the records compute the specified effect of a Tachi snapshot. |
| Federator.Federator.TextageRecordStep | crates/scorepeek-catalog-publisher/src/federation.rs:378-446 | In place, one Textage record has the effect of the specified step, whose verdict and additions `FederationVerdicts.TextageVerdicts` states. |
| Federator.Federator.TextageSource | crates/scorepeek-catalog-publisher/src/federation.rs:352-455 | The loop over the Textage records computes the fold whose verdicts, entries and songs `FederationVerdicts.TextageVerdicts` states record by record. |
| Federator.Federator.MatchDqn | crates/scorepeek-catalog-publisher/src/federation.rs:501-521 | The first loop collects the records that name exactly one song and quarantines the others. |
| Federator.Federator.DqnSource | crates/scorepeek-catalog-publisher/src/federation.rs:457-540 | Matching all records first and binding the candidates afterwards has the specified effect of binding record by record. |
| Federator.CandidatesBind | crates/scorepeek-catalog-publisher/src/federation.rs:501-533 | The two loops over the dqn records can be fused into one. |
| Federator.Federator.RefreshAvailability | crates/scorepeek-catalog-publisher/src/federation.rs:717-731 | Every song gets the availability that the Tachi flag and the dqn bindings imply. |
| Federator.Federator.PruneEvidence | crates/scorepeek-catalog-publisher/src/federation.rs:657-679 | Exactly the evidence that something in the catalog still cites is kept. |
| Federator.Federator.Run | crates/scorepeek-catalog-publisher/src/federation.rs:119-136 | The whole in-place federation computes the specified catalog and quarantine, and leaves a valid catalog valid. |
| FederationTheorems.FederateKeepsValid | crates/scorepeek-catalog-publisher/src/federation.rs:119-136 | For every valid catalog and every well-formed input the federated catalog is valid: bindings unique, provenance there for every fact, the Tachi flag the OR of its attributes, availability consistent, no cited evidence pruned. |
| FederationTheorems.FederateLosesNothing | crates/scorepeek-catalog-publisher/src/federation.rs:181-455 | For every catalog and input no song, artist, version, chart, assertion, title variant, binding or dqn pack is changed or lost. |
| FederationTheorems.BindingsNeverMove | crates/scorepeek-catalog-publisher/src/federation.rs:378-396 | A source record bound to a song stays bound to that song and to no other. |
| FederationAccounting.TextageIsAccountedFor | crates/scorepeek-catalog-publisher/src/federation.rs:378-446 | For an admitted Textage snapshot the accepted and the quarantined records together are the records of the snapshot, id by id, and every accepted record is found in the song it was given to. |
| FederationAccounting.FoldTakes | crates/scorepeek-catalog-publisher/src/federation.rs:409-446 | At the end of the loop the song of an accepted record still has its title, binding, attributes and charts. |
| FederationVerdicts.RefusedExactly | crates/scorepeek-catalog-publisher/src/federation.rs:542-580 | A snapshot is admitted exactly when it has the policy of its source, some records, and no fewer than the latest evidence of the source had; otherwise it is refused for its policy, or else for its health. |
| FederationVerdicts.TextageIsJudged | crates/scorepeek-catalog-publisher/src/federation.rs:378-408 | An unbound record belongs to the only song with the same artist, version and Tachi title after normalisation and the same note count in at least two of its charts; with no such song it has no anchor, with several it is ambiguous, and a bound record stays with its song unless another is such a song. |
| FederationVerdicts.OneTextageVerdict | crates/scorepeek-catalog-publisher/src/federation.rs:378-408 | Where a record is bound to one song at most, as in every valid catalog, its verdict is the only one that fits. |
| FederationVerdicts.TextageVerdicts | crates/scorepeek-catalog-publisher/src/federation.rs:352-455 | The records of an admitted Textage snapshot, by ascending id, are judged one after the other by the songs as they stand; each that is identified adds just its title, binding, attributes and charts to its song, and the entries of the quarantine are those of the others, with their reasons. |
| FederationVerdicts.TextageBindings | crates/scorepeek-catalog-publisher/src/federation.rs:409-446 | After any number of these records a song is bound to a Textage id exactly when it was before or a record with that id was identified with it. |
| FederationVerdicts.TachiVerdicts | crates/scorepeek-catalog-publisher/src/federation.rs:146-281 | Every record of an admitted Tachi snapshot is judged by the song it names: another artist or version, or a chart with another level or note count, sets it aside for that reason; any other is added to its song or makes it, and no other song changes. |
| FederationVerdicts.DqnVerdicts | crates/scorepeek-catalog-publisher/src/federation.rs:457-540 | An admitted dqn snapshot that loses a bound name sets every record aside; otherwise exactly the records that name one song bind their name and pack to it, and the others are set aside for naming none or several. |
| FederationAdditions.MergedTachiAdds | crates/scorepeek-catalog-publisher/src/federation.rs:205-281 | A Tachi record adds to its song just the titles, charts, assertions and attributes it did not have, and the flag. |
| FederationAdditions.NewSongIsTheRecord | crates/scorepeek-catalog-publisher/src/federation.rs:181-204 | A song made from a Tachi record has just what the record says. |
| FederationAdditions.MergedTextageAdds | crates/scorepeek-catalog-publisher/src/federation.rs:409-446 | A Textage record adds to its song just its title, its binding with the attributes, and the charts and assertions it did not have. |
| FederationAdditions.WithChartsAdds | crates/scorepeek-catalog-publisher/src/federation.rs:631-655 | A chart already there keeps its level and note count, a chart that is not is added as listed, and a listing no earlier evidence of the source makes becomes an assertion. |
| FederationOutcome.RefusedIsSetAside | crates/scorepeek-catalog-publisher/src/federation.rs:542-580 | A snapshot that is not admitted leaves the catalog alone and one entry for the snapshot as a whole. |
| FederationOutcome.AdmittedIsLatest | crates/scorepeek-catalog-publisher/src/federation.rs:146-180 | The evidence of an admitted snapshot is recorded and becomes the latest of its source, and no other evidence changes. |
| FederationOutcome.OutcomeHolds | crates/scorepeek-catalog-publisher/src/federation.rs:657-731 | At the end a song is confirmed present exactly when it is primary or a dqn name stands for it, the evidence kept is exactly the evidence that is cited, and beside that the catalog is what the sources left. |
| FederationRepeat.FederateTwiceExactly | crates/scorepeek-catalog-publisher/src/federation.rs:119-136 | Federating the same Tachi and dqn snapshots twice, without Textage, gives the same catalog and the same quarantine as federating them once, exactly unless the Tachi snapshot was refused for its size against evidence that the admitted dqn snapshot replaces by evidence with no more records than it has. |
| FederationRepeat.FederateTwice | crates/scorepeek-catalog-publisher/src/federation.rs:119-136 | So twice is once for every catalog whose latest Tachi evidence is not filed under a dqn id. |
| FederationRepeat.MisfiledLatestDiffers | crates/scorepeek-catalog-publisher/src/federation.rs:559-580 | The other case happens: a concrete catalog and input whose second federation differs. |
| FederationRepeat.ValidIsFiledApart | crates/scorepeek-core/src/catalog/model.rs:295-327 | Every valid catalog is like that. |
| FederationRepeat.TachiFoldTwice | crates/scorepeek-catalog-publisher/src/federation.rs:146-281 | A second pass over the same Tachi records changes nothing and quarantines the same records. |
| FederationRepeat.FinishTwice | crates/scorepeek-catalog-publisher/src/federation.rs:657-731 | Refreshing and pruning are settled after one round. |
| ScoreFacts.Cumulative | crates/scorepeek-scores/src/facts.rs:84-96 | In place, each of three slots of the array takes the better of its value and the incoming one; the other slots stay. |
| ScoreFacts.AccumulatedIsBest | crates/scorepeek-scores/src/facts.rs:84-96 | Accumulating any plays from nothing finds the best value of each field: highest score, lowest miss count, highest clear. |
| ScoreFacts.BestIsUnique | crates/scorepeek-scores/src/facts.rs:77-83 | There is only one best value. |
| ScoreFacts.AccumulationIgnoresOrder | crates/scorepeek-scores/src/facts.rs:84-96 | The accumulated values do not depend on the order or the multiplicity of the plays. |
| ScoreFacts.AccumulatedIsFirst | crates/scorepeek-scores/src/facts.rs:84-96 | The accumulated fact, origin included, is that of the first play with the best value. |
| ScoreFacts.ChooseBest | crates/scorepeek-scores/src/facts.rs:97-110 | The inner loop finds the best of the three sources, the first of them on a tie. |
| ScoreFacts.Integrate | crates/scorepeek-scores/src/facts.rs:97-119 | In place, the three integrated slots are recomputed from the nine source slots, keeping an origin that is still a source of the best value. |
| ScoreFacts.IntegratedIsBest | crates/scorepeek-scores/src/facts.rs:97-119 | An integrated slot holds the best value among its sources, whatever it held before, and the sources stay. |
| ScoreFacts.IntegratedFact | crates/scorepeek-scores/src/facts.rs:97-119 | An integrated slot keeps its fact exactly as long as that is a fact of one of the sources with the best value; otherwise it takes that of the first source with it. |
| ScoreFacts.IntegrationOfValues | crates/scorepeek-scores/src/facts.rs:97-119 | The integrated values are a function of the source values. |
| ScoreStore.SaveFacts | crates/scorepeek-scores/src/migration.rs:290-307 | The facts of a play are replaced as a whole, read back as they were saved, and other plays keep theirs. |
| ScoreStore.Store.Open | crates/scorepeek-scores/src/store.rs:104-107 | Opening leaves no play provisional: each that was is confirmed and marked as recovered with nothing else of it altered, every other row and table stays, and the count is nothing exactly when the database is as it was. |
| ScoreStore.Store.Consume | crates/scorepeek-scores/src/store.rs:145-241 | In place, one event has the outcome of the specification, whose effect on rows, facts, view and cursor the theorems of `ScoreReports` and `ScoreDeliveries` state; unless it was committed the tables are unchanged, and after an error so is the cursor. |
| ScoreStore.ApplyResultMutation | crates/scorepeek-scores/src/store.rs:265-311 | The upsert and the retraction change the four tables as specified, with the error cases; the play of the attempt is there afterwards or gone, and every other play, every first sighting and the view stay. |
| ScoreStore.RecomputeResultFacts | crates/scorepeek-scores/src/store.rs:313-333 | The loop over the rows accumulates the live plays of the chart into six empty slots and leaves the others alone. |
| ScoreStore.UpdateFacts | crates/scorepeek-scores/src/store.rs:197-231 | The facts of the named chart after an event: recomputed from the plays or overlaid by the selection, then integrated. |
| ScoreRuns.ValidateBests | crates/scorepeek-scores/src/migration.rs:364-449 | The check from scratch accepts exactly the databases in which every row of the view has the values of its plays and select facts. |
| ScoreRuns.ResultEventRefreshesItsChart | crates/scorepeek-scores/src/store.rs:145-241 | After every consumed result event the row of the named chart agrees with a fold from scratch, whatever the view was before. |
| ScoreRuns.SelectEventKeepsAgreement | crates/scorepeek-scores/src/store.rs:222-231 | After a select event the row of the named chart agrees exactly when it did before or did not exist: a select event does not repair a stale row. |
| ScoreRuns.ConsumeKeepsBestsIff | crates/scorepeek-scores/src/store.rs:145-241 | One event keeps the whole view right exactly when the chart that loses a play by it, if there is one, has the same bests without that play. |
| ScoreRuns.RunKeepsBestsExactly | crates/scorepeek-scores/src/store.rs:145-333 | Over every run of opening and consuming from a fresh database, the whole database passes the check from scratch at every point exactly when no event that takes effect takes from another chart a play that its bests need. |
| ScoreRuns.RunKeepsBests | crates/scorepeek-scores/src/store.rs:145-333 | So it does at the end of every run in which no event that takes effect takes a live play from another chart. |
| ScoreRuns.ViewShowsBestPlays | crates/scorepeek-scores/src/store.rs:313-333 | In every such run the stored bests of a chart are the highest score, the lowest miss count and the highest clear of its live plays, and are absent exactly when no play has a value. |
| ScoreRuns.SilentMoveLeavesStaleBests | crates/scorepeek-scores/src/store.rs:286-293 | Two deliveries that detect one attempt first on one chart and then on another leave the first chart with stale bests. |
| ScoreRuns.RunInvariant | crates/scorepeek-scores/src/store.rs:145-311 | In every run live plays have distinct event ids, first-seen identities, their facts and a row in the view, and the integrated slots follow from the source slots. |
| ScoreRuns.ConfirmedSurvives | crates/scorepeek-scores/src/store.rs:286-308 | A confirmed play survives every later event and reopening, and only another confirmation of it alters it. |
| ScoreRuns.PlaysKeepFirstSeen | crates/scorepeek-scores/src/store.rs:271-285 | Every live play carries the event id and both times of the first accepted upsert of its attempt, across retraction, re-detection and reopening. |
| ScoreReports.DetectionIsStored | crates/scorepeek-scores/src/store.rs:265-311 | A consumed detection that takes effect leaves the row of its attempt and the facts beside it saying what the result says: score, miss count and clear rank of the play, the three values of the previous best, chart, side, state and document; one that does not take effect changes none of it. |
| ScoreReports.RetractionIsStored | crates/scorepeek-scores/src/store.rs:265-311 | A consumed retraction takes away the play of its attempt unless it is confirmed, and no other. |
| ScoreReports.ResultIsConsumedExactly | crates/scorepeek-scores/src/store.rs:145-241 | A result event is consumed exactly when it is addressed to a session, not behind the stream, of the known contract with a matching song and known clears, within the integers of the table, storable if it takes effect, and its event id is not taken. |
| ScoreReports.SelectionIsStored | crates/scorepeek-scores/src/store.rs:222-231 | A consumed selection sets the selected slots of its chart by what was observed: a value replaces, a shown absence of a record empties, anything else keeps; it touches no play and no other chart. |
| ScoreReports.RowsAreReported | crates/scorepeek-scores/src/store.rs:145-311 | In every run the plays are exactly those of the standing reports, which are read off the deliveries alone, and each row says what the last report on its attempt said. |
| ScoreReports.BestsAreReported | crates/scorepeek-scores/src/store.rs:145-333 | In every run without an effective silent move the bests of a chart are the best of the values that the standing reports on it give. |
| ScoreDeliveries.DeliveryIsAnswered | crates/scorepeek-scores/src/store.rs:145-241 | An error leaves database and cursor alone, an event behind the cursor changes nothing, and any other moves the cursor to itself and changes the database only when it names a chart. |
| ScoreDeliveries.SelectionIsConsumedExactly | crates/scorepeek-scores/src/store.rs:145-241 | A selection is consumed exactly when it is addressed, new and of the contract the store knows. |
| ScoreDeliveries.ResultKeepsSelection | crates/scorepeek-scores/src/store.rs:197-231 | A consumed result shows its song on its chart, keeps what was selected there, and leaves every other chart of the view. |
| ScoreDeliveries.EarliestPlayIsShown | crates/scorepeek-scores/src/store.rs:313-333 | The recomputed fact of a field is that of the earliest play with the best value, by emission time and then by event id. |
| ScoreDeliveries.DetectionNamesItsOrigin | crates/scorepeek-scores/src/facts.rs:165-202 | The facts stored with a detection name their source and that very event, the result facts and the previous-best facts each their own. |
| ScoreDeliveries.SelectionNamesItsOrigin | crates/scorepeek-scores/src/facts.rs:236-262 | A slot that a selection sets names the selection screen, that event, and its observation. |
| Text.UnescapeInvertsEscape | crates/scorepeek-scores/src/structured.rs:58-60 | Unescaping an escaped token gives the token back (section 4 of RFC 6901). |
| Structured.PointerOfEncode | crates/scorepeek-scores/src/structured.rs:88-96 | Looking up an encoded path splits it into exactly the tokens it was made of. |
| Structured.EncodeInjective | crates/scorepeek-scores/src/structured.rs:26-56 | Distinct nodes have distinct paths. |
| Structured.AncestorFirst | crates/scorepeek-scores/src/structured.rs:62-65 | A parent row is listed before the rows of its descendants, whatever characters the path holds. |
| Structured.SiblingOrder | crates/scorepeek-scores/src/structured.rs:62-65 | Array elements are listed in index order, past index 9 too; below a key with a NUL up to index 9. |
| Structured.TenBeforeTwo | crates/scorepeek-scores/src/structured.rs:62-65 | Below a key with a NUL element 10 is listed before element 2, because the length of a text counts up to its first NUL. |
| AttributeTable.Attributes.Save | crates/scorepeek-scores/src/structured.rs:18-24 | The rows of the event are replaced by one row per node of the value, and no other event is touched; it fails exactly on a number that is not an i64. |
| AttributeTable.Attributes.Write | crates/scorepeek-scores/src/structured.rs:26-56 | The recursion inserts exactly the rows of the subtree, under keys that are new. |
| AttributeTable.Attributes.WriteFields | crates/scorepeek-scores/src/structured.rs:43-47 | The loop over the fields writes the rows of all fields, or fails with the first bad number. |
| AttributeTable.Attributes.WriteItems | crates/scorepeek-scores/src/structured.rs:48-52 | The loop over the elements writes the rows of all elements under their indices. |
| AttributeTable.Attributes.Load | crates/scorepeek-scores/src/structured.rs:62-113 | The loop over the sorted rows rebuilds the value step by step, and stops at the first row that does not fit. |
| AttributeTable.Attributes.SaveThenLoad | crates/scorepeek-scores/src/structured.rs:18-113 | Saving and loading gives the value itself, an error for the one unloadable family, and never nothing. |
| StructuredRoundTrip.RoundTrip | crates/scorepeek-scores/src/structured.rs:18-113 | Loading the saved rows returns the value exactly when no array of more than ten elements stands below a key with a NUL; in that case it reports an error. |
| StructuredRoundTrip.NulFreeRoundTrip | crates/scorepeek-scores/src/structured.rs:18-113 | Every value with i64 numbers and NUL-free keys comes back exactly. |
| StructuredRows.RowsSayTheValue | crates/scorepeek-scores/src/structured.rs:26-60 | The rows of a value are one for each node under its JSON pointer (section 3 of RFC 6901, elements by their numeral), and each has the kind, the text and the integer of its node. |
| SnapshotRoundTrip.RoundTripExactly | crates/scorepeek-catalog-publisher/src/snapshot.rs:184-391 | For every consistent catalog whose assertions do not clash on their primary key the written rows can be read, and give the identical catalog exactly when no part that exists only through its rows is empty. |
| SnapshotStore.ValidIsConsistent | crates/scorepeek-core/src/catalog/model.rs:288-553 | Validation excludes every catalog whose rows would lose something. |
| SnapshotStore.WriteThenRead | crates/scorepeek-catalog-publisher/src/snapshot.rs:169-182 | What was written for a validated catalog is read, validated and returned as the identical catalog. |
| SnapshotColumns.FileSaysTheCatalog | crates/scorepeek-catalog-publisher/src/snapshot.rs:184-459 | A catalog is written exactly when it is valid and no assertions clash, and then each of the thirteen tables holds one row for every fact and no other, column by column in the texts of the file format. |
| SnapshotStore.WriteAssertions | crates/scorepeek-catalog-publisher/src/snapshot.rs:295-331 | The nested loops fail exactly on two assertions of one chart that differ only outside the primary key, and otherwise insert the rows of all assertions and product versions. |
| SnapshotConstraints.KeyRepeatsExactly | crates/scorepeek-catalog-publisher/src/snapshot.rs:20-140 | Of all the rows a valid catalog is written as, in every table, two have one primary key only if they are of two assertions of one chart with the same evidence and chart id, and some two have exactly when the catalog has such assertions. |
| SnapshotConstraints.OnlyAssertionsClash | crates/scorepeek-catalog-publisher/src/snapshot.rs:53-141 | A valid catalog meets the UNIQUE and CHECK constraints: no two songs have one Tachi id, no two bindings one source key, and every pack row is of one of the two kinds; it clashes exactly when two items of the assertion table share their key columns. |
| SnapshotConstraints.TitleRowsDiffer | crates/scorepeek-catalog-publisher/src/snapshot.rs:63-70 | Different titles have different rows, so that the insertion of one cannot meet the other. |
| SnapshotConstraints.ProductRowsDiffer | crates/scorepeek-catalog-publisher/src/snapshot.rs:90-100 | Product versions with one row are the same version of the same assertion or of two that clash. |
| SnapshotConstraints.EvidenceRowsDiffer | crates/scorepeek-catalog-publisher/src/snapshot.rs:108-114 | Different evidence of bindings has different rows. |
| SnapshotConstraints.AttributeRowsDiffer | crates/scorepeek-catalog-publisher/src/snapshot.rs:115-123 | Different attributes have different key columns. |
| SnapshotConstraints.DqnRowsDiffer | crates/scorepeek-catalog-publisher/src/snapshot.rs:130-139 | Different packs of names have different rows. |
| FederationKeys.FederateNeverClashes | crates/scorepeek-catalog-publisher/src/federation.rs:631-655 | Federating brings no clash of assertion keys into a catalog that has none, because a chart id occurs with one set of versions in a snapshot and an evidence id determines what it says. |
| FederationKeys.FederatedCanBeWritten | crates/scorepeek-catalog-publisher/src/snapshot.rs:295-331 | What a federation makes of a valid catalog without a clash can always be written, as the rows of that catalog. |
| SnapshotRoundTrip.EvidenceKeyParses | crates/scorepeek-resources/src/store.rs:1156-1174 | The evidence key of a well-formed evidence id parses back to it. |
| SnapshotRoundTrip.RowDetermines | crates/scorepeek-catalog-publisher/src/snapshot.rs:14-141 | Without a clash the key columns of an assertion row determine song, chart and assertion. |
| SnapshotReader.DigestParses | crates/scorepeek-resources/src/store.rs:1156-1174 | A digest column that parses is the evidence key of what it parses to. |
| SnapshotReader.Reader.ReadSourceEvidence | crates/scorepeek-resources/src/store.rs:732-811 | The loop reads every evidence row with its authority rows, and refuses exactly the tables with a malformed row. |
| SnapshotReader.Reader.ReadLatestEvidence | crates/scorepeek-resources/src/store.rs:812-835 | The second loop reads the latest evidence of each source. |
| SnapshotReader.Reader.ReadSongRows | crates/scorepeek-resources/src/store.rs:679-711 | Every song row gives a song with no parts yet; an unknown status ends the read. |
| SnapshotReader.Reader.ReadTitleRows | crates/scorepeek-resources/src/store.rs:837-867 | Every song gets exactly the titles of its rows; a row with an unknown song, source, kind or key ends the read. |
| SnapshotReader.Reader.ReadChartRows | crates/scorepeek-resources/src/store.rs:869-894 | Every song gets exactly the charts of its rows, with level and note count in range. |
| SnapshotReader.Reader.ReadAssertionRows | crates/scorepeek-resources/src/store.rs:896-955 | Every chart gets exactly the assertions of its rows, each with the product versions listed for it. |
| SnapshotReader.Reader.ReadBindingRows | crates/scorepeek-resources/src/store.rs:957-981 | Every song gets exactly the bindings of its rows. |
| SnapshotReader.Reader.ReadBindingEvidenceRows | crates/scorepeek-resources/src/store.rs:1038-1064 | Every binding gets exactly the evidence of its rows. |
| SnapshotReader.Reader.ReadAttributeRows | crates/scorepeek-resources/src/store.rs:1066-1099 | Every binding gets exactly the attributes of its rows, evidence by evidence. |
| SnapshotReader.Reader.ReadDqnRows | crates/scorepeek-resources/src/store.rs:983-1036 | Every listed name gets its song and exactly the packs of its evidence rows. |
| SnapshotReader.ReadTables | crates/scorepeek-resources/src/store.rs:677-723 | The loops in their order return what the tables say, or refuse exactly the tables with a malformed row. |
| SnapshotReader.ReadFile | crates/scorepeek-resources/src/store.rs:644-730 | With validation at the end the reader returns the catalog of the tables exactly when they are well formed and it is valid. |
| ActivationSafety.RunIsSound | crates/scorepeek-resources/src/store.rs:118-140 | Over every interleaving of processes with crashes and power losses at any step the directories, the generations and the lock holder stay consistent. |
| ActivationSafety.StoreStaysBounded | crates/scorepeek-resources/src/store.rs:515-562 | In every run, however often processes die and power fails, the store holds at most 32 generations and 512 MiB. |
| ActivationSafety.GenerationsAreComplete | crates/scorepeek-resources/src/store.rs:359-403 | A generation that can be seen, now or after a power loss, is complete, durable, and has the bytes of its digest. |
| ActivationDurability.SafeExactly | crates/scorepeek-resources/src/store.rs:405-448 | In every reachable state the catalog loads after every possible power loss exactly when every manifest that may survive names a generation whose directory entry has been synced. |
| ActivationDurability.ActivationIsSafeExactly | crates/scorepeek-resources/src/store.rs:437-443 | Swapping the active manifest keeps that safety exactly when the generation it names has been synced into place. |
| ActivationExact.RunIsSafeExactly | crates/scorepeek-resources/src/store.rs:118-448 | The catalog loads after a power loss at any step of a run exactly when every manifest the run swaps in names a generation whose directory entry has been synced by then. |
| ActivationHistory.CompletedUpdateStays | crates/scorepeek-resources/src/store.rs:437-445 | Once an update has completed, every power loss before the next swap leaves the manifest with its digest. Which updates complete is `ActivationProgress.UpdateCompletesExactly`. |
| ActivationProgress.UpdateCompletesExactly | crates/scorepeek-resources/src/store.rs:359-448 | A process that has just taken the lock can complete its update, leaving the manifest with the digest of the request, exactly when the request can be served from the store as it is: bytes within the limit that have the digest, with the generation there already with such bytes or room for one more, or a refresh of the active digest. |
| ActivationProgress.WorkStaysAlong | crates/scorepeek-resources/src/store.rs:359-448 | All the way the store shows what it showed when the lock was taken, but for the generation being placed, so that no check on the way turns on anything the holder did. |
| ActivationProgress.ServableBecomesActive | crates/scorepeek-resources/src/store.rs:118-448 | Whenever the lock is free, whatever crashed before, a request that can be served from the store can become its active catalog. |
| ActivationHistory.SurvivorIsRecent | crates/scorepeek-resources/src/store.rs:437-445 | In every run, what a power loss leaves is the manifest of the last completed update or of one that swapped the manifest after it, and there is none only when no update has ever completed. |
| ActivationHistory.NeverWithoutCatalog | crates/scorepeek-resources/src/store.rs:437-445 | Once an update has completed, no later step of any process and no power loss leaves the store without an active manifest. |
| ActivationHistory.ReadersSeeOldOrNew | crates/scorepeek-resources/src/store.rs:118-448 | When every process takes the lock with no generation renamed since it synced the content directory, a reader after a power loss sees the last completed catalog or one swapped in after it, complete and with the matching digest. |
| ActivationDurability.FreshRunsAreSafe | crates/scorepeek-resources/src/store.rs:118-140 | When every process takes the lock with no generation renamed since it synced the content directory, the active manifest names a complete generation with the matching digest at every step and after every power loss. |
| ActivationRuns.StaleSyncIsUnsafe | crates/scorepeek-resources/src/store.rs:119-130 | Without that the promise fails: an update that waited for the lock completes on a generation whose rename was never synced, and a power loss leaves a manifest that names nothing. |
| ActivationDurability.RunKeepsFiles | crates/scorepeek-resources/src/store.rs:417-443 | Every manifest that may turn out to be the active one was synced before it was renamed into place. |
| OverlayConsumer.ValidRecordFolds | crates/scorepeek-overlay-runtime/src/consumer.rs:224-251 | A record that validation accepts is folded into any view. |
| OverlayConsumer.EventKeepsStream | crates/scorepeek-overlay-runtime/src/consumer.rs:115-182 | Folding an event never moves the stream position, the invocation or the connection. |
| OverlayConsumer.AcceptedExactly | crates/scorepeek-overlay-runtime/src/consumer.rs:32-113 | A snapshot is refused only by its validation, a live record only by its validation or its place in the stream; neither fails half way through the fold. |
| OverlayGrammar.ValidationIsTheGrammar | crates/scorepeek-overlay-runtime/src/consumer.rs:224-529 | Validation accepts a record exactly when it follows the grammar of the public records, member by member for each event. |
| OverlayGrammar.LiveIsTakenExactly | crates/scorepeek-overlay-runtime/src/consumer.rs:94-107 | A live record is taken exactly when it follows the grammar and is the next of the stream of a connected view. |
| OverlayGrammar.SnapshotIsTakenExactly | crates/scorepeek-overlay-runtime/src/consumer.rs:38-93 | A snapshot is taken by any view exactly when it is of the invocation, its status follows the grammar, and each retained record is of its kind, follows the grammar and comes before the next sequence. |
| OverlayDisplay.ResultShows | crates/scorepeek-overlay-runtime/src/consumer.rs:147-154 | A result record sets the signal lamp by its status, active from the first detection, an error after a retraction, and changes nothing else. |
| OverlayDisplay.StatusShows | crates/scorepeek-overlay-runtime/src/consumer.rs:166-200 | A status record sets the session and the system lamp by the watcher and the four dependencies; the end of a session also takes down chart, history and screen; everything else stays. |
| OverlayDisplay.ScreenRecordShows | crates/scorepeek-overlay-runtime/src/consumer.rs:117-131 | A screen record sets the screen, its suspension time and the next revision, and nothing else. |
| OverlayDisplay.SelectionShows | crates/scorepeek-overlay-runtime/src/consumer.rs:132-146 | A selection sets the chart and keeps the history exactly for the same chart; an unresolved one is only remembered. |
| OverlayDisplay.ScoreChangeShows | crates/scorepeek-overlay-runtime/src/consumer.rs:155-165 | A change of the score store moves the query revision exactly when it is about the shown chart, and nothing else. |
| OverlayDisplay.OtherRecordsShowNothing | crates/scorepeek-overlay-runtime/src/consumer.rs:179-181 | A record of any other event changes nothing. |
| OverlayDisplay.RetainedInOrder | crates/scorepeek-overlay-runtime/src/consumer.rs:51-60 | The retained records of a snapshot are folded in the order of their sequences. |
| OverlayDisplay.SnapshotShows | crates/scorepeek-overlay-runtime/src/consumer.rs:38-93 | Everything an accepted snapshot shows is decided by it: the position and the lamps by its status and result, the screen by its screen record, the chart by its selection, save for the one case in which the chart shown before is kept. |
| OverlayDisplay.GracePeriod | crates/scorepeek-overlay-runtime/src/consumer.rs:202-221 | A shown screen survives a lost connection for exactly the grace period, counted from its suspension if it had one. |
| OverlayRuns.LiveIsConsecutive | crates/scorepeek-overlay-runtime/src/consumer.rs:94-107 | In any run without an accepted snapshot the accepted live records are numbered consecutively from the position of the view. |
| OverlayRuns.LiveFollowsSnapshot | crates/scorepeek-overlay-runtime/src/consumer.rs:38-93 | After an accepted snapshot the accepted live records are numbered from its next sequence, without gap or repetition, until the next snapshot. |
| OverlayRuns.NothingAfterDisconnect | crates/scorepeek-overlay-runtime/src/consumer.rs:202-208 | After a disconnect no live record is accepted until a snapshot is. |
| OverlayRuns.LiveKeepsInvocation | crates/scorepeek-overlay-runtime/src/consumer.rs:94-107 | Live records carry the invocation of the snapshot that opened their stream. |
| OverlayRuns.ScreenChangesAreNumbered | crates/scorepeek-overlay-runtime/src/consumer.rs:115-222 | Away from a snapshot the screen shown changes only together with its revision. |
| Overlay.Consumer.FoldEvent | crates/scorepeek-overlay-runtime/src/consumer.rs:115-182 | The in-place fold succeeds exactly when the specified fold does, and then leaves exactly its view, which the theorems of `OverlayDisplay` state field by field. |
| Overlay.Consumer.Apply | crates/scorepeek-overlay-runtime/src/consumer.rs:32-113 | In place, an accepted record gives the specified consumer and a refused one changes no field. |
| Overlay.Consumer.ReplaceWith | crates/scorepeek-overlay-runtime/src/consumer.rs:38-93 | The snapshot branch builds its replacement from the retained slots in sequence order and swaps it in as a whole, or changes nothing. |
| Overlay.Consumer.AppendLive | crates/scorepeek-overlay-runtime/src/consumer.rs:94-107 | The live branch folds only the record that is next in the stream, and otherwise changes nothing. |
| Overlay.Consumer.Disconnect | crates/scorepeek-overlay-runtime/src/consumer.rs:202-208 | A lost connection starts the grace period of a shown screen, once, and moves the revision only then; what is shown stays. |
| Overlay.Consumer.ExpireScreen | crates/scorepeek-overlay-runtime/src/consumer.rs:210-221 | A screen suspended for the whole grace period is taken down, so none is left that was; nothing else changes. |
| SelectResolver.AcceptedIsRepeated | crates/scorepeek-core/src/recognition/music_select/best.rs:241-262 | A field accepts a value exactly when its last two observations since the reset are the same known outcome, and then accepts that one. |
| SelectResolver.SameIdSamePublication | crates/scorepeek-core/src/event/domain.rs:498-502 | Two observation ids are equal only for the same interval and revision, whatever the session and the episode. |
| SelectResolver.OneMorePublication | crates/scorepeek-core/src/event/domain.rs:469-513 | Appending a later publication keeps the log in order: intervals and revisions ascend, no id repeats, neighbours of one interval differ, no score is above twice the notes. |
| SelectResolver.Resolver.Hold | crates/scorepeek-core/src/event/domain.rs:375-382 | The fields start over while the last publication stays on display. |
| SelectResolver.Resolver.EndInterval | crates/scorepeek-core/src/event/domain.rs:384-390 | Nothing is selected and nothing is on display afterwards, and the revisions start over. |
| SelectResolver.Resolver.ObserveChart | crates/scorepeek-core/src/event/domain.rs:400-429 | Another chart starts the next interval; the invariant of the run holds, so only possible scores of the current chart are ever kept. |
| SelectResolver.Resolver.ObserveFrame | crates/scorepeek-core/src/event/domain.rs:392-398 | A confirmed chart is selected and keeps its publication only if it was selected before; a missing identity keeps the selection and what was published for it but starts the fields over; a conflicting one ends the selection and takes the publication down. |
| SelectResolver.Resolver.RecordValues | crates/scorepeek-core/src/event/domain.rs:407-428 | The fields take the values of the frame, an impossible score counts as unknown, and the output tells what is still missing. |
| SelectResolver.Resolver.PublishCandidate | crates/scorepeek-core/src/event/domain.rs:469-513 | It publishes exactly when the selected chart has accepted values other than the last ones published for it; what it publishes is later than everything before, has an id never used before, no score above twice the notes, and in each field just what the last two frames of the chart agree on. |
| Replay.CollectRetained | crates/scorepeek-corpus/src/canonical.rs:192-222 | The loop over the tick lines accepts exactly the chronological ticks whose elisions fit their screens and are no failures, and collects the retained sequences. |
| Replay.CoverSegments | crates/scorepeek-corpus/src/canonical.rs:226-262 | The cursor accepts exactly the segments that cover the retained frames, each with its first and last sequence and at least one frame. |
| Replay.ReadRecording | crates/scorepeek-corpus/src/canonical.rs:168-268 | The two loops accept exactly the recordings that are described. |
| Replay.TicksInOrder | crates/scorepeek-corpus/src/canonical.rs:192-222 | The ticks are accepted exactly when each is kept or left out for a reason that fits its screen, and any two are in order of sequence and time. |
| Replay.SegmentsPartition | crates/scorepeek-corpus/src/canonical.rs:226-262 | The ranges of the segments follow one another without overlap, and every retained sequence is in the one that holds its frame. |
| Replay.DecodeFrame | crates/scorepeek-corpus/src/replay.rs:404-440 | A retained tick of an accepted recording always finds a segment with a declared frame left, and takes its frame from the segment that holds it. |
| Replay.WalkBatch | crates/scorepeek-corpus/src/replay.rs:404-440 | A batch decodes each of its retained ticks from the segment that holds it, and fails only on a file with another number of frames than declared. |
| Replay.Walk | crates/scorepeek-corpus/src/replay.rs:319-591 | For an accepted recording and any batch size the walk decodes every retained tick, uses every segment to the end and succeeds exactly when the files yield the declared frames; no bookkeeping error can fire, nor the one for a field screen without pixels. |
| Replay.OwnerContains | crates/scorepeek-corpus/src/canonical.rs:226-262 | The range of sequences of the segment a frame is decoded from contains the sequence of its tick. |
| Canvas.SubtractCount | skins/infinitas/src/canvas.rs:11-44 | After a subtraction a point outside the hole is covered as often as before and a point inside it never. |
| Canvas.CutHole | skins/infinitas/src/canvas.rs:61-61 | Subtracting the hole from every region does the same for all of them. |
| Canvas.Background | skins/infinitas/src/canvas.rs:46-62 | Whatever the holes, every point of the canvas outside them is in exactly one region and every other point in none. |
| Canvas.TilesAreDisjoint | skins/infinitas/src/canvas.rs:46-62 | No two of the regions overlap. |
| Rank.RankThresholds | crates/scorepeek-skin-sdk/src/metrics.rs:30-47 | The thresholds exist exactly for 1 to 4294967295 notes, are the specified nine, and no product leaves 64 bits. |
| Rank.BoundaryReached | crates/scorepeek-skin-sdk/src/metrics.rs:30-33 | A boundary is the least score that reaches its share of the maximum. |
| Rank.ThresholdsAscend | crates/scorepeek-skin-sdk/src/metrics.rs:35-47 | The thresholds ascend, also where small charts make them coincide. |
| Rank.ScoreProgress | crates/scorepeek-skin-sdk/src/metrics.rs:49-65 | There is progress exactly for a possible score; its rank is the highest threshold reached and its rate the percentage rounded to within half a hundredth, with no overflow on the way. |
| Rank.RateRounds | crates/scorepeek-skin-sdk/src/metrics.rs:49-65 | The integer expression for the rate rounds to the nearest hundredth. |
| Rank.RankIsUnique | crates/scorepeek-skin-sdk/src/metrics.rs:49-65 | A score has only one rank. |
| Rank.NearestBoundary | crates/scorepeek-skin-sdk/src/metrics.rs:70-98 | The distance names one of the nine thresholds at minimal distance, the lower one on a tie and the maximum exactly at the maximum; there is none exactly when the supplied rank is not the rank of the score. |
| Rank.NeighboursAreNearest | crates/scorepeek-skin-sdk/src/metrics.rs:70-98 | No threshold is nearer than the two around the score, also when thresholds coincide. |
| Rank.SameRank | crates/scorepeek-overlay-runtime/src/data.rs:403-422 | Both implementations of the rank name the same rank for every score and chart. |

## Left out

Capture hand-off

- CaptureSafety.RunInv: each step is atomic and sequentially consistent; acquire and release orderings weaker than that are not modelled.
- CaptureSafety.RequestsAreAccountedFor: takes refused by an error before a capture are counted by the model only; clearing the four counters is one step although the source stores them one after the other.
- CaptureRecovery.ServiceCanResumeExactly: says that a way on exists, not that a scheduler takes it; a failed receive or send and an error before a capture is submitted may be on that way.
- CaptureSafety.DestroyWaitsForCopy: the wait for the present fence in the reset is not modelled, only the wait for the copy.
- Status and error packets, timestamps, format and memory-type selection, descriptor passing and the other driver calls are reduced to their success or failure and their effect on fences, layout and ownership.
- Reuse of a closed descriptor number, the handlers for C++ exceptions and the extra reset in the destructor are not modelled.
- The consumer is assumed to send one ACK for a READY it has received and to read only in between; it may also leave at any point.

Catalog federation

- FederationTheorems.FederateKeepsValid: assumes what the source adapters guarantee of their records (texts, levels, note counts, the bpm rule, distinct ids and chart keys) and that an evidence id determines what a song citing it says.
- FederationRepeat.FederateTwiceExactly: without a Textage snapshot, because the charts Textage adds feed its own count of matching charts.
- FederationKeys.FederateNeverClashes: assumes what the adapters guarantee of chart ids (one set of versions per chart id in a snapshot) and that an evidence id determines what an assertion citing it says.
- Normalisation to NFC is any idempotent function; the song id is taken to be an injective function of the Tachi id, and a song to be stored under its own id.
- The list of authoritative fields of a policy is a set, and the quarantine, which the source sorts at the end, is returned as a multiset.
- The semantic digest of a catalog, and the adapters that parse the three sources.

Score store

- ScoreStore.Store.Open: the schema migrations from older versions, the backup and the lock file are not modelled; opening is the recovery of provisional plays.
- ScoreStore.Store.Consume: takes the parsed envelope; parsing the JSON of an event and its schema checks are not modelled, and a transaction is one step.
- Columns that no query here reads (the stored event text, the play side, the latest event id) are carried only where a contract needs them.

JSON as rows

- AttributeTable.Attributes.Save: when it fails the event's rows may be partly written, as in the source, where the enclosing transaction is then dropped.
- Floating point numbers are an opaque image: the table refuses them.

Catalog snapshots

- SnapshotStore.WriteThenRead: note counts are assumed to fit 32 bits, as their type in the source does; byte sizes and record counts are unbounded.
- SnapshotStore.WriteAssertions: of the writer's loops only those over assertions and product versions, the one place where a key can clash (`SnapshotConstraints.OnlyAssertionsClash`), are written as loops; the rows of the other tables are set and map comprehensions.
- SnapshotReader.ReadFile: the SQLite identity, the quick check and the metadata row are not modelled; the text form of a song id is abstract.
- The iteration order of a query is arbitrary here, except where the source depends on it.

Activation

- ActivationProgress.UpdateCompletesExactly: says that the holder's steps can complete the update when no error of the file system, crash or power loss comes between.
- ActivationDurability.FreshRunsAreSafe: one direction; a run in which a sync was stale can still be safe when a later sync happens to cover it, and `ActivationExact.RunIsSafeExactly` says when.
- The creation of the store's directories and its permissions are not modelled; the lock is assumed to give mutual exclusion and to be released by the death of its holder.
- A power loss keeps what was synced and gives every other name one of its possible entries independently; partial writes of a manifest count as a manifest that was not synced.
- Removing old generations, reading a generation and the origin of a snapshot.

Smaller parts

- Overlay.Consumer.Apply: the parts of the display that the consumer never writes (best view, result detail, the contents of the history) are not modelled; error texts are one error.
- SelectResolver.Resolver.PublishCandidate: the counters are assumed to be below saturation; the derived rank, the layout name and the timing of a publication are not modelled, nor is the notification filter.
- SelectResolver.Resolver.Place: stands for the reducer that names the episode and suspends the resolver, which is not part of this model.
- Replay.Walk: a file is the number of frames it yields; digests, the probe of a segment, the exit status of the decoder and what is recognised in the frames are not modelled.
- Replay.ReadRecording: the integrity checks of the files beside the two loops are not modelled.
- Canvas.Background: coordinates are real numbers; all values that occur are exact in double precision.
- Rank.SameRank: the second implementation is modelled for a known score and chart.

Everything else in the repository: the domain reducer and its coordinator, screen recognition, the corpus store and its oracle labels, game versions, the command line, terminal and overlay interfaces, skins beyond the background, and the build scripts.
