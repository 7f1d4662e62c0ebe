# Trace store: model and proofs

The trace store keeps content-addressed records on ordered owner paths in SQLite. A batch of record
drafts is appended atomically: the store stages record ids, ordinals, append-local references, contexts
and witnesses, then inserts rows and moves counters. Readers build slices from path entries, frontiers
publish cuts of a path, executions and effective histories are projected from slices, and committed
batches are announced on an effect bus. Record ids are digests of a canonical JSON text that has to be
byte-identical to what CPython writes.

This project models that behaviour in Dafny and proves what it promises. `dafny verify dfyconfig.toml`
checks all of it.

## How the model is laid out

- **Bytes and JSON.** `Utf8`, `Numbers`, `Canonical`, `CanonicalLaws`, `Keys`, `Spelling`: Go strings as byte
  strings, the canonical writer in both escaping flavours, an independent reader for RFC 8259, the laws that
  relate them, and how the text is spelled byte for byte. `Graphs` and `GraphLaws` are the same writer over a heap of containers with ancestor marks.
- **Digests.** `Digests`, `Contexts`, `BatchLaws`, `BatchStaging`, `Redigests`. SHA-256 and `strconv.ParseFloat` are the
  two fields of `Kernel`. Results that need the hash to be injective say `CollisionFree(k)` or name the
  colliding texts; everything else holds for any hash function whatever.
- **The store.** `Tables` is the whole database as one value (`DB`) with the row operations and the schema's
  constraints as error branches; `log` is the order in which records were inserted. `Append` and `Frontiers`
  are the transactions as functions on `DB`. `Store`, `Preparing` and `TraceStore` are the same operations in
  the form the source has: nested loops, a class whose methods change its tables row by row, and rollback.
  Each is proved equal to its function.
- **Invariants and runs.** `Invariant`, `StagingLaws`, `Origins`, `StoreInvariant`, `Commits`, `WitnessLaws`, `Runs`,
  `Previews`, `Conservation`, `NewRows`, `CausalGraph`, `Addressing`, `WitnessFacts`, `FrontierFacts`,
  `Announcements`. `Origins` says what a record takes from its draft and group without the staging functions. A run is any finite sequence of appends and frontier
  publications, successful or failing, from the empty store. `StoreInv` needs no hypothesis; `Sound` adds
  witness, naming and frontier agreement and holds when the digest has no collisions.
- **When appends commit.** `Inserting` has the exact condition for each row operation, `Admission` the one for a whole
  append, with and without an assumption on the digest, `Publishing` the one for a publication, `Guards` what is refused at the door. `OneFacts` and
  `Instances` apply it to concrete runs from the empty store, which show that the hypotheses of the findings below
  can be met.
- **Reads and projections.** `WitnessWalk`, `Slices`, `Reading`, `Closure`, `PathReads`, `Cuts`, `Executions`,
  `Histories`, and `SliceFacts` and `HistoryFacts`, which say what slices and histories tell in terms of the tables
  and payloads alone.
- **The bus.** `Bus` is a machine of micro-steps: publishers hold a read lock and interleave try-send, drain
  and retry with each other and with receivers. `EffectBuses` is the bus as an object that runs the micro-steps
  of one method without interference.

## Findings

Places where an obvious statement is false of the code. Each has a lemma with the exact condition.

- A stored body does not always reproduce its record's id. A native float64 with an integral value below 1e21
  comes back as an integer token (`CanonicalLaws.IntegralFloatChanges`: 1.0 becomes 1), and a native float32
  comes back as its own shortest decimal, while the digest was taken over the digits of its float64 value
  (`CanonicalLaws.NarrowFloatChanges`: the float32 nearest to 0.1). `CanonicalLaws.StoredTextUnchanged` and
  `Redigests.RecordRedigests` state exactly when the text and the id survive. This contradicts the comment at
  store_json.go:58-65, which speaks of reproducing the id without this restriction.
- Equal record ids do not mean an append is accepted: a retained record is compared by its stored text, which spells
  numbers as they came. Without collisions it is accepted exactly when the stored bodies are the same
  (`Addressing.AcceptedExactlyOnSameText`, and `Admission.CommitsExactly` for a whole append). `Instances.SpellingRefused`
  appends a note with the native float 1.0 and has the same note with the token 1.0 refused under the same id.
- A terminal frontier names its through fact only if that fact carries the target's execution id or none
  (`Executions.TerminalFrontier`). A started fact after a terminal one sets the status back to running
  (`Executions.StatusIsLast`). `Instances.TerminalElsewhere` publishes a frontier whose completed through fact names
  another execution.
- The shape inside an external anchor can change after publication; only the anchor references of a cut are
  stable. `Cuts.AnchorShapeLater` states exactly when the anchor stays the same, and `Instances.AnchorMoves` appends a
  fact whose anchor changes.
- `ExecutionIDFor` and `RelationIDFor` join two fields with a NUL. The joined text stands for another pair
  exactly when a field contains NUL (`Contexts.JoinIsAmbiguousExactlyOnNul`). `contextIDFor`'s three-field text
  is never ambiguous (`Contexts.PreimageIsInjective`).
- A batch that writes to the path `kernel:witness` commits only if all its witnesses are retained: a new witness takes
  the ordinal the fact was staged for. Otherwise it commits exactly when any batch would
  (`Admission.WitnessPathIsReserved`). `Instances.WitnessPathRefused` is such a batch, staged and refused at the empty
  store.

## Model

| member | source | states |
|---|---|---|
| Commits.CommitKeeps | store_append.go:108-193 | A successful commit keeps the store invariant (dense paths, every record on a path, edges equal to caused_by with positions, parents inserted earlier, contexts retained, commit receipts dense and rising, every intent row the record of its batch), changes nothing retained, and leaves an intent row whose receipt describes exactly this batch: each id a record with its draft's content, causes, context and witness, the edges, the commit receipts, one context for each group, and owner ranges that hold exactly the batch's places, in order. |
| Runs.AppendKeeps | store_append.go:108-193 | Whatever an append returns Ok, the invariant holds after it, nothing retained changes, and the returned receipt is the one stored under the intent. |
| Runs.AppendToKeeps | store_append.go:21-54 | A failed append leaves the tables as they were; a successful one keeps the invariant. |
| Runs.PublishKeepsInv | store_frontier.go:107-208 | Publishing a frontier keeps the store invariant and everything retained, with no assumption on the digest. |
| Runs.PublishKeeps | store_frontier.go:107-208 | Without digest collisions a published frontier has a row that agrees with its retained frontier fact, names the requested target and through fact, and leaves all other frontiers alone. |
| Runs.RunKeeps | store_append.go:21-54 | Any sequence of appends and publications, failing or not, keeps the invariant and only adds to the tables. |
| Runs.RunStaysSound | store_frontier.go:19-44 | The same for soundness: every non-root record's witness is retained earlier and cites the root, entries are named, frontier rows agree with their facts. |
| Runs.ReachableInv | store_append.go:108-359 | Every state reached from the empty store satisfies the invariant, and is sound if the digest has no collisions. |
| Runs.RetryReturnsReceipt | store_append.go:108-135 | Once a batch is committed, retrying it after any run returns the original receipt and leaves the tables unchanged. |
| Runs.IntentIsSpent | store_append.go:117-135 | After any run, an append under a committed intent returns the original receipt if its digest payload is the committed one's and fails with an intent conflict otherwise, never changing the tables. |
| Runs.SameBatchDigest | store_append.go:533-575 | Two batches have the same batch digest exactly when their digest payloads mean the same. |
| Runs.EmptyIsSound | store_schema.go:72-158 | The empty store is sound. |
| Previews.PreviewAgrees | store_append.go:361-402 | If an append commits a new batch, the preview returns the same ids in the state before it and in every state after it. |
| Conservation.EntriesAreCounted | store_record.go:181-200 | In every reachable state the owners' next ordinals sum to the number of path entries. |
| Conservation.CommitsAreCounted | store_append.go:577-587 | In every reachable state the commit receipts are commit:0 to commit:next-1, each on exactly one entry, and they rise along every owner path. |
| Conservation.ReceiptStaysTrue | store_append.go:206-340 | After a new batch commits, in every later state its ids stand on their drafts' owner paths under the next commit receipts, each a record with its draft's schema, mode, body and label, its causes, its context and its witness; the causal edges list exactly the records' causes, record by record; the context receipts name one context for each group with drafts; and each owner's range holds exactly the batch's places on that path, in order, even with interleaved groups. |
| Conservation.CausesStayTrue | store_append.go:434-475 | In every state after a commit the record of the n-th draft is caused by exactly the group's causal parents, then the draft's own causes, then for each append-local reference the record of the earlier draft that bears it, in this order and without repeats, and each of them was inserted before it. |
| Commits.EdgesListCauses | store_append.go:325-327 | The edges of a receipt are every cause of every record, paired with that record, at the position that the causes before it give. |
| Origins.BatchStaged | store_append.go:236-310 | Every staged fact has the causes its draft and group name, is placed in the context its group asks for (a retained one, its own draft's fields, or the default ones), and cites the ordinary witness of that context. |
| Origins.BatchSpanned | store_append.go:236-257 | Staging lists one context for each group that has drafts, and every draft of the group is placed in it. |
| NewRows.AppendAddsOnly | store_append.go:108-193 | A new append adds the records and path entries of its drafts and of root and ordinary witnesses on the witness path, and no others, all under its intent; what was retained is unchanged. |
| Announcements.BatchAnnounced | store_append.go:59-95 | The bus is told of every draft in order: the n-th event has the n-th id and the n-th draft's owner, mode, schema, label and payload, and its explicit causal parents. |
| WitnessFacts.WitnessDeterminesContext | store_witness.go:184-216 | Without collisions two ordinary witnesses have one id exactly when their actors are equal and their contexts differ at most in id. |
| Guards.AppendsNeedTrust | store_append.go:601-606 | Appends and publications succeed exactly when the caller is trusted and the transaction succeeds; without trust the tables stay as they are. |
| Guards.MalformedRefused | store_append.go:404-432 | A batch without intent or owner, with a bad mode, schema or payload, or with an append-local id used twice, is refused whatever the tables hold. |
| Guards.ReadsAreGuarded | store_read.go:476-509 | Cuts and closures are refused without the right to the visibility, and then for an unknown filter or policy. |
| Guards.ProjectsExactly | execution.go:216-235 | A slice projects exactly when it shows payloads in both modes and holds every fact of the target's path; the cutoff is the one given, the slice's own, or the end of the path. |
| Guards.PublishesTerminals | execution.go:190-214 | An execution frontier is published exactly when the through fact is a retained completion or failure and the publication itself succeeds. |
| FrontierFacts.PublicationRetains | store_frontier.go:107-208 | A publication cuts at the last place of the through fact on the target's path. A new frontier's fact is retained on the publisher's path (the target's unless another is named), under the publication's intent, in a context with the caller's authority, and is caused by the through fact and then the causes given; an existing frontier is returned as it is. |
| Addressing.RecordsAreAddressed | store_append.go:274-300 | In every reachable state every retained record, witness or fact, is stored under the digest of the record that was appended. |
| Addressing.RetainedRecordRedigests | store_json.go:53-77 | In every reachable state a retained row re-digests to its id if its original body's native floats keep kind and value, and, without collisions, only then. |
| Addressing.SameIdSameRecord | canonical.go:656-710 | Without collisions two records under one id agree in schema, mode, witness and causes, and their bodies mean the same. |
| Addressing.ReusedWitnessAgrees | store_witness.go:232-236 | The code does not compare bodies when it reuses a retained witness; without collisions the retained one matches the plan in every field, and its body means the plan's. |
| Addressing.AcceptedExactlyOnSameText | store_record.go:228-237 | Without collisions a record under a retained id is accepted exactly when its body is stored as the retained one. |
| Addressing.SpellingConflicts | store_record.go:228-237 | The concrete pair: 1.0 as a native float and as a token have one id, and the second is refused as different content. |
| CausalGraph.CausesAreAcyclic | store_append.go:589-599 | In every reachable state no fact is among its own direct or indirect causes. |
| CausalGraph.ClosureSucceeds | store_read.go:83-121 | In a sound state a valid closure read succeeds exactly when its roots are retained. |
| CausalGraph.PrefixSucceeds | store_read.go:29-76 | In a sound state every prefix read that passes its guards succeeds. |
| Admission.AppendSucceedsExactly | store_append.go:108-193 | Exactly when an append succeeds, for every batch and any hash function: shape and digest are valid, and either the intent is committed with that digest, or the batch can be staged, its staged contexts are new and distinct, every retained witness fits its plan, the witness path is not written to while a witness is new, and each fact's content fits what is retained under its id by then. |
| Admission.CommitsExactly | store_append.go:136-193 | In every reachable state, without collisions, a new batch that can be staged commits exactly when its staged contexts are new and distinct, it does not write to the witness path while it needs a new witness, and every fact is stored with the body already retained or staged under its id. |
| Admission.ContextsAreNew | store_context.go:205-244 | Staged contexts are always new and distinct, unless the first 32 digits confuse the context texts of two groups of the batch. |
| Admission.WitnessPathIsReserved | store_witness.go:267-310 | A new batch that writes to the witness path commits only if all its witnesses are retained, and, when its contexts and contents fit, exactly then. |
| Admission.SameDigestSameCommit | store_append.go:533-575 | If one of two batches with the same digest payload would commit in a state, the other would exactly when its bodies agree with what is stored there, and with the same receipt. |
| Publishing.PublishSucceedsExactly | store_frontier.go:107-208 | In every reachable state, without collisions, a publication succeeds exactly when the frontier has an id, the through fact is on the target's path, the frontier fact can be appended, and a frontier of that id, if there is one, already cuts there. The unique columns of the frontiers table never refuse one. |
| Inserting.ContextsInsert | store_context.go:271-284 | Contexts go in exactly when none is retained or staged twice. |
| Inserting.WitnessesInsert | store_witness.go:267-310 | Witnesses go in exactly when every retained one fits its plan, and leave exactly the records of the new ones. |
| Inserting.FactsInsert | store_record.go:202-266 | Facts go in exactly when their places are free and their contents fit what is retained under their ids by then. |
| Inserting.PlacesFree | store_append.go:206-216 | The staged places are free exactly when no fact is on the witness path or no witness has moved its counter. |
| OneFacts.OneFactCommits | store_append.go:108-193 | Off the witness path, a batch of one fact commits exactly when its stored body is the one retained under its id, if any. |
| OneFacts.PlanExists | store_witness.go:184-216 | With hexadecimal digests every context made of texts has an ordinary witness. |
| OneFacts.OneFactHasDigest | store_append.go:533-575 | A batch of one fact made of texts with a writable payload has a digest. |
| Instances.WitnessPathRefused | store_witness.go:267-310 | A first append to the witness path is staged and refused. |
| Instances.SpellingRefused | store_record.go:228-237 | After an append with the native float 1.0, the same note with the token 1.0 is staged under the same id and refused. |
| Instances.AnchorMoves | store_read.go:372-399 | A fact appended to one path and later to an earlier one is anchored differently afterwards. |
| Instances.TerminalElsewhere | execution.go:190-278 | A frontier through a completed fact of another execution is published, and in no later state does the projection name that fact as terminal. |
| Commits.IntentHoldsLater | store_append.go:117-135 | What an intent row records about its batch stays true in every later state. |
| Commits.CountersAdvanced | store_append.go:163-193 | Moving the owner counters past the inserted facts makes every path dense again. |
| StagingLaws.StageEstablishes | store_append.go:195-359 | Staging resolves each draft to one fact in order: causes known before use, contexts retained or staged, and, if no ordinary witness shares the root's id, an ordinary witness staged for every fact. |
| StagingLaws.RootWitnessExists | canonical.go:759-786 | The root witness record always has a digest, so its id always exists. |
| StagingLaws.CollisionFreeRoot | store_witness.go:184-230 | Without collisions no ordinary witness has the root witness's id. |
| WitnessLaws.CommitWitnessed | store_witness.go:267-310 | A commit leaves every non-root record with a witness retained before it that cites the root. |
| WitnessLaws.CommitNamed | store_append.go:404-432 | A commit keeps every path entry under a non-empty owner with a non-empty record id. |
| Invariant.InsertFactRowKeeps | store_record.go:202-266 | Inserting a fact row adds exactly one path entry and at most one record with its edges, and keeps the structural invariant. |
| Invariant.InsertWitnessesKeeps | store_witness.go:267-310 | Inserting witnesses keeps the invariant, moves only the witness path's counter, and retains every planned witness. |
| Invariant.AdvanceIsDense | store_append.go:163-193 | After the counters move, each owner's next ordinal has grown by its number of facts and the paths are dense. |
| Invariant.OwnersUnmoved | store_append.go:206-216 | Facts can be inserted only while their owners' next ordinals are what they were when the facts were numbered. |
| StoreInvariant.InsertedCommits | store_append.go:274-340 | The inserted facts carry the next commit numbers, so commit receipts stay dense. |
| StoreInvariant.InsertedCommitsRise | store_append.go:274-340 | Commit numbers keep rising along every path, even with interleaved groups of one owner. |
| BatchLaws.BatchDetermined | store_append.go:533-575 | The batch-digest payload determines the batch up to how payload values are spelled. |
| BatchLaws.ContextDetermined | store_context.go:178-203 | The printed context draft determines the draft, and tells a reused context from a new one. |
| BatchStaging.SameDigestSameReceipt | store_append.go:195-359 | Of two batches with digests over payloads that mean the same, both can be staged from a given state or neither can, and they stage the same receipt, record ids included. When the second commits is Admission.SameDigestSameCommit. |
| BatchStaging.BatchPayloadsWrite | store_append.go:533-575 | A batch that has a digest has only payloads the record digest can write. |
| BatchStaging.FlavoursWrite | canonical.go:164-249 | What one escaping flavour can write the other can. |
| Contexts.PreimageFields | store_context.go:142-161 | The last two NULs of a context-id text separate its fields, whatever the intent contains. |
| Contexts.PreimageIsInjective | store_context.go:142-161 | The digested texts of two contexts are equal exactly when intent, group index and payload are. |
| Contexts.SameContextID | store_context.go:142-161 | Two contexts share an id exactly when they are the same context or two different texts share the first 32 digits of their digests. |
| Contexts.JoinIsAmbiguousExactlyOnNul | execution.go:87-90 | The text of an execution or relation id stands for another pair exactly when one of its fields contains NUL. |
| Redigests.RecordRedigests | store_json.go:53-77 | A record read back re-digests to its own id if the native floats of its body keep kind and value, and, without collisions, only then. |
| Redigests.StoredTwice | store_json.go:53-77 | Storing a body that was read back changes nothing more. |
| TraceStore.SQLiteTraceStore.Append | store_append.go:21-54 | The object's append leaves the tables and result of the append function, publishes one event per draft for a newly committed batch, and touches the bus neither on failure nor on a retry nor when it is closed. |
| TraceStore.SQLiteTraceStore.AppendInTx | store_append.go:108-193 | The transaction body computes the append function's tables and result row by row. |
| TraceStore.SQLiteTraceStore.CommitTx | store_append.go:136-193 | Inserting intent, contexts, witnesses and facts and moving the counters has the effect of the commit function, or reports its error. |
| TraceStore.SQLiteTraceStore.InsertRecordIfMissingTx | store_record.go:224-266 | A retained id must name the same content; a new one gets its row, log entry and edges. |
| TraceStore.SQLiteTraceStore.InsertFactRowTx | store_record.go:202-222 | The record if it is new, then its path entry, under the schema's key, uniqueness and foreign-key constraints. |
| TraceStore.SQLiteTraceStore.InsertWitnessTx | store_witness.go:267-310 | A retained witness must match its plan; a new one takes the next place on the witness path. |
| TraceStore.SQLiteTraceStore.PublishAppendEvents | store_append.go:59-92 | Publishes the batch's events in draft order; append-local parents are not among their causal parents. |
| TraceStore.SQLiteTraceStore.PublishFrontier | store_frontier.go:19-44 | The object's publication leaves the tables and result of the publish function, and publishes no event. |
| TraceStore.SQLiteTraceStore.PublishFrontierInTx | store_frontier.go:107-208 | The transaction body: latest place of the through fact, the frontier batch, then the row. |
| TraceStore.SQLiteTraceStore.PublishExecutionFrontier | execution.go:190-214 | Only a completed or failed fact may be the through fact of an execution frontier. |
| TraceStore.SQLiteTraceStore.PreviewRecordIDs | store_append.go:97-106 | A preview returns the preview function's ids and changes nothing. |
| TraceStore.NextCommitSeq | store_append.go:577-587 | Scanning a batch's commit receipts yields one past the greatest number. |
| Preparing.PrepareAppend | store_append.go:195-359 | The nested loops with their maps of staged ids, local ids, ordinals and ranges stage exactly what the staging function does, or fail with its error. |
| Preparing.PreviewRecordIDs | store_append.go:361-402 | The preview loops return exactly the preview function's ids or error. |
| Store.ValidateBatchShape | store_append.go:404-432 | The loops accept exactly the batches with an intent, owners, valid modes, schemas and payloads, and distinct local ids. |
| Store.ResolveCauses | store_append.go:434-475 | The loops resolve explicit, group and append-local parents to the resolved causes, or refuse unknown references and duplicates. |
| Store.DeduplicateStrings | store_json.go:101-110 | First occurrences, in order. |
| Frontiers.StoredPayloadSays | store_frontier.go:249-297 | A frontier payload still says the same cutoff after it has been stored and decoded. |
| Frontiers.FrontierAgreesLater | store_frontier.go:210-247 | A frontier row that agrees with its fact agrees in every later state. |
| WitnessWalk.WitnessSupportClosure | store_witness.go:65-84 | On any store, corrupt or not, the walk terminates, succeeds exactly when every record's chain reaches a root witness through witness records, and returns the union of the chains, each witness once, in first-seen order. |
| WitnessWalk.ValidateWitnessChain | store_witness.go:86-129 | One start reference is accepted exactly when it has a chain; the support then gains exactly the chain's new witnesses in order, with memoised references skipped. |
| WitnessWalk.CollectSupport | store_witness.go:65-84 | Validating the records one after the other collects their chains without repeats in first-seen order. |
| WitnessWalk.ChainDistinct | store_witness.go:86-129 | A chain to the root visits no reference twice, so a repeated one means there is no chain. |
| WitnessWalk.ChainUnique | store_witness.go:86-129 | A reference has at most one chain. |
| WitnessWalk.WitnessSupport.Add | store_witness.go:41-47 | Adds a record, and its id to the order only when it is new. |
| Slices.SlicePartition | store_read.go:244-370 | For each loaded fact and each of its parents: the edge appears exactly when the parent is selected; otherwise, with anchors included, the parent is anchored exactly once; never both. The anchors stand in the order their facts are first met as parents. |
| Slices.FirstSeenOrder | store_json.go:101-110 | Of two values, the one that stands first after deduplication occurs before every occurrence of the other. |
| Slices.FlattensBack | types.go:321-336 | For facts loaded in path order, the owner paths in recorded order flatten back to exactly the loaded ids. |
| Slices.FactIDs | types.go:321-336 | FactIDs follows the recorded order when it covers the paths and the sorted owners otherwise. |
| Reading.BuildSlice | store_read.go:236-370 | The loops that fill the maps, order lists and edge lists build exactly the specified slice, or fail as loading or the witness walk does. |
| Reading.OrderedValues | store_json.go:123-138 | A map's values in the given key order, or in sorted key order when the lengths differ. |
| Closure.CausalClosure | store_read.go:95-113 | The breadth-first search terminates with exactly the facts reachable from the roots along caused_by, or fails exactly when one of them cannot be read. |
| Closure.CanonicalFactOrder | store_read.go:401-446 | Each record once, at its first place, in (path, ordinal) order. |
| Closure.ReadCausalClosure | store_read.go:83-121 | The closure read checks its guards, searches, orders and builds the slice of the closure. |
| Closure.ClosureSelects | store_read.go:83-121 | With mode both, the slice holds exactly the reachable records, each once, ordered by each record's first place. |
| Closure.ClosureHasNoAnchors | store_read.go:83-121 | With mode both, a closure slice has no external anchors. |
| Closure.ClosureModes | store_read.go:463-474 | A mode filter changes which reachable facts are shown, not what is walked. |
| PathReads.ReadOwnerPrefix | store_read.go:29-76 | Behind its guards the prefix read builds the slice of the selected entries, which in a dense store holds, of each path read, exactly the entries up to the ordinal that the mode filter keeps, in order. |
| PathReads.PrefixHolds | store_read.go:29-76 | The owner's path in the slice, or every path for an empty owner, is the ids of its entries up to the ordinal that the filter lets through, in path order; other paths are absent. |
| PathReads.RowsShowPaths | store_read.go:236-300 | Whatever rows are read in path order, the slice shows of each path what the filter keeps of the selected entries. |
| PathReads.KeptBoth | store_read.go:463-474 | With mode both the i-th id kept is that of the i-th entry. |
| SliceFacts.SliceTellsRecords | store_read.go:236-370 | Every slice a read returns shows each fact with the retained row and one of its places, without payload exactly in a shape_only slice; its facts are those of its owner paths; it shows every context and exactly the witnesses on the chains its facts cite, held or, in a shape_only slice, anchored; and an external anchor has the shape of the fact at its first place. |
| Closure.RowsFlattenBack | store_read.go:236-370 | Prefix, frontier and closure reads flatten back to the ids of the entries they loaded, in order, with no hypothesis on the loaded facts. |
| Closure.RowsInPathOrder | store_read.go:29-76 | Entries selected in row order load in strict path order. |
| Closure.FilterKeepsOrder | store_read.go:463-474 | Mode filtering keeps path order. |
| Tables.FirstPlace | store_read.go:205-215 | The place a fact is read at is the least of its places. |
| Cuts.ResolveFrontier | store_frontier.go:51-95 | Resolving checks its guards and the through fact, then builds the slice of the cut, which in a dense store holds the target's path up to the cutoff and no other. |
| Cuts.CutHolds | store_frontier.go:75-95 | A resolved cut's only owner path is the target's, and it is the ids of the entries 0 up to the through ordinal that the mode filter lets through, in order. |
| Cuts.CutHoldsAll | store_frontier.go:75-95 | With mode both the cut has exactly the key of the target, whose path has one id more than the through ordinal, the i-th that of the i-th entry. |
| Cuts.CutIsImmutable | store_frontier.go:51-95 | Whatever resolves once resolves in every grown state to the same facts, ids, owner paths, contexts, causal edges, external anchor references and witness references. |
| Cuts.CutSurvivesRuns | store_frontier.go:51-95 | The same after any sequence of later operations on a reachable state. |
| Cuts.PublishedResolves | store_frontier.go:210-247 | In a sound state every published frontier resolves for every authorised read, to its own cutoff. |
| Cuts.AnchorShapeLater | store_read.go:372-399 | The anchor of a fact stays the same exactly when the fact gains no place before its first. |
| Cuts.WitnessedIsSupported | store_witness.go:65-129 | In a witnessed store the witness walk cannot fail. |
| Executions.ProjectExecution | execution.go:216-270 | The loop over the owner path fails on incompatible slices and missing facts; otherwise each field of the execution is what the payloads of the last facts of its kind that concern it say. |
| Executions.FoldSays | execution.go:230-270 | Task, parent and inputs are those of the last created fact, started is the last started fact, outputs or error those of the last completed or failed fact with the other one empty, the status that of the last of all these; without such a fact each has its initial value. |
| Executions.CutFactsAre | execution.go:216-282 | What a projection finds on the target's path of a resolved frontier is the entries up to the cutoff, in order. |
| Executions.ProjectExecutionFromStore | execution.go:272-282 | Resolves the cutoff's frontier and projects its slice. |
| Executions.StatusIsLast | execution.go:248-260 | The status is that of the last lifecycle fact that concerns the execution. |
| Executions.TerminalIsLast | execution.go:248-270 | The terminal fact is the last completed or failed fact that concerns the execution. |
| Executions.PublishedProjects | execution.go:216-282 | The projection of a published frontier succeeds, folds exactly the first entries of the target's path up to the through ordinal, the last of them the through fact, and says what they say. |
| Executions.ProjectionIsStable | execution.go:272-282 | A projection that succeeded once is the same in every later state. |
| Executions.TerminalFrontier | execution.go:190-278 | After PublishExecutionFrontier succeeds, the projection succeeds in every later state; its terminal fact is the through fact exactly when that fact carries the target's id or none, and then the status is succeeded or failed. |
| Histories.ProjectExecutionRelations | relations.go:101-130 | The loop fails on a malformed relation or a missing fact; otherwise the relations are, in path order, exactly the relation facts whose payload names the parent. |
| Histories.RelationsSay | relations.go:101-170 | Each relation has the id, kind, parent, child and frontier that its fact's payload has under the five keys, empty where absent, and the fact's record id. |
| Histories.PublishedSay | history.go:151-172 | The published facts are exactly those of the path, in order, with their payload's kind and data. |
| Histories.ActiveInOrder | history.go:130-149 | Active relations stand in the order their ids are first met. |
| HistoryFacts.HistorySays | history.go:102-128 | The root, relations and published facts of an effective history are those of the entries of the parent's path up to the cutoff. |
| HistoryFacts.AbandonedHasNoChild | history.go:102-149 | A successful history has no child for a relation id whose last fact on the parent's path is abandoned. |
| HistoryFacts.HasChildExactly | history.go:102-149 | It has one exactly when that last fact was spawned or adopted and names a frontier. |
| Histories.ActiveRelations | history.go:130-149 | The latest map and first-seen order compute the specified active relations. |
| Histories.LatestIsLast | history.go:130-149 | The latest relation with an id is one of the relations, and none after it has that id. |
| Histories.ActiveIsLatest | history.go:130-149 | A relation is active exactly when it is the last one with its id and was spawned or adopted. |
| Histories.ProjectEffectiveHistory | history.go:43-100 | The projection of a root slice and child slices: execution, relations, published facts and children, or its first error. |
| Histories.ProjectEffectiveHistoryFromStore | history.go:102-128 | Resolves the root and the frontiers of the active relations, in order, then projects. |
| Histories.HistoryChildren | history.go:102-128 | A successful history has exactly one child per active relation with a frontier, in that order, each projected at its own frontier's target. |
| Histories.HistoryIsStable | history.go:102-128 | A history that projected once projects identically in every later state. |
| Histories.HistorySurvivesRuns | history.go:102-128 | The same after any sequence of later operations on a reachable state. |
| Bus.StepKeeps | bus.go:39-119 | Every enabled micro-step keeps the bus invariant. |
| Bus.BusIsSafe | bus.go:39-119 | In every interleaving: what a channel delivered and buffers is an in-order subsequence of each publisher's events, no publisher is about to use a closed channel, and no Publish drops twice from one channel. |
| Bus.NoSendOnClosed | bus.go:79-104 | Whatever a publisher still has to serve is open. |
| Bus.SinglePublisherSuffix | bus.go:79-104 | With one publisher every open channel buffers a contiguous run of the latest events it should know of. |
| Bus.UninterruptedSend | bus.go:84-102 | Try, drain and retry without interference append the event, dropping the oldest when the buffer is full. |
| Bus.SubscribeSays | bus.go:39-59 | Subscribing registers a new empty channel of the bus's size, closes exactly the one it replaces and leaves what it buffers; a closed bus gives a closed channel. |
| Bus.UnsubscribeSays | bus.go:61-72 | Unsubscribing removes that subscriber and closes its channel, and no other. |
| Bus.CloseSays | bus.go:106-119 | A closed bus has no subscribers and no open channel, and keeps what is buffered. |
| EffectBuses.EffectBus.Subscribe | bus.go:39-59 | Subscribing again replaces and closes the old channel; on a closed bus the new channel is closed. |
| EffectBuses.EffectBus.Unsubscribe | bus.go:61-72 | Unregisters and closes the subscriber's channel, if there is one. |
| EffectBuses.EffectBus.Publish | bus.go:79-104 | Pushes the event to exactly the subscribers' channels, as some run of micro-steps; a closed bus ignores it. |
| EffectBuses.EffectBus.Close | bus.go:106-119 | Closes and unregisters every subscriber; closing twice changes nothing. |
| Canonical.ReadOfWrite | canonical.go:359-553 | Reading the text of a tree, in either flavour and followed by anything that may follow a value, returns exactly the value meant and the rest. |
| Canonical.ReadStringOfWrite | canonical.go:164-249 | A written string of either flavour, escapes and surrogate pairs included, reads back as itself. |
| CanonicalLaws.WriterIsUnambiguous | canonical.go:359-553 | Two writable values have the same text exactly when they mean the same. |
| CanonicalLaws.AsciiPrintable | canonical.go:215-249 | The ASCII flavour uses only the bytes 0x20 to 0x7e. |
| CanonicalLaws.StoredTextUnchanged | store_json.go:53-77 | The text of a body read back from the store is unchanged exactly when each native float64 keeps its kind and each native float32 its kind and value. |
| CanonicalLaws.IntegralFloatChanges | store_json.go:53-56 | The float64 1.0 is written as 1.0 and comes back as 1. |
| CanonicalLaws.NarrowFloatChanges | canonical.go:415-420 | The float32 nearest to 0.1 is written as 0.10000000149011612 and comes back as 0.1. |
| Graphs.WriteValue | canonical.go:441-516 | The writer over shared and cyclic containers appends exactly the specified text or fails with its error, and leaves the mark set as it found it either way. |
| Graphs.CanonicalJSON | canonical.go:78-88 | One pass from an empty mark set. |
| GraphLaws.WriterOnGraphs | canonical.go:260-276 | With writable leaves, writing fails exactly when a reachable container contains itself; otherwise a shared container is printed as its unfolded tree. |
| GraphLaws.UnfoldedText | canonical.go:441-516 | The text of a value that unfolds is the tree writer's text of its unfolding. |
| GraphLaws.FailsOnCycle | canonical.go:260-276 | Under any set of marks, writing fails exactly when a path runs into a marked container or into itself, and reports a cycle. |
| Spelling.StringSpelled | canonical.go:164-249 | A string is written exactly when it is valid UTF-8, as its scalar values between quotes: the seven two-character escapes, lower-case \uXXXX escapes for other control characters and, in the ASCII flavour, for everything from the delete character on, as surrogate pairs beyond the basic plane; all else verbatim. |
| Spelling.ArraySpelled | canonical.go:441-470 | An array is its written items between brackets, with commas and nothing else between them. |
| Spelling.ObjectSpelled | canonical.go:494-516 | An object is its members between braces in the code-point order of their names, each name, colon and value, with commas and nothing else between them. |
| Keys.CollectSortedKeys | canonical.go:556-564 | Collecting the keys in any order and sorting them yields the one increasing sequence. |
| Keys.KeyOrderIsUnique | canonical.go:494-516 | Of the permutations of any enumeration of a map's keys, the ascending one is always the same sequence, so equal maps print identically. |
| Keys.MembersInCodePointOrder | canonical.go:494-516 | The members of an object are written in the code-point order of their names. |
| Keys.SortStrings | canonical.go:562 | The result is an ascending permutation of the strings. |
| Numbers.ValidJSONNumber | canonical.go:286-332 | The scanner loop accepts exactly the number grammar of section 6 of RFC 8259. |
| Numbers.FormatIsExact | canonical.go:107-155 | The text of a finite float is a valid number, never looks like an integer token, and denotes exactly that float. |
| Numbers.FormatNotation | canonical.go:107-155 | The text has an exponent exactly when the float is not zero and its decimal exponent is at least 16 or at most -5: then one whole digit, a lower-case e, a sign and at least two exponent digits without further padding, and a fraction exactly when there are further digits; otherwise a fraction that ends in no superfluous zero. |
| Numbers.StoredNotation | store_json.go:53-56 | The token a float is stored as is in the notation of encoding/json, with its own thresholds and without padding. |
| Numbers.FormatInjective | canonical.go:107-155 | Distinct finite floats, the two zeros included, are written differently. |
| Numbers.FormatLength | canonical.go:107-155 | With at most 17 digits and exponents within 324 the text is at most 24 bytes. |
| Utf8.BytewiseOrderIsCodePointOrder | canonical.go:494-496 | Bytewise order of UTF-8 is code-point order (section 1 of RFC 3629). |
| Utf8.DecodeOfEncodeAll | canonical.go:215-249 | Decoding UTF-8 inverts encoding, so valid strings have one sequence of scalar values (section 3 of RFC 3629). |

## Left out

- SQLite itself: SQL text, pragmas, connections, read-only opening, cancellation. Tables are maps and sequences; primary-key, unique and foreign-key constraints are error branches.
- Reads run on one state. A read that interleaves with a commit between its queries is not modelled.
- SHA-256 and hex rendering are a parameter; so is `strconv.ParseFloat`, with the facts about it that a result needs stated as hypotheses of that result.
- Floats are given by their shortest decimal; that `strconv` finds it is not part of this model.
- Error message texts: errors are kinds. Where two failures have the same kind, the model does not tell them apart.
- Integer width: ordinals and commit numbers are unbounded; parsing an ordinal outside int64 is not modelled.
- `legacyBatchDigest`, the upgrade of old stores, and wall-clock timestamps.
- The non-transactional twins of the transactional helpers, which do the same on another handle.
- Typed containers and Go pointers in `writeCanonicalReflect`, and slices that alias parts of one array.
- In Go, `publishAppendEvents` appends to a slice that could share its backing array with the caller's; events are values here.
- EffectBuses.EffectBus.Publish: the object runs one Publish without interference; interleavings are the subject of `Bus`.
- EffectBuses.EffectBus.Subscribe: publisher logs, item numbers and the drop list are bookkeeping of the model, not fields of the source.
- Keys.SortStrings: `sort.Strings` is modelled by an insertion sort; only its contract matters.
- Authorisation is a boolean condition on the operation context.
- BatchStaging.SameDigestSameReceipt: the receipts are those of staging; Admission.SameDigestSameCommit says when both commit.
- Instances.TerminalElsewhere: assumes that the two context texts of the run do not share their first 32 digits, since a fresh context would otherwise be refused.
- `witnessFactMatchesPlan` ignores bodies (store_witness.go:232-236); the model does the same, so without `CollisionFree` nothing is said about the body of a reused witness.
- The empty-receipt index in `publishFrontierInTx` is an error of its own kind; without collisions it is never reached.
- `FactCount`, `ContextCount`, `ScanRecordsBySchema`, draft and batch builders: single queries or constructors.
- `checkpoint_blob.go`, `materialization_ledger.go`, `schema_library.go` beyond the projection guard, `workspace_state.go`: row access and single-branch checks.
- `traceui/`, `cmd/` and the Python side: HTTP, flags and generated test vectors.
