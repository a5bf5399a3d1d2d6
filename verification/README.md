# Versioned publishing of a knowledge base, in Dafny

This project models how one file of the knowledge base is published, and proves what the publish protocol,
the code it depends on and the retrieval code behind it promise.

PostgreSQL is authoritative and Elasticsearch is derived from it. An ingest stages a new version of a file,
hidden, together with outbox events in one transaction; drains the outbox into the index; refuses to go on while
anything is unpublished; flips four version pointers and the chunks' availability in a second transaction with new
events; and drains again. Garbage collection and reconciliation interleave with it, deliveries may fail, stop
half-way through an event or be repeated after a lost commit, and other files share the index.

| file | what it holds |
|---|---|
| `Schema.dfy`, `Tables.dfy` | rows, documents, events; table utilities |
| `Relay.dfy` | delivery of events; why repeated, partial and reordered delivery converges |
| `Pipeline.dfy`, `Gc.dfy`, `Reconcile.dfy` | the transactions of ingest, collection and repair as functions |
| `Protocol.dfy` | the state machine: one action per transaction or delivery attempt |
| `Invariants.dfy`, `Sync.dfy` | the two inductive invariants (tables; tables, outbox and index together) |
| `Runs.dfy`, `Convergence.dfy`, `Collection.dfy`, `Guard.dfy` | theorems about whole runs |
| `Late.dfy`, `Scenarios.dfy` | when a repair may still be committed, and runs in which it no longer may |
| `Summarizer.dfy`, `Incremental.dfy`, `Diff.dfy`, `Reuse.dfy`, `Vectors.dfy` | what an ingest compares, reuses and stages, and which vectors the index holds as a result |
| `Backend.dfy` | the same operations as methods over mutable tables and a mutable index, each proved to perform protocol actions |
| `Text.dfy`, `Parser.dfy`, `Reading.dfy` | lines and stripping; the Markdown parser, and what it reads off a text |
| `Chunker.dfy`, `Packing.dfy`, `Rejoin.dfy`, `Ingest.dfy` | chunking, what the chunks hold, and how parser and chunker fit together and into the protocol |
| `Simhash.dfy`, `Anchor.dfy`, `Fusion.dfy`, `Audit.dfy` | fingerprints, anchor resolution, rank fusion, the audit chain |

## Main results

A run is *orderly* if nobody else writes the file's documents and every repair that a reconcile commits still *fits*:
each of its events suits the rows as they are at the commit, and as an ingest past its barrier is about to leave them
(`Protocol.Fits`).

* In every orderly run, a file with nothing unpublished matches its index, and agrees with it in full once it is
  published (`Runs.Agreement`); an unpublished event fails only if the index stops answering, or if it is a deletion
  that meets a missing document and the client takes that for an error (`Runs.NeverWedged`, `Runs.DrainClears`);
  versions are staged once and stay whole (`Runs.StagedOnce`, `Runs.WholeVersion`).
* The condition on repairs is exact: in every state of an orderly run, and however long ago the reconcile loaded the
  tables and read the index, committing a repair is harmless in all orderly continuations if and only if it fits
  (`LateCommit.HarmlessIffFits`). Whether an ingest has passed its barrier is not stored, so a commit cannot check that
  condition as it stands; comparing the ids of its events with the current rows, and with those rows as a flip to the
  latest version would leave them, is the exact check that stored data allow (`LateCommit.StoredExact`).
* With arbitrary writes from outside to the index: a hit on a published file's chunk that survives the retrieval fence
  is an available chunk of the one active, completely staged version of a permitted file if and only if its file label
  can be relied on (`Guard.VersionAtomic`), and every such chunk survives under a reliable label (`Guard.RightfulKept`).
* An uninterrupted repair converges from any index content (`ReconcileConvergence.RepairSettles`), and collections are
  invisible to readers, delete what a dry run projects, and keep exactly the versions to be retained
  (`Collection.CollectionInvisible`, `Collection.PurgeDeletesProjection`, `Collection.CollectRetains`).
* An incremental ingest stages what a full rebuild would (`Reuse.IncrementalRefinesFull`), with its exact condition
  (`Reuse.ExactIffReady`). No document ever carries a vector other than its row's embedding, although it may carry none
  (`Vectors.NeverWrong`), and a full rebuild makes its version and the later ones exact again (`Vectors.RebuildRestores`).
* Chunking loses nothing, keeps its bounds and fills its chunks (`Chunker.Lossless`, `Packing.ChunksPacked`), the windows of
  an oversized block cover its text (`Packing.SlidesCover`), and parsing is a fixpoint of rendering (`Parser.ParseRender`).
* Fingerprints are the majority votes of a text's bigrams (`Simhash.SimhashIff`) and stable under small edits, relocation is
  nearest-match, fusion refines its formula, audit appends verify, every column of an audit row is covered by its hash
  (`Audit.CanonCovers`), and an anchor commits to the whole history.

## Where the code falls short of what it aims at

* Late repairs. A reconcile loads the tables, reads the index without a lock and commits in another transaction. If a
  flip comes in between, its commit can make a superseded version visible beside the new one with nothing unpublished
  (`Scenarios.FlipBetween`); if a collection does, an event for a deleted row is stuck for ever and no later ingest
  passes its barrier (`Scenarios.CollectBetween`, `Scenarios.StuckForever`). `LateCommit.HarmlessIffFits` is the exact
  condition; `LateCommit.UnchangedFits` shows that it holds if the tables are as they were loaded and no ingest is about
  to flip.
* Reconcile during a first publish. When version 1 was staged but never published and a later version has passed the
  drain barrier, even a reconcile that nothing interrupts takes version 1 for the active one, because the pointers
  default to 1. `LateCommit.PromptFits` proves that an uninterrupted repair fits if and only if it does not make such
  a document visible; `Scenarios.EarlyRun` reaches the situation and `Scenarios.EarlyHarm` the damage.
* Labels. The fence compares a chunk's version with the active version of the file the hit is labelled with, not of
  the chunk's own file. `Guard.WrongLabelPasses` is a superseded chunk of a file that may not be searched, passing under
  another file's label; `Guard.VersionAtomic` is the exact condition.
* The fence before the first publish. The active pointers default to 1, so the staged chunks of version 1 pass the
  version check although the version is not published. `Guard.UnpublishedFence` states exactly what passes, and
  `Guard.StagedHitPasses` is such a hit.
* Refused stagings. `kb_anchor.section_path` is NOT NULL, and an empty heading is inserted as NULL, so one summary without
  a heading makes the whole staging transaction fail. So does a heading or section of more than 512 characters, and a
  U+0000 anywhere in a chunk, a summary or a heading: it is valid UTF-8 and no whitespace, but PostgreSQL's character types do
  not take it. `Backend.FileBackend.IngestFile` states exactly when, `Reuse.StorableIff` what that means for reused summaries,
  and `Reuse.HeadlessFile` and `Reuse.NulFile` are such inputs.
* Vectors. The reuse loop reads the previous version's vectors from the index. If that version is still unpublished,
  the read fails and the chunk is staged without a vector. `Reuse.PendingLosesVector` is such a run;
  `Reuse.ExactIffReady` is the exact condition, which can be checked before the ingest, and `Reuse.QuietReady` shows
  that an empty outbox implies it. The loss lasts (`Vectors.LossLasts`), is handed on to later versions
  (`Vectors.LossInherited`), and no reconcile sees it (`ReconcileConvergence.QuietClean`).
* Deletions. `app/es_memory.py` and the comments of `app/indexing/relay.py` take deleting a missing document for a
  no-op. With a client that raises instead (`Relay.STRICT_DELETE`), a deletion that was half applied or whose mark was
  lost can never succeed again; `Runs.NeverWedged` says so exactly, and `Runs.DrainClears` exactly when a drain
  still clears the outbox.
* Repair. A missing summary whose text is empty is skipped by every repair and stays missing.
  `ReconcileConvergence.RepairSettles` holds if and only if there is none.
* The audit chain. Verification finds rows removed from inside a chain (`Audit.RemovalShows`) but not rows cut off
  either end (`Audit.WindowVerifies`). A cut at the end changes the anchor's root hash (`Audit.TruncationShows`); a cut at
  the front changes only its row count, which `Audit.AnchorCommits` therefore needs.

## Assumptions

* Each database transaction is atomic, including the pending check of a collection and the reads of `_load_pg`, which
  see one snapshot. A reconcile's transactions and its index reads are separate steps, and so is each document it
  reads. Index reads during a reconcile answer.
* At most one ingest of a file is in flight and one drain of it runs at a time, as the code takes no lock for either.
  An ingest builds its sources in the state in which it stages them. `retain` is at least 1.
* uuid5 and sha256 are injective, uuid4 values are new, embedding, tokenising, text normalisation and the 64-bit
  bigram hash are fixed functions, defined on all texts. Replies of the language model are arbitrary lists of complete items.
* Reading a missing document fails, as in Elasticsearch. Whether deleting one does is left open
  (`Relay.STRICT_DELETE`), and every result is stated for both.
* `flipped` is a history variable: the pointers' column default does not tell version 1 from no version.

## Model

| member | source | states |
|---|---|---|
| Relay.PublishBetween | app/indexing/relay.py:16-30 | whatever a delivery attempt does to a document is either nothing or the event's whole effect on it; it succeeds exactly if the index answers to the end and the event is applicable, and then every document got it |
| Relay.AttemptConverges | app/indexing/relay.py:47-63 | one attempt, failed, half applied, repeated or with its mark lost, keeps "every document is good or covered by an unpublished event" and unwedgedness |
| Relay.EnqueueConverges | app/ingest/pipeline.py:264-273 | a transaction whose events are sound and cover whatever it makes not good keeps convergence, in which the order of delivery is free |
| Relay.DrainCounts | app/indexing/relay.py:46-70 | what is published leaves the unpublished rows and nothing else does |
| Relay.DrainConverges | app/indexing/relay.py:33-70 | a drain of pending events keeps convergence and unwedgedness whatever fails |
| Relay.DrainHealthy | app/indexing/relay.py:33-70 | against an index that answers, no visibility or index event fails, and no deletion that names only documents still there, each once |
| TableInvariant.FreshKeys | app/ingest/pipeline.py:23-24 | the target version is not in the version table and no id to be staged was ever used, although collections delete version rows |
| TableInvariant.StageKeeps | app/ingest/pipeline.py:213-262 | staging keeps the invariant of the stored rows: deterministic ids, hashes, fingerprints, sourced summaries with headings, anchors, hidden chunks |
| TableInvariant.StagedAnchorOk | app/ingest/pipeline.py:235-257 | a staged anchor carries hash and fingerprint of the text of its summary's first source |
| TableInvariant.FlipKeeps | app/ingest/pipeline.py:280-314 | the flip keeps it, with availability exactly for the new version, and no pointer decreases |
| TableInvariant.CollectKeeps | app/indexing/gc.py:124-132 | a collection leaves no dangling source or anchor and never removes the latest version |
| TableInvariant.RelocateKeeps | app/retrieval/anchor.py:77-88 | rewriting an anchor's target keeps its fingerprint that of the summary's first source |
| TableInvariant.ReadingsKept | app/indexing/reconcile.py:43-73 | what a reconcile has loaded stays an earlier state of the tables: a row still there holds what it held, and before the first publish none is gone |
| TableInvariant.TablesKept | app/ingest/pipeline.py:183-317 | every action keeps the table invariant, never lowers a pointer or the latest version and never unpublishes |
| IndexInvariant.AttemptKeeps | app/indexing/relay.py:47-63 | a delivery attempt keeps the invariant tying tables, outbox and index |
| IndexInvariant.StageSync | app/ingest/pipeline.py:213-273 | staging rows and events in one transaction keeps it |
| IndexInvariant.FlipSync | app/ingest/pipeline.py:280-314 | so does the flip past the barrier: every id it makes visible is in the index |
| IndexInvariant.CollectSync | app/indexing/gc.py:102-132 | so does a collection that found nothing pending |
| IndexInvariant.RepairSync | app/indexing/reconcile.py:150-245 | so does the commit of a repair, however long ago its tables were loaded and its documents read one by one, if its events still fit |
| IndexInvariant.TracedKept | app/indexing/reconcile.py:21-27 | what a reconcile saw of the file in the index is of ids the file handed out, and stays there as long as the row does |
| LateCommit.HarmlessIffFits | app/indexing/reconcile.py:219-245 | in any state of an orderly run and for any earlier reading, unless a deletion open after the commit is stuck: committing the repair is harmless in all orderly continuations iff each event suits the rows as they are and as a flip about to come leaves them |
| LateCommit.StoredExact | app/indexing/reconcile.py:219-245 | a check of the events against the stored rows, and against these rows flipped to the latest staged version, passes iff the repair fits in every state of outbox, index and running ingest with these rows and readings |
| LateCommit.StoredHarms | app/indexing/reconcile.py:219-245 | where that check fails, some such state allows the commit, which then does harm, unless a deletion open after it is stuck |
| LateCommit.UnchangedFits | app/indexing/reconcile.py:150-245 | a repair fits if the tables are as they were loaded and no ingest is past its barrier, whatever the index held when read |
| LateCommit.PromptFits | app/indexing/reconcile.py:86-117 | a repair that nothing interrupts fits, except before a first publish of a later version than 1, where it fits iff it makes nothing visible |
| LateCommit.ClearedDrift | app/indexing/reconcile.py:86-117 | past the drain barrier an uninterrupted reconcile finds nothing missing and no orphan, no hidden active document once the file is published, and no visible document of the version about to be published |
| Scenarios.FlipBetween | app/indexing/reconcile.py:151-153 | a run in which version 3 is published between a reconcile's reading and its commit, and which ends with version 2 visible beside it and nothing unpublished |
| Scenarios.CollectBetween | app/indexing/reconcile.py:234-238 | a run in which version 1 is collected in between: after the commit an event names a deleted row whose document is gone |
| Scenarios.StuckForever | app/indexing/relay.py:20-25 | such an event fails for ever, so that no barrier is passed and nothing is collected again |
| Scenarios.EarlyRun | app/indexing/reconcile.py:86-102 | a reachable state, with nothing pending, before a first publish of version 2, in which a reconcile finds the hidden document of version 1 |
| Scenarios.EarlyHarm | app/indexing/reconcile.py:228-232 | the repair of that state leads to a bad end |
| IndexInvariant.NoOrphans | app/indexing/reconcile.py:104-117 | without outside writes a reconcile never finds an orphan to delete |
| IndexInvariant.PruneSync | app/indexing/gc.py:222-236 | pruning keeps it; it removes exactly the published rows that are old enough |
| IndexInvariant.ForeignSync | app/ingest/pipeline.py:264-273 | other files' writes to the shared index keep it |
| IndexInvariant.SyncKept | app/ingest/pipeline.py:183-317 | every action except outside writes and repairs that no longer fit keeps the invariant |
| Runs.RunTables | app/ingest/pipeline.py:183-317 | the table invariant holds in every state of every run, whatever outsiders do to the index |
| Runs.RunSync | app/indexing/relay.py:1-7 | the full invariant holds in every state of every orderly run |
| Runs.Monotone | app/ingest/pipeline.py:291-296 | over a run, pointers and target versions never decrease, a published file stays published, used ids stay used |
| Runs.StagedOnce | app/ingest/pipeline.py:193-194 | no chunk, summary or anchor id is staged by two ingests of a run |
| Runs.WholeVersion | app/ingest/pipeline.py:217-230 | while a version is kept, its chunks, summaries and anchors are exactly those its ingest staged, with the staged contents, up to the availability of chunks and the relocation of anchors |
| Runs.StagedBy | app/ingest/pipeline.py:259-263 | every version present was staged by an earlier ingest of the run that computed it as its target |
| Runs.Agreement | app/ingest/pipeline.py:213-317 | whenever nothing is unpublished the index has exactly one document per row, with the row's text and version, visible only if its version counts as active; for a published file, visible iff it is, and with exact vectors if all staged ones were |
| Runs.ExactRun | app/ingest/pipeline.py:141-151 | the history variable for exact vectors means that every ingest so far staged exact vectors |
| Runs.StatusTells | app/indexing/relay.py:51-63 | in every reachable state an outbox row is published iff its status says so, and an unpublished one is failed iff its attempts are used up |
| Runs.AttemptsCount | app/indexing/relay.py:47-63 | in every reachable state a row's attempts are the failed deliveries so far whose mark was committed, and it is published iff some delivery succeeded and was marked |
| Runs.CreatedLater | app/indexing/relay.py:38-45 | rows inserted after a moment of a run are created later than all that were there, which a drain therefore attempts first |
| Runs.NeverWedged | app/indexing/relay.py:20-25 | in every state of an orderly run, an attempt at an unpublished event succeeds iff the index answers to the end and, for a deletion where that matters, every document is still there |
| Runs.DrainClears | app/indexing/relay.py:33-70 | one drain against an index that answers leaves nothing unpublished, and the index matches, iff no deletion meets a missing document where that matters |
| Reconcile.ClassifiesIffReported | app/indexing/reconcile.py:76-117 | which ids each drift list holds, in terms of the rows' versions and the documents' presence, stamp, visibility and label |
| ReconcileConvergence.CleanMeans | app/indexing/reconcile.py:86-117 | nothing is found iff every active row has its visible document, a chunk's stamped with the row's version, and no other visible document has the file's label |
| ReconcileConvergence.CleanIffSettled | app/indexing/reconcile.py:86-117 | the drift classes are all empty iff every active id is present, visible and of the active version and nothing else of the file is visible |
| ReconcileConvergence.RepairSettles | app/indexing/reconcile.py:150-247 | from any index content one uninterrupted repair and drain leaves nothing pending, the tables unchanged and no drift, iff no missing summary had an empty text |
| ReconcileConvergence.QuietClean | app/indexing/reconcile.py:86-117 | once everything of a published file is delivered a reconcile finds nothing, whatever the vectors are |
| ReconcileConvergence.CleanEmitsNothing | app/indexing/reconcile.py:10-10 | a reconcile that finds no drift writes no event |
| Collection.CollectRetains | app/indexing/gc.py:92-132 | after a collection a row of version v is gone iff v + retain <= active, in each of the four tables, and every other row is as it was |
| Collection.ProjectionCounts | app/indexing/gc.py:163-184 | the counts reported are the numbers of those rows |
| Collection.NoCascade | app/indexing/gc.py:188-199 | deleting the summaries cascades to no anchor beyond those deleted first |
| Collection.PurgeDeletesProjection | app/indexing/gc.py:163-219 | each table loses exactly the rows a dry run counts, and a second collection would find none |
| Collection.CollectionInvisible | app/indexing/gc.py:6-11 | available chunks and visible documents are the same before a collection, after its commit and during and after its drain, whatever fails |
| Collection.DeletionsRemovable | app/indexing/gc.py:109-116 | the deletions of a collection are slices that name each document once, all of them there |
| Guard.Postverify | app/retrieval/guard.py:11-44 | the loop keeps, in order, the hits that pass and drops the others; a violation is audited iff one was dropped |
| Guard.KeptOrDropped | app/retrieval/guard.py:31-44 | every hit is either kept or dropped, as often as it occurs |
| Guard.HitsFiltered | app/retrieval/guard.py:33-41 | the hits kept, in order, are those whose chunk is stored by a file of the tenant in the active version of the searchable file the hit claims; the ids dropped are those of the others, in order |
| Guard.VersionAtomic | app/retrieval/guard.py:33-41 | a surviving hit on a published file's chunk is an available chunk of the active, wholly staged version of a permitted file, iff its label is the chunk's own file, or one of the same active version while the own file is permitted |
| Guard.RightfulKept | app/retrieval/guard.py:33-41 | under such a label, of a permitted file, exactly these chunks survive |
| Guard.WrongLabelPasses | app/retrieval/guard.py:37-37 | reachable tables of two files and a superseded chunk of the one, labelled with the other, that survives a search of the other only |
| Guard.UnpublishedFence | app/retrieval/guard.py:37-37 | exactly when a chunk of an unpublished file survives; it is never one that may be shown, and under its own label it is of version 1 |
| Guard.StagedHitPasses | app/retrieval/guard.py:37-37 | a reachable staged chunk, not available, that survives |
| Summarizer.Valid | app/ingest/summarizer.py:40-45 | every accepted summary has a non-empty list of sources, all from the whitelist |
| Summarizer.WhitelistMeans | app/ingest/summarizer.py:42-42 | the sources kept are those on the list, in the order of the reply and as often |
| Summarizer.ValidMeans | app/ingest/summarizer.py:40-45 | an item is kept iff some source is on the list and its coverage is yes or uncertain, in the order of the reply and otherwise as replied |
| Summarizer.SummarizeWindow | app/ingest/summarizer.py:31-45 | the filter loop accepts exactly the valid items, and nothing if the model fails |
| Summarizer.Windows | app/ingest/summarizer.py:58-69 | the greedy loop computes the specified windows |
| Summarizer.WindowsPartition | app/ingest/summarizer.py:58-69 | the windows are non-empty and concatenate to the chunks; all but the last reach the limit, and none would without its last chunk |
| Summarizer.FileMeans | app/ingest/summarizer.py:55-74 | nothing below the token limit or of fewer than five chunks; otherwise the kept items of the replies to windows that partition the chunks at 8000 tokens, one window after the other |
| Summarizer.SummarizeFile | app/ingest/summarizer.py:48-74 | small files are skipped; otherwise the windows' valid summaries in order |
| Summarizer.SummariesSourced | app/ingest/summarizer.py:31-74 | whatever the model replies, every summary of a file names a non-empty list of its chunks |
| Diff.ModeMeans | app/ingest/pipeline.py:119-123 | a build is incremental iff a version precedes it and the chunks whose content that version lacks are at most the set share |
| Diff.PrevMeans | app/ingest/diff.py:28-28 | a content is matched with the previous chunk of that content that is listed last |
| Diff.ReusableIff | app/ingest/pipeline.py:157-168 | a previous summary is reused iff it has sources and each is the last listed chunk of a content that some new chunk has |
| Diff.ItemsMean | app/ingest/pipeline.py:126-173 | which summaries are staged, in order: the reusable ones, field by field, then those written for the changed chunks, with the embeddings of their texts |
| Incremental.Match | app/ingest/diff.py:26-37 | the loops split the new chunks into those with a previous row of equal hash and the rest |
| Incremental.OldToNewMap | app/ingest/diff.py:40-47 | the loop computes the remap, in which the last chunk with a hash wins |
| Incremental.ReuseLoop | app/ingest/pipeline.py:140-151 | the iterator of new vectors never runs dry, is used up, and gives each unmatched chunk its own vector; matched ones get the stored vector |
| Incremental.BuildSources | app/ingest/pipeline.py:111-180 | the vectors and summaries staged, in both modes |
| Reuse.RemapSameText | app/ingest/diff.py:40-47 | a remapped source is a new chunk with the text of the old one |
| Reuse.ReusedMeaning | app/ingest/pipeline.py:157-168 | a previous summary with unchanged sources is staged with its text, heading and stored vector, and source by source with new chunks of the same texts |
| Reuse.BuiltSourced | app/ingest/pipeline.py:153-173 | new or reused, every staged summary names a non-empty list of new chunks |
| Reuse.BuiltStageOk | app/ingest/pipeline.py:111-180 | what is built meets everything the protocol asks of a staging |
| Reuse.ReusedVector | app/ingest/diff.py:70-75 | if the previous version's documents carry their embeddings, a vector read back is the embedding of the new chunk's text if the document is there, and absent otherwise |
| Reuse.ExactIffReady | app/ingest/pipeline.py:140-173 | if the previous version's documents carry their embeddings, all staged vectors are exact iff every document read back is in the index |
| Reuse.QuietReady | app/ingest/pipeline.py:275-278 | nothing unpublished when the ingest begins implies that condition |
| Reuse.IncrementalRefinesFull | app/ingest/pipeline.py:125-151 | under it the incremental vectors are those of embedding every chunk |
| Reuse.ReuseStaysExact | app/ingest/pipeline.py:140-173 | if every ingest of a run met it, all vectors stay exact through any number of reuse generations |
| Reuse.PendingLosesVector | app/ingest/pipeline.py:144-151 | a run in which it fails: the re-ingest stages its chunk without a vector |
| Reuse.StorableIff | app/ingest/pipeline.py:248-257 | the database takes the summaries of a build iff each newly written one has a heading of at most 512 characters and no U+0000 in text or heading; reused ones have been stored before |
| Reuse.NulFile | app/schema.sql:109-109 | any file of one text with a U+0000 in it is refused |
| Reuse.HeadlessFile | app/schema.sql:146-146 | a first ingest of five texts, and a reply to it, that are refused |
| Vectors.CarriesStaged | app/ingest/pipeline.py:264-273 | a staged row's document, once written, carries the vector it was staged with |
| Vectors.CarriesStep | app/indexing/relay.py:16-30 | no step from inside changes which vectors a row's documents, written or outstanding, carry, except a repair, which gives them the embedding of the row it loaded |
| Vectors.LossStaged | app/ingest/pipeline.py:264-268 | a chunk staged without a vector will be indexed without |
| Vectors.LossLasts | app/indexing/reconcile.py:180-199 | through any orderly run a lost vector stays lost until a repair embeds the row again |
| Vectors.LossInherited | app/ingest/pipeline.py:144-151 | and an incremental ingest hands it on |
| Vectors.NeverWrong | app/ingest/pipeline.py:140-173 | in every state of an orderly run of ingests, the document of a row carries the embedding of the row's text or none, whatever could be read back |
| Vectors.RebuildRestores | app/ingest/pipeline.py:125-136 | after a full rebuild, as long as later ingests find what they read back, all rows of its version and of later ones carry their embeddings, whatever was lost before |
| Vectors.RestoredShown | app/ingest/pipeline.py:125-136 | so with nothing unpublished the index has the embedding of the text of every such row |
| Reuse.CoverageMeans | app/ingest/pipeline.py:207-209 | the staged coverage is the number of chunks that some summary names by the number of those that enter the windows |
| Reuse.FullCoverage | app/ingest/pipeline.py:207-209 | in full mode it lies between 0 and 1 |
| Backend.FakeES.IndexDoc | app/es_memory.py:46-50 | upsert by id |
| Backend.FakeES.Delete | app/es_memory.py:52-57 | removal, saying whether the document was there |
| Backend.FileBackend.PublishEvent | app/indexing/relay.py:16-30 | the loops over an event's ids have the specified effect and outcome, wherever the index stops answering |
| Backend.FileBackend.DrainCore | app/indexing/relay.py:33-70 | one attempt per pending event in creation order, marks committed all or not at all |
| Backend.FileBackend.DrainOutbox | app/indexing/relay.py:33-70 | keeps the invariant even if the marks are lost; its three counts add up; a healthy drain leaves nothing, unless a deletion meets a missing document and that matters |
| Backend.FileBackend.StageTransaction | app/ingest/pipeline.py:213-273 | the inserts perform the staging action, or nothing is stored if the database refuses a text, a heading or a chunk's section |
| Backend.FileBackend.PassBarrier | app/ingest/pipeline.py:275-278 | the ingest goes on iff the count of unpublished events is zero |
| Backend.FileBackend.FlipTransaction | app/ingest/pipeline.py:280-314 | the updates perform the flip action |
| Backend.FileBackend.IngestFile | app/ingest/pipeline.py:183-317 | refused, changing nothing, iff the content or section of some chunk or the text or heading of some new summary is not storable; otherwise either the whole new version is published, or the first drain left something and readers see what they saw before; the index agrees after a healthy second drain |
| Backend.FileBackend.DeletePurgeable | app/indexing/gc.py:187-219 | the deletes and their counts are those of the specification |
| Backend.FileBackend.PurgeVersions | app/indexing/gc.py:78-151 | skips and dry runs change nothing; there is something to purge iff active > retain; the counts are the numbers of rows of versions v with v + retain <= active, which an apply deletes and no others, with one delete event per 500 ids; what is available stays, and drained, index and tables agree |
| Backend.FileBackend.LoadPg | app/indexing/reconcile.py:150-153 | the loading step of a reconcile |
| Backend.FileBackend.Classify | app/indexing/reconcile.py:76-128 | the loops compute the drift classes of tables loaded earlier against the index as it is now, with each list's ids told by rows and document fields |
| Backend.FileBackend.Repair | app/indexing/reconcile.py:219-246 | a repair committed and drained at any later time keeps the tables, and keeps the invariant if its events fit |
| Backend.FileBackend.ReconcileFile | app/indexing/reconcile.py:150-247 | the three steps with nothing in between: a report only reads; a repair leaves the tables alone and, drained, no drift except lost empty summaries, that is, the index in order by rows and document fields |
| Parser.TextParser.Run | app/adapters/parser.py:232-260 | the line loop with its shared variables computes the specified blocks |
| Text.SplitFirst | app/adapters/parser.py:249-249 | the first line goes up to the first line break, a carriage return and its line feed counting as one, and the others are the lines of the rest |
| Reading.ParseReads | app/adapters/parser.py:241-260 | a title for each heading line, with its level, and a body block for each visible stretch between headings, in order and in the section of the last named heading; one empty block if nothing is visible |
| Parser.ParseRender | app/adapters/parser.py:232-260 | joining the block texts with newlines and parsing again gives the same blocks, with types, levels and sections |
| Chunker.ChunksWellFormed | app/ingest/chunker.py:134-155 | titles only in front, barriers alone, no blank member, at most one overlap above the size, carries are proper suffixes within the budget, and each chunk has a new block |
| Chunker.Lossless | app/ingest/chunker.py:104-156 | without the carried blocks, the chunks' members are the visible input blocks in order |
| Chunker.VisibleMeans | app/ingest/chunker.py:134-136 | the visible blocks are those whose text is not blank, in order |
| Packing.MergedMeans | app/ingest/chunker.py:92-102 | a merged chunk's text is its members' texts line by line, stripped; page and section are the first member's, and the position lists the boxes of those that have one |
| Packing.MembersStand | app/ingest/chunker.py:134-156 | tables and figures stand alone and titles in front; a chunk is left out of the summaries iff it is a table or a figure |
| Packing.ChunksPacked | app/ingest/chunker.py:104-153 | prose starts a new chunk behind prose only if it no longer fits, and repeats the longest end of the previous chunk that fits the overlap, or nothing if all of it does |
| Packing.StepMeans | app/ingest/chunker.py:58-59 | step and overlap are the stated shares of the size, rounded down, the step at least one |
| Packing.SlidesHold | app/ingest/chunker.py:126-132 | an oversized block gives one chunk per window with visible text, in order, holding the whole window's text stripped, at the block's page, section and place; windows start every step and end with the first to reach the end |
| Packing.SlidesCover | app/ingest/chunker.py:126-132 | if decoding undoes encoding and respects concatenation, each such chunk is a stretch of the block's text and together they hold all its visible characters |
| Chunker.MergedVisible | app/ingest/chunker.py:92-102 | a merged chunk has visible content |
| Chunker.EmissionPieces | app/ingest/chunker.py:76-102 | each merged emission is one chunk, left out of summaries iff it is a barrier; slid chunks never are |
| Chunker.PiecesNumbered | app/ingest/chunker.py:76-90 | chunk_order counts 0, 1, 2, ... and no chunk is blank |
| Chunker.SlidesUndo | app/ingest/chunker.py:126-132 | windows rejoin to the tokens, are no longer than the size, each adds a token, and their number is 1 + ceil((len - size) / step) |
| Rejoin.ParsedTrimmed | app/adapters/parser.py:241-260 | parsed blocks are not blank and have no blank margins, except the one block of a blank text |
| Rejoin.ChunksRejoin | app/ingest/chunker.py:10-12 | where no block is cut and no overlap carried, the chunks of a Markdown text joined by newlines parse to the same blocks |
| Ingest.NewChunks | app/ingest/pipeline.py:67-79 | the loop gives each chunk its deterministic id, hash and fingerprint |
| Ingest.ChunkText | app/ingest/pipeline.py:200-204 | parsing, chunking and numbering any text gives consecutive ids and non-empty contents with true hashes and fingerprints |
| Ingest.WellMadeInput | app/ingest/pipeline.py:204-205 | such chunks are all that building the sources requires of its input |
| Chunker.BlockChunker.FlushPending | app/ingest/chunker.py:104-124 | emits what is pending and keeps the carried tail pending |
| Chunker.BlockChunker.ChunkBlocks | app/ingest/chunker.py:49-156 | the loop over shared variables computes the chunks of the specified emissions |
| Simhash.FeaturesAre | app/retrieval/simhash.py:28-33 | the features are the bigrams of the normalised text in order, its only character if it has one, none if it is empty |
| Simhash.FeatureIff | app/retrieval/simhash.py:28-33 | a string is a feature iff it occurs as two adjacent characters, or as the only one |
| Simhash.CounterMeans | app/retrieval/simhash.py:41-46 | counter i is the number of bigram places whose hash has bit i minus the number of those whose has not |
| Simhash.SimhashIff | app/retrieval/simhash.py:40-51 | the fingerprint is the one 64-bit word whose bit i is set iff more bigram places have it in their hash than not |
| Simhash.HammingMeans | app/retrieval/simhash.py:54-55 | Hamming distance is the number of bits in which two words differ |
| Simhash.HexDigits | app/retrieval/simhash.py:62-64 | digit i of the hex form, most significant first |
| Simhash.HammingMetric | app/retrieval/simhash.py:54-55 | Hamming distance is symmetric, zero only on equals, and obeys the triangle inequality |
| Simhash.HammingBound | app/retrieval/simhash.py:54-55 | it is at most the word width |
| Simhash.ComputeSimhash | app/retrieval/simhash.py:40-51 | the loops over the 64 counters and the fingerprint compute the majority word of the text's bigrams |
| Simhash.SignsBits | app/retrieval/simhash.py:47-51 | bit i is set iff counter i is positive |
| Simhash.FingerprintStable | app/retrieval/simhash.py:40-51 | only bits with a counter within the number of edited bigrams of zero can flip, which bounds the distance; equal bigram multisets have equal fingerprints |
| Simhash.OneCharacterStable | app/retrieval/simhash.py:28-51 | replacing one character of the normalised text flips only bits with counter magnitude at most 4 |
| Simhash.SignedRoundTrip | app/retrieval/simhash.py:17-25 | signed and unsigned forms undo each other on 64 bits |
| Simhash.HexRoundTrip | app/retrieval/simhash.py:62-64 | the fixed-width hex form is read back as the same number |
| Simhash.StoredDistance | app/retrieval/simhash.py:67-69 | across the two stored encodings the distance is that of the fingerprints |
| Anchor.OverlapMeans | app/retrieval/anchor.py:29-41 | the score is the number of different bigrams of the query that occur in the chunk's text |
| Anchor.SelectCenter | app/retrieval/anchor.py:25-44 | the first of the surviving sources in which the most different bigrams of the query occur |
| Anchor.FindNearest | app/retrieval/anchor.py:58-74 | the first nearest chunk within the threshold, none iff all are farther |
| Anchor.AnchorResolver.Resolve | app/retrieval/anchor.py:91-111 | the three outcomes; a saved move points all the summary's anchors at the chunk, marked relocated, and changes nothing else |
| Anchor.ResolvedNearest | app/retrieval/anchor.py:91-111 | the anchor moves iff no source survives and some available text is within the threshold of the anchored one, and then to a closest |
| Anchor.ResolvedMeans | app/retrieval/anchor.py:25-74 | surviving and candidate chunks are those available to the tenant, and near means at most 8 differing fingerprint bits |
| Anchor.VerbatimRelocates | app/retrieval/anchor.py:3-7 | if the anchored text survives up to case and whitespace, the anchor moves to a chunk at distance 0 |
| Anchor.OneCharacterRelocates | app/retrieval/anchor.py:58-74 | if it survives with one character replaced and at most eight weak bits, it still moves |
| Anchor.ResolvesInRuns | app/retrieval/anchor.py:47-88 | the tables of every reachable state are encoded as resolution needs, and stay in order after its update |
| Fusion.RrfMerge.Add | app/retrieval/fusion.py:5-15 | each chunk gets the credit of its first occurrence, once per list, and the tag of the list |
| Fusion.RrfMerge.Merge | app/retrieval/fusion.py:2-28 | the merge refines its formula, and its output is as Fusion.FusesMerges tells |
| Fusion.FusesMerges | app/retrieval/fusion.py:2-28 | one entry per chunk of either list: the first hit in the first list that has one, the sum of weight / (k + rank) over first places, the tags of the lists it is in, by falling score, ties in order of appearance |
| Fusion.FusedOnce | app/retrieval/fusion.py:18-28 | no chunk appears twice |
| Fusion.FusesUnique | app/retrieval/fusion.py:2-28 | this description determines the output |
| Fusion.BothPathsWin | app/retrieval/fusion.py:8-15 | with unit weights and lists no longer than k, a hit of both paths precedes every hit of one |
| Audit.AuditLog.Append | app/audit.py:69-106 | the new row links to the tenant's last hash iff the lock was obtained |
| Audit.CanonCovers | app/audit.py:25-59 | two entries have the same payload iff every column agrees, but for the order of ids and the way an address is written |
| Audit.RowHashCovers | app/audit.py:62-65 | a row hash determines payload and predecessor, where empty bytes count as none |
| Audit.ChainMeans | app/audit.py:126-131 | the verified chain is the tenant's rows in order |
| Audit.TailHashMeans | app/audit.py:82-91 | the hash a new row links to is that of the last row that has one |
| Audit.VerifyRows | app/audit.py:119-171 | the counters are the numbers of mismatching, breaking and gap rows, and the first ids those of the first such rows |
| Audit.AppendsVerify | app/audit.py:69-106 | any serial run of appends, tenants interleaved and locks missed at will, verifies; the gaps are the misses after the tenant's first row |
| Audit.TailCommits | app/audit.py:62-65 | two verified gap-free chains with the same last hash attest the same from the end on, as far as both reach; they are equally long if both start afresh |
| Audit.AuditLog.TakeAnchor | app/audit.py:176-207 | count, least and greatest id over the tenant's hashed rows and the hash of the row with the greatest, none if there is no such row |
| Audit.AnchorCommits | app/audit.py:175-207 | logs that verify without gaps and have the same root hash and row count attest the same, row by row and column by column |
| Audit.FieldTamper | app/audit.py:148-151 | rewriting a hashed row's fields is found iff some column changes by more than the order of its ids or the way an address is written |
| Audit.RemovalShows | app/audit.py:152-160 | rows removed from inside such a chain leave exactly one break, at the first row after them |
| Audit.WindowVerifies | app/audit.py:132-171 | rows cut off either end leave a chain that verifies without gaps |
| Audit.TruncationShows | app/audit.py:176-191 | a cut at the end changes the anchor's root hash |

## Left out

* The loops of `purge_versions` and `reconcile` over several files are modelled file by file; so are their audit rows,
  aggregated counters and the advisory lock that skips a file.
* `purge_file`, which deletes a file with its pending events, and document deletion in general.
* Concurrent ingests of one file, overlapping drains, and interleavings inside a transaction, which the code does not order.
* A failed index read during a reconcile, which the code takes for a missing document.
* The columns `position`, `content_ltks`, `status`, `page_count` and the cost log, and a chunk's stored `section_path`
  (its length limit is modelled); a missing `kb_file` row; headings are one joined string.
* A special token of the tokeniser, such as "<|endoftext|>", in text that is tokenised: `_enc.encode` raises, so that the
  ingest fails before it stages anything.
* Unpaired surrogates in replies, which the database driver cannot encode.
* Reply items that lack a key the code indexes, which also make an ingest raise before it stages anything.
- LateCommit.HarmlessIffFits: says nothing of a commit after which an open deletion is stuck, that is, names a document that
  is missing while the client raises on that. Where deleting a missing document is a no-op there is no such commit; that
  fitting repairs keep the invariant (`IndexInvariant.RepairSync`) holds for all.
- Packing.SlidesCover: assumes that decoding respects concatenation, which a byte-level tokenizer does except where a window
  cuts between the bytes of one character; what such a window decodes to is not modelled.
* Chunking methods other than the default one, and cutting prose at a delimiter beforehand.
* Parsing of PDF, DOCX, PPTX, XLSX and HTML; UTF-8 decoding; the 6-level limit of headings, which the code does not enforce.
* Floating point: overlap, coverage and fusion scores are exact reals.
* `str.isspace` and `str.splitlines` are written out as character classes; characters outside those classes are ordinary.
* INET normalisation and JSONB round trips of audit columns; audit rows whose ids are allocated out of order.
* A chunk row without fingerprint, which no ingest writes, and index queries behind the retrieval paths.
* Path A and B scoring, reranking, deadlines, quotas, authorisation, routers, model registry, conversations: plumbing,
  single-branch logic or foreign calls.
