# Dejaveph: a verified model

Dejaveph keeps files as chunks in content-addressed *xorbs*. An agent chunks a file, asks the server which
chunks it already has, uploads the rest, and registers the file as a list of *terms* (chunk ranges of xorbs).
Reading a file back turns terms into byte ranges, fetches and decodes them. A mount puts a writable file
system on top, writing edited files back through the agent. This project models the agent, the server, their
concurrent protocol and the mount, and proves what holds of them for every input and every run.

## How the model is laid out

| file | contents |
|---|---|
| `Basics.dfy` | bytes, results, flattening |
| `XorbFormat.dfy` | hashes and the hypotheses on the vendored primitives |
| `ByteRanges.dfy` | `Range` header text, its parser, clamped reads, decoding |
| `ServerModel.dfy` | server state as a value, atomic steps, invariants |
| `Xetd.dfy` | class `Server`: the request handlers |
| `Planner.dfy` | the greedy term planner and the reassembler's entry selection |
| `Reading.dfy` | a read of a file as a function of server states |
| `Agent.dfy` | `IngestBytes`, `Reconstruct` and their laws |
| `Protocol.dfy` | the concurrent system and its runs |
| `ClientRuns.dfy` | clients' input, answers, plans and catalog entries in terms of a run's events |
| `SoloRuns.dfy` | the steps without interleaving make up the requests |
| `GuardExactness.dfy` | the collection guard is necessary and sufficient; blobs that stay unusable for ever |
| `InFlight.dfy` | reads that overlap other traffic |
| `Collection.dfy` | one collection among other traffic |
| `Scrubbing.dfy` | what a scrub can find |
| `DedupHistory.dfy` | the dedup index against a plain scan |
| `PlainFiles.dfy` | the reference file model |
| `InodeTree.dfy`, `TreeBuild.dfy`, `Readdir.dfy` | inode tree, its construction, paged listings |
| `MountModel.dfy` | mount state as a value, its invariants and what it stands for |
| `MountSteps.dfy`, `MountRuns.dfy` | one request and whole runs of requests against the plain file model |
| `Xetfs.dfy` | class `Mount`: the file operations |
| `Mirror.dfy`, `Remount.dfy` | how the catalog follows a mount; the listing, and mounting a volume again |
| `Witness.dfy`, `WitnessRuns.dfy`, `WitnessMounts.dfy` | primitives that meet every hypothesis, and concrete failing inputs, runs and mounts on them |

## Hypotheses

Everything assumed about code outside the model is a predicate on the record `XorbFormat.Primitives`:

- hashes are collision-free: a hash value wraps its preimage, and executable code only compares hashes;
- `LawfulChunker`: the chunks of a byte string are non-empty and concatenate to it;
- `LawfulValidate`: an accepted upload starts with one record per chunk, each decoding to its chunk and consuming
  exactly itself whatever follows, and its footer lists the chunks' hashes, record ends and cumulative lengths.
  One xorb hash may have many encodings, so stored bytes are not a function of the hash;
- `LawfulSerialize`: what the agent packs passes that validation;
- `LawfulDecode`: no record can be decoded from an empty body;
- `PacksAll` (mount only): every group the planner forms can be packed.

`Witness.HypothesesSatisfiable` shows they can all hold at once.

## Where the code does not keep its promise

- *Ingest, then reconstruct, is byte-identical* fails for files that repeat a chunk inside an earlier term: the
  reassembler takes the first covering entry but decodes from that entry's first byte.
  `Witness.RoundTripFailsForRepeatedChunk` gives two concrete files. A term list is *aligned* when each term's first
  covering entry starts where the term does. `Planner.ReassemblyExact`: for every record an agent can make, the decoded
  chunk list is the file's own if and only if the record is aligned; no premise on the xorbs is needed, because dedup
  answers are first occurrences. For bytes instead of chunks only one direction holds: a misaligned record may by
  accident decode to the right bytes cut into other chunks (`Planner.MisalignedBytesMayAgree`); with the same cuts it
  is an equivalence again. Files without a repeated chunk are always aligned.
- *The mount serves what was written* fails when a file with a misaligned record is read without its buffer:
  `WitnessMounts.MountServesWrongBytes`. What holds of every run: `Xetfs.Mount.PerformAll` goes exactly through the
  steps of `MountSteps.MountStep`, and refines the plain file model as long as each request finds the content it
  depends on (in its buffer, in the cache, or under an aligned record). `MountRuns.RunReadableExactly`: a mount all of
  whose files read back stays so throughout a run if and only if every write-back registers an aligned record.
  `MountSteps.StepShows` says what is shown otherwise.
- *Collection is safe beside uploads and registrations* fails because the lock is dropped between mark, delete and
  evict; `WitnessRuns` reaches both failures from the empty server. `GuardExactness` proves the weakest guard: no
  registration of a marked xorb, no new blob under a marked key.
- *Dedup finds every stored chunk* holds until a collection evicts the first holder of a chunk another xorb also holds
  (`WitnessRuns.CompletenessLostReached`); `DedupHistory.EveryRunAnswers` gives the answers of every run whatsoever, and
  `DedupHistory.CompletenessInEveryRun` when they are complete.
- *Creating a file leaves it empty* holds of its bytes, but over an existing name the node keeps its old size
  (`WitnessMounts.CreateLeavesSize`), and over a directory's name the directory gets a buffer; `Xetfs.Mount.CreateFile`
  gives the exact conditions.
- *A volume mounts again as it was*: no path of the new mount has two files if and only if no file that was found under
  another spelling of its path (not exactly one leading slash) has been written back, and then it has the same paths
  with the same hashes (`Remount.RunThenRemount`, `Remount.PrefixFreeExactly`; failing input
  `WitnessMounts.WriteBackSplitsFile`). What it serves for a file is then what the registered terms decode to: the same bytes for every aligned record, and it reads
  back exactly as much as the old mount.
- Listings in which one path is a prefix of another are mounted with siblings of the same name, and exactly those
  (`Xetfs.Connect`, `WitnessMounts.PrefixGivesSiblings`).
- A zero-length write past the end of a file extends it, unlike POSIX; the plain model follows the code.

## Model

| member | source | states |
|---|---|---|
| `Planner.PlanIsOptimal` | crates/xet-agent/src/lib.rs:71-117 | the greedy walk cuts the chunk list into valid terms, and no other cutting has fewer |
| `Planner.PlanCovers` | crates/xet-agent/src/lib.rs:69-117 | the terms are in bounds and spell out every chunk exactly once, in order, for any sound dedup answers |
| `Planner.GroupEndMaximal` | crates/xet-agent/src/lib.rs:77-104 | each group is a run in one xorb, or novel within both caps or of one chunk, and no valid group reaches further |
| `Planner.NovelXorbsHoldMisses` | crates/xet-agent/src/lib.rs:90-111 | a chunk is packed for upload exactly when an occurrence of it got no dedup answer |
| `Planner.UnpackedSum` | crates/xet-agent/src/lib.rs:86-120 | the terms' unpacked lengths sum to the length of what they cover |
| `Planner.ReassemblyExact` | crates/xet-agent/src/lib.rs:176-203 | for every term list an agent can make, the decoded chunk list is its own if and only if each term's first covering entry starts where the term does |
| `Planner.MisalignedBytesMayAgree` | crates/xet-agent/src/lib.rs:176-203 | a misaligned term list whose decoded bytes are right by accident, so bytes alone do not decide alignment |
| `Planner.DistinctChunksAlign` | crates/xet-agent/src/lib.rs:178-185 | pairwise distinct chunks make all terms on one xorb disjoint, hence aligned, whatever answers the plan used |
| `Planner.RepeatedChunkBreaksReassembly` | crates/xet-agent/src/lib.rs:178-203 | with A B C stored, the file A B C B is planned as two terms and reassembles to A B C A |
| `Agent.KnownRunEnd` | crates/xet-agent/src/lib.rs:74-85 | the inner loop finds the end of the maximal known run |
| `Agent.NovelRunEnd` | crates/xet-agent/src/lib.rs:92-104 | the inner loop finds the capped novel run, or one oversized chunk |
| `Agent.WalkChunks` | crates/xet-agent/src/lib.rs:69-117 | the walk emits exactly the plan, performs exactly its uploads, and stops exactly at a group that cannot be packed |
| `Agent.QueryAll` | crates/xet-agent/src/lib.rs:61-65 | every chunk is resolved against the index as it was before the first upload |
| `Agent.IngestBytes` | crates/xet-agent/src/lib.rs:51-133 | returns the content hash and registers the planned record; refused exactly when a group cannot be packed or a xorb is stored but not indexed, with the error for each, and then registers nothing; keeps the server valid |
| `Agent.FailureStopsUploads` | crates/xet-agent/src/lib.rs:90-117 | an ingest that meets a group it cannot pack has uploaded no group from there on |
| `Agent.IngestRecordOk` | crates/xet-agent/src/lib.rs:53-57 | the registered record spells out the chunk list its hash stands for, with the input's length as size |
| `Agent.IngestUploadsMisses` | crates/xet-agent/src/lib.rs:61-117 | an ingest adds exactly the planned xorbs, and they hold exactly the chunks the index lacked |
| `Agent.IngestIndexesEverything` | crates/xetd/src/main.rs:398-412 | without collection, after an ingest every one of its chunks is findable |
| `Agent.SecondIngestIsFree` | crates/xet-agent/src/lib.rs:61-117 | a later ingest of chunks known by then succeeds and changes neither blobs nor xorbs |
| `Agent.DecodeChunks` | crates/xet-agent/src/lib.rs:197-203 | the decode loop yields the concatenation of exactly the asked number of records, or fails |
| `Reading.EntryIsFirstCover` | crates/xet-agent/src/lib.rs:176-185 | the entry found in a xorb's list belongs to the first term of the file that covers the wanted range |
| `Reading.FetchBodyIsRange` | crates/xet-agent/src/lib.rs:187-195 | the body of a fetch is exactly the bytes of the entry's inclusive range |
| `Reading.TermReads` | crates/xet-agent/src/lib.rs:175-203 | a term is read right from any later state that still holds the blob the answer was made for |
| `Reading.ReadBackIsReassembled` | crates/xet-agent/src/lib.rs:160-211 | on a sound server a read of any registered file, through index, byte ranges and blobs, succeeds and gives the runs at the chosen entries' starts |
| `Reading.MissingBlobLosesFile` | crates/xet-agent/src/lib.rs:191-203 | a file one of whose blobs is gone does not read back |
| `Reading.StoredFileReassembles` | crates/xet-agent/src/lib.rs:160-211 | the decoded chunks are the file's if and only if its record is aligned; then the bytes are right, and if the runs are cut alike only then; distinct chunks are aligned |
| `Reading.StoredFileLengths` | crates/xet-agent/src/lib.rs:86-120 | each term's length is the difference of the server's cumulative offsets at its ends; they sum to the file's size and byte count |
| `Agent.Reconstruct` | crates/xet-agent/src/lib.rs:160-211 | in every server state in which the handler does not panic, the result is that of the read of that state, errors included |
| `Agent.ReconstructStored` | crates/xet-agent/src/lib.rs:160-211 | on a sound server: the runs at the chosen entries' starts for every registered file; an unknown hash is refused |
| `Agent.IngestThenReconstruct` | crates/xet-agent/src/lib.rs:51-211 | from any valid server state: ingest then reconstruct decodes the input's own chunks if and only if the registered terms are aligned, and then returns the original bytes; always so without repeated chunks |
| `Agent.CollectBetweenReads` | crates/xetd/src/main.rs:501-523 | collection changes no file's reassembly, reports the number of unreferenced xorbs, and a second run sweeps none |
| `ByteRanges.ParseRange` | crates/xetd/src/main.rs:445-457 | an accepted header names a non-empty range inside the object; no header means the whole object |
| `ByteRanges.ParseRangeExactly` | crates/xetd/src/main.rs:445-457 | accepted exactly if the text is "bytes=", a number, a dash and nothing or a number, numbers being positional decimals below 2^64 with an optional plus sign, and the range meets the object; with exactly that answer |
| `ByteRanges.HeaderText` | crates/xet-agent/src/lib.rs:191 | the agent's header is "bytes=", the two numbers without sign or leading zero, and a dash between |
| `ByteRanges.ParseFormattedRange` | crates/xetd/src/main.rs:445-457 | the exact answer for every printed `first-last`, clamped at the end |
| `ByteRanges.ParseOpenRange` | crates/xetd/src/main.rs:449-456 | the exact answer for every printed open range |
| `ByteRanges.GetRange` | crates/xetd/src/blob.rs:88-93 | exactly the bytes at the positions of the inclusive range that exist |
| `ByteRanges.FetchDecodesRange` | crates/xetd/src/main.rs:292-293 | a chunk range becomes a non-empty inclusive byte range, survives the header and the clamped read, and decodes to exactly its chunks |
| `XorbFormat.DecodeRunYieldsChunks` | crates/xet-agent/src/lib.rs:197-203 | decoding records from a record boundary yields the chunks there, for any encoding |
| `XorbFormat.UnpackedTelescopes` | crates/xetd/src/state.rs:97-105 | cumulative offsets telescope and their differences never underflow |
| `ServerModel.IndexChunksFirst` | crates/xetd/src/state.rs:100-110 | indexing keeps old entries and enters every other hash at its first position |
| `ServerModel.IndexXorbSound` | crates/xetd/src/state.rs:92-110 | the locked index step keeps the dedup index sound, lengths included |
| `ServerModel.EvictSound` | crates/xetd/src/main.rs:516-518 | eviction keeps the dedup index sound |
| `ServerModel.UploadKeepsOk` | crates/xetd/src/main.rs:398-412 | an upload keeps offsets, files and dedup index in order, whichever encoding arrives |
| `ServerModel.SweepKeepsOk` | crates/xetd/src/main.rs:512-521 | sweeping xorbs no file references keeps every file servable |
| `Xetd.Server.PutBlob` | crates/xetd/src/blob.rs:61-78 | a blob write is idempotent and reports whether the key was new |
| `Xetd.Server.IndexChunks` | crates/xetd/src/state.rs:100-110 | the loop computes the specified index, without underflow |
| `Xetd.Server.PutXorb` | crates/xetd/src/main.rs:377-413 | gate, blob write, and the index step only for a new blob; existing blobs, index entries and dedup entries are kept; a rejected body changes nothing |
| `Xetd.Server.RegisterFile` | crates/xetd/src/main.rs:330-353 | refused exactly when some xorb is not indexed, then nothing changes; otherwise record and catalog entry are set |
| `Xetd.Server.CollectRanges` | crates/xetd/src/main.rs:280-302 | every term is translated with all accesses in range; fails exactly when a xorb is not indexed; on a sound server each byte range reads exactly the records of its chunk range |
| `Xetd.Server.Reconstruct` | crates/xetd/src/main.rs:265-326 | 404 and 500 exactly for unknown files and missing xorbs; on a sound server the answered terms spell out the file's chunks, each with the total length of its own, summing to the file's size, and each xorb's entries are its terms' ranges in order, each reading exactly its records |
| `Xetd.AnswerIsSound` | crates/xetd/src/main.rs:265-326 | that, for any complete answer of a sound server |
| `Xetd.Server.XorbData` | crates/xetd/src/main.rs:416-442 | 404, 416 or the clamped range |
| `Xetd.StoredFileTranslates` | crates/xetd/src/main.rs:287-295 | a stored file's translation never panics and never misses a xorb |
| `Xetd.Server.Mark` | crates/xetd/src/main.rs:502-511 | the mark loops collect exactly the referenced xorbs |
| `Xetd.Server.Gc` | crates/xetd/src/main.rs:501-523 | index, blob store and dedup index keep exactly what belongs to xorbs some file has a term on, or were never indexed; counts the rest, and leaves none |
| `Xetd.Server.Scrub` | crates/xetd/src/main.rs:526-552 | counts all indexed xorbs, and those whose blob is gone or fails validation |
| `Xetd.Server.ScrubSeesDamage` | crates/xetd/src/main.rs:539-549 | a sound blob replaced by bytes that fail validation raises the count by one |
| `Protocol.GuardedRunsAreSafe` | crates/xetd/src/main.rs:330-523 | in every guarded run, at every moment: offsets describe the stored bytes, every registered file has in-bounds terms on indexed and stored xorbs that spell out its chunks, the dedup index is sound |
| `Protocol.GuardedRunsOwnBlobs` | crates/xetd/src/main.rs:399-411 | in every guarded run each blob is indexed or has exactly one pending inserter, which still has its blob and its matching footer |
| `Protocol.GuardedRunsRoundTrip` | crates/xet-agent/src/lib.rs:160-211 | at every moment of every guarded run, a read of any registered file goes through; it decodes the file's own chunks if and only if the record is aligned, and then gives its bytes |
| `Protocol.FinishedClientsAreRegistered` | crates/xet-agent/src/lib.rs:119-132 | in every run a client that reported success has its file registered ever after, and every catalog entry names a registered file |
| `ClientRuns.ClientKeepsInput` | crates/xet-agent/src/lib.rs:51-57 | a client works on the chunks of all the bytes its start event gave it, for the path it gave |
| `ClientRuns.DoneMeansRegistered` | crates/xet-agent/src/lib.rs:119-132 | in every run, a client that reported success has the content hash of all the bytes it was started with registered |
| `ClientRuns.RegistrationOutcome` | crates/xetd/src/main.rs:334-346 | a finished walk is registered exactly if every xorb of its terms is indexed at that moment |
| `ClientRuns.CatalogIsLastSuccess` | crates/xetd/src/main.rs:349-351 | the entry of a path is the hash of all the bytes given to the last client that succeeded for it |
| `ClientRuns.EntryHasClient` | crates/xetd/src/main.rs:349-351 | and every entry has such a client |
| `ClientRuns.AnswerOfItsMoment` | crates/xet-agent/src/lib.rs:61-65 | each answer a client gets is that of the reference scan at the moment of its query |
| `ClientRuns.SuccessRegistersPlan` | crates/xet-agent/src/lib.rs:66-128 | a success registers, under the hash of all the input, the planner's terms for the answers got, with the input's length |
| `SoloRuns.SoloIngest` | crates/xet-agent/src/lib.rs:51-133 | an ingest's steps without interleaving do to the server exactly what the agent's ingest does, and succeed exactly when it does |
| `SoloRuns.SoloUpload` | crates/xetd/src/main.rs:377-413 | blob step and index step without interleaving are the upload handler |
| `SoloRuns.SoloCollection` | crates/xetd/src/main.rs:501-523 | mark, deletes, evicts and end without interleaving are the collection handler |
| `Protocol.EveryRunKeepsDedupSound` | crates/xetd/src/state.rs:92-110 | in every run, guarded or not, each dedup entry points at an indexed xorb holding that chunk, with its length |
| `Protocol.QueryKeeps` | crates/xet-agent/src/lib.rs:61-65 | a dedup answer stays right for the client whatever the server does afterwards |
| `Protocol.StepKeeps` | crates/xetd/src/main.rs:377-523 | every step of client, upload or collector keeps the whole invariant under the guard |
| `Protocol.StoreKeeps` | crates/xetd/src/main.rs:399-402 | the blob step of an upload keeps the server-side invariant |
| `Protocol.IndexKeeps` | crates/xetd/src/main.rs:403-411 | the index step keeps it, whatever happened since the blob step |
| `Protocol.MarkKeeps` | crates/xetd/src/main.rs:502-511 | marking keeps it: nothing a file needs is marked |
| `Protocol.DeleteKeeps` | crates/xetd/src/main.rs:514-515 | a blob delete keeps it |
| `Protocol.EvictKeeps` | crates/xetd/src/main.rs:516-519 | an eviction keeps it |
| `GuardExactness.RegistrationGuardExact` | crates/xetd/src/main.rs:334-352 | a registration survives every continuation of the running collections if and only if it names no marked xorb |
| `GuardExactness.UploadGuardExact` | crates/xetd/src/main.rs:399-411 | a new blob survives every continuation of collections and its own index step if and only if its key is not marked |
| `GuardExactness.NovelUploadGuardExact` | crates/xet-agent/src/lib.rs:105-116 | the same for the next novel group of an agent |
| `GuardExactness.WindowUploadPoisons` | crates/xetd/src/main.rs:514-519 | an upload between the delete and the evict of its key leaves a blob that is stored, not indexed and owned by nobody |
| `GuardExactness.PoisonedForEver` | crates/xetd/src/main.rs:399-412 | such a blob stays so in every run, and no record that names it is ever accepted |
| `InFlight.ReadInFlight` | crates/xet-agent/src/lib.rs:160-211 | in every guarded run, a read whose terms are fetched at any later moments gives what a read at the moment of the answer gives, if no collection marks a term's xorb before its fetch |
| `InFlight.ReadWhileRegistered` | crates/xet-agent/src/lib.rs:160-211 | so it does as long as the file is not registered again with another record |
| `InFlight.FetchSafeExactly` | crates/xetd/src/main.rs:501-523 | a fetch still to come is right after every continuation of collections, running or yet to start, if and only if its xorb is unmarked and named by some file or not indexed yet |
| `InFlight.KeptLostExactly` | crates/xetd/src/main.rs:330-523 | of all steps of the system, exactly these end that safety: the index step of the xorb itself, and a registration that replaces the last record naming it |
| `InFlight.FetchSafeAlong` | crates/xet-agent/src/lib.rs:160-211 | a fetch still to come stays right through any guarded uploads, registrations and collections without such a step |
| `Collection.CollectionExact` | crates/xetd/src/main.rs:501-523 | in every guarded run, between its mark and its end a collection removes every xorb it marked, and none of its steps removes anything else |
| `Collection.CollectionStepsUnseen` | crates/xetd/src/main.rs:501-523 | in every guarded run no step of a collection changes what any read gives |
| `Scrubbing.EveryRunKeepsBlobsValid` | crates/xetd/src/main.rs:526-552 | in every run every stored blob passes validation, so a scrub counts exactly the indexed xorbs without a blob |
| `Scrubbing.GuardedScrub` | crates/xetd/src/main.rs:526-552 | in every guarded run a scrub finds only what a collection is deleting, nothing while none runs, and never a xorb of a registered file |
| `DedupHistory.DedupIsFirstOccurrence` | crates/xetd/src/state.rs:100-110 | in every run without collection each dedup answer is that of a plain scan of all indexed xorbs, each once, in index order, first occurrence winning |
| `DedupHistory.EveryRunAnswers` | crates/xetd/src/state.rs:92-110 | in every run, with anything racing, each dedup answer is that of a plain scan of the xorbs indexed since the chunk was last forgotten |
| `DedupHistory.CompletenessInEveryRun` | crates/xetd/src/main.rs:501-523 | at any moment of any run every chunk of every indexed xorb is findable if and only if each is held by a xorb indexed since it was last forgotten |
| `DedupHistory.CompletenessAfterCollection` | crates/xetd/src/main.rs:501-523 | before the first collection every chunk of every xorb is findable; after it if and only if no surviving xorb holds a chunk whose first holder in index order no file names |
| `PlainFiles.WriteAt` | crates/xetfs/src/lib.rs:314-324 | every byte of the file after a write: the data, the old byte, or zero in a gap |
| `PlainFiles.ReadYourWrite` | crates/xetfs/src/lib.rs:283-324 | a later read of a written range gives the data after any requests that do not edit the file |
| `PlainFiles.RunFits` | crates/xetfs/src/lib.rs:238-390 | every answer of every run fits the files before and after its request: created inodes are new and empty, counts are the data's length, sizes the file's, data the bytes there are; other files stay |
| `PlainFiles.CreateWriteRead` | crates/xetfs/src/lib.rs:238-329 | create, write at the answered inode, read there: the data, with any requests for other files in between |
| `InodeTree.ComputeFullPath` | crates/xetfs/src/lib.rs:198-212 | the walk to the root ends and yields the names from the root |
| `InodeTree.TrimsSlashes` | crates/xetfs/src/lib.rs:74 | exactly the leading slashes are trimmed |
| `InodeTree.AddNodeKeepsTree` | crates/xetfs/src/lib.rs:251-262 | a new node becomes its parent's last child, all else stays, and parents before children and child lists in agreement are kept |
| `InodeTree.LookupExact` | crates/xetfs/src/lib.rs:216-224 | lookup answers with the first child of that name, and fails only if there is none |
| `InodeTree.LookupAdded` | crates/xetfs/src/lib.rs:248-262 | a node added under a free name is what lookup then finds |
| `InodeTree.WalkArrives` | crates/xetfs/src/lib.rs:216-224 | with unique sibling names, walking an inode's own names arrives at it |
| `InodeTree.FullPathInjective` | crates/xetfs/src/lib.rs:198-212 | with unique sibling names, no two inodes share a full path |
| `TreeBuild.EnterDir` | crates/xetfs/src/lib.rs:97-109 | a path component reuses the directory of that path or creates it, and touches nothing else |
| `TreeBuild.InsertEntry` | crates/xetfs/src/lib.rs:73-111 | one catalog entry adds its file under its own path and only directories on the way |
| `TreeBuild.BuildTree` | crates/xetfs/src/lib.rs:65-111 | any catalog gives a proper tree with exactly one file per named entry, and directories only on the way to files |
| `TreeBuild.PathOfLeaf` | crates/xetfs/src/lib.rs:198-212 | each file's full path is its catalog path with exactly one leading slash |
| `TreeBuild.WalkReachesLeaf` | crates/xetfs/src/lib.rs:65-111 | for prefix-free catalogs, looking up a path component by component reaches its inode |
| `TreeBuild.UniqueIffPrefixFree` | crates/xetfs/src/lib.rs:65-111 | siblings have different names if and only if no path of the catalog is a prefix of another |
| `Readdir.ReadDir` | crates/xetfs/src/lib.rs:392-419 | one call returns the entries from the offset that fit, and where to resume |
| `Readdir.AllEntriesExact` | crates/xetfs/src/lib.rs:401-412 | the full listing is the dot entries and every child exactly once, in order, and nothing else |
| `Readdir.ListingGrows` | crates/xetfs/src/lib.rs:401-412 | after a create the directory lists what it listed before, then the new entry |
| `Readdir.PagedListing` | crates/xetfs/src/lib.rs:392-419 | successive calls, each resuming where the last stopped, list the directory up to the room given, so all of it exactly if the room adds up to the number of entries |
| `MountModel.CleanHash` | crates/xetfs/src/lib.rs:182-196 | a clean file carries the hash a from-scratch ingest of its bytes would give |
| `MountModel.StoredCatalog` | crates/xetfs/src/lib.rs:183-196 | a write-back sets the entry of the written path and moves no other file's, unless two files share a path |
| `MountModel.IngestKeepsReadable` | crates/xetfs/src/lib.rs:183-196 | storing a file keeps all files of the mount readable if and only if the record it registers is aligned |
| `MountModel.FetchableServes` | crates/xetfs/src/lib.rs:151-169 | a file that is cached or has an aligned record is served with its own bytes |
| `MountModel.CloseEffect` | crates/xetfs/src/lib.rs:377-390 | dropping a clean buffer changes no intended content and nothing served for other files; the file itself is then served with its content if cached or aligned |
| `MountSteps.StepOrderly` | crates/xetfs/src/lib.rs:238-390 | every request with free names and existing files keeps tree, buffers, hashes and catalog in order, whatever the server's records decode to |
| `MountSteps.StepRefines` | crates/xetfs/src/lib.rs:238-390 | a request that finds the content it depends on acts and answers as the plain model does |
| `MountSteps.StepReadable` | crates/xetfs/src/lib.rs:171-196 | from a mount whose files all read back, a request leaves such a mount if and only if what it writes back is registered aligned |
| `MountSteps.StepShows` | crates/xetfs/src/lib.rs:238-390 | readable or not: every answer is the plain model's on the files as seen; what is seen changes as there, except that a release shows the stored file and a write-back the new record of the same content |
| `MountRuns.RunOrderly` | crates/xetfs/src/lib.rs:238-390 | at every moment of every run the mount is in order and agrees with the plain model on files, directories, names and unwritten edits |
| `MountRuns.RunRefines` | crates/xetfs/src/lib.rs:238-390 | as long as every request finds its content, replies and files are those of the plain model |
| `MountRuns.RunReadableExactly` | crates/xetfs/src/lib.rs:171-196 | a readable mount stays readable at every moment of a run if and only if every write-back registers aligned terms; then every request finds its content |
| `MountRuns.StorableAligns` | crates/xetfs/src/lib.rs:171-196 | runs that write back only content without repeated chunks are such runs |
| `Xetfs.Connect` | crates/xetfs/src/lib.rs:59-123 | mounting any listing: every entry a file under its path, with its hash and size; all files read back if and only if all their records are aligned; siblings have different names if and only if the listing is prefix-free, and then lookups reach every file |
| `Xetfs.Mount.FileBytes` | crates/xetfs/src/lib.rs:151-160 | the cached copy or what the registered terms decode to; those of the node's hash if the cache is right and the file cached or aligned |
| `Xetfs.Mount.EnsureStaging` | crates/xetfs/src/lib.rs:163-169 | the buffer is seeded with what is served; if this file is readable that is its current bytes and nothing visible changes |
| `Xetfs.Mount.WriteFile` | crates/xetfs/src/lib.rs:301-329 | the buffer is what was served, overwritten, the size its length, the answer the number of bytes given; a plain write of the content if that could be had |
| `Xetfs.Mount.SetAttr` | crates/xetfs/src/lib.rs:332-365 | with a size: what was served, truncated or zero-extended, a plain resize if the content could be had; without: nothing changes |
| `Xetfs.Mount.ReadFile` | crates/xetfs/src/lib.rs:272-299 | the clamped slice of what is served, of the content if it can be had, or no entry; a file without buffer is cached from then on |
| `Xetfs.Mount.FlushIfDirty` | crates/xetfs/src/lib.rs:171-196 | exact new state of mount and server; the catalog then has the content hash of a file just written, or edited and alone under its path; all records stay aligned if and only if the new one is |
| `Xetfs.Mount.Sync` | crates/xetfs/src/lib.rs:367-375 | the same for `fsync` and `flush` |
| `Xetfs.Mount.ReleaseFile` | crates/xetfs/src/lib.rs:377-390 | the same for `release`, which also drops the buffer |
| `Xetfs.Mount.CreateFile` | crates/xetfs/src/lib.rs:238-270 | the answered inode is what lookup finds under that parent and name, with an empty dirty buffer; a fresh name gets the next free inode, last in its directory; the mount stays in order if and only if an existing name is no directory's, and sizes stay right if and only if the name was fresh or the old size zero |
| `Xetfs.Mount.Perform` | crates/xetfs/src/lib.rs:238-390 | any single request: exact new state of mount and server and the answer; the plain model's if the content it depends on can be had |
| `Xetfs.Mount.PerformAll` | crates/xetfs/src/lib.rs:238-390 | every finite run of requests: exact final state and replies; the replies are the plain model's up to the first request without its content, and there is none if every write-back registers aligned terms |
| `Xetfs.Mount.PerformThenFsync` | crates/xetfs/src/lib.rs:171-212 | incremental equals full: after any run and a final `fsync`, the catalog holds the hash a from-scratch ingest of the file's current bytes would return, if no other file has its path; those are the plain model's bytes if every request found its content |
| `Mirror.RunMirrors` | crates/xetfs/src/lib.rs:182-196 | along a run that writes back no file found under another spelling, every clean file is listed under one path with its hash and nothing else is listed |
| `Mirror.RunGrows` | crates/xetfs/src/lib.rs:182-196 | along every run entries are only added or replaced, and every file written back has one under its path |
| `Remount.ListEntries` | crates/xetd/src/main.rs:363-373 | the listing holds each path of the volume exactly once, with its hash and size |
| `Remount.PrefixFreeExactly` | crates/xetfs/src/lib.rs:73-111 | after any run the listing is prefix-free if and only if no file found under another spelling of its path was written back |
| `Remount.RemountShowsSame` | crates/xetfs/src/lib.rs:59-123 | a mount built from the listing of a settled mount has the same paths with the same hashes |
| `Remount.RemountServes` | crates/xetfs/src/lib.rs:151-160 | it serves what the registered terms decode to, the content for every aligned record, with the content's length as size, and reads back exactly as much as the old mount |
| `Remount.RunThenRemount` | crates/xetfs/src/lib.rs:59-390 | any run of requests, release of every file, and a new mount: names are unique if and only if nothing was split by its spelling; then same paths and hashes, the same bytes for every aligned record, the same readability, and the new mount is again one of which this holds |
| `Remount.MountVolume` | crates/xetfs/src/lib.rs:59-123 | listing and mounting a prefix-free volume gives a mount whose catalog answers for all its files |
| `Witness.HypothesesSatisfiable` | crates/xet-agent/src/lib.rs:53-57 | the assumptions on chunker, serializer, validator and decoder can all hold |
| `Witness.RoundTripFailsForRepeatedChunk` | crates/xet-agent/src/lib.rs:178-203 | two successful ingests on an empty server after which the second file reads back wrong |
| `WitnessRuns.RegistrationRaceReached` | crates/xetd/src/main.rs:501-523 | a run from the empty server in which a collection deletes the blob of a file registered in between; the file is in the catalog and does not read back |
| `WitnessRuns.UploadRaceReached` | crates/xetd/src/main.rs:399-411 | a run in which a xorb uploaded again during its collection is stored, never indexed, and unusable in every continuation |
| `WitnessRuns.CompletenessLostReached` | crates/xetd/src/main.rs:516-518 | a run in which a chunk is still stored but a query for it finds nothing |
| `WitnessMounts.MountServesWrongBytes` | crates/xetfs/src/lib.rs:272-299 | a mount whose file was ingested as 1 2 3 2 reads 1 2 3 1 |
| `WitnessMounts.CreateLeavesSize` | crates/xetfs/src/lib.rs:238-270 | a file of size 3 created over: empty, with size 3 |
| `WitnessMounts.WriteBackSplitsFile` | crates/xetfs/src/lib.rs:73-111 | a file found under a path without its slash, written back and mounted again: sibling names are no longer unique |
| `WitnessMounts.PrefixGivesSiblings` | crates/xetfs/src/lib.rs:73-111 | a path that is a prefix of another: a file and a directory under one name |

## Left out

- HTTP routing, JSON and hex encoding (malformed hashes), authentication, tokens, metrics, command line: plumbing.
- Network and blob-store failures: requests and blob operations succeed; a blob write is one atomic step per key, so the shared temporary name and the rename of the local store are not modelled.
- The S3 back end and presigned addresses: a fetch address names its xorb.
- Gearhash chunking, BLAKE3 and Merkle hashing, xorb wire format and compression: the hypotheses above.
- Registrations not made by the agent: the server checks neither term bounds nor the file hash, so the file claims are about the agent's requests.
- Quarantine: `test_scrub` only counts damaged xorbs, and so does the model; blobs damaged on disk are not modelled.
- Collection in the protocol deletes blobs successfully; a delete that fails is ignored by the code and not modelled.
- Mount operations under server failure: a failed reconstruct seeds an empty buffer and a failed write-back has already cleared the dirty flag; the mount's server has no upload or collection of others under way, so neither happens.
- Perform, PerformAll: a create over an existing name is not part of a run, because the kernel looks the name up first; `Xetfs.Mount.CreateFile` states what it does.
- File attributes other than size, time-outs, user ids, kernel cache flags: constants.
- Shards, keyed dedup, reference-counting collection, crash recovery, ranged reconstruction: described in the design but absent from the code.
