# wikidata-to-surrealdb: the record normalizer and the write path, in Dafny

This project models the two parts of the Wikidata-to-SurrealDB loader that carry its logic:

- **The record normalizer** (`src/utils/tables.rs`) turns one decoded Wikidata entity into two rows:
  - an `EntityMini` row: id, label, description, and a link to the claims row;
  - a `Claims` row: the entity's claims and their qualifiers, flattened in order.

  Item, property and lexeme values become links to records of the `Entity`, `Property` and `Lexeme` tables. Every other value passes through unchanged.

- **The write path** (`src/utils.rs`) has three levels:
  - `create_db_entity` cleans a dump line, skips `[` and `]`, and writes the line's two rows. Each row is written with `create`, then, when that fails and overwriting is on, with `update`.
  - `create_db_entities` writes a batch of lines in order. It stops at the first line that fails and reports progress in steps of 100.
  - `create_db_entities_threaded` cuts the line stream into batches of `batch_size` lines and spawns one worker per batch. It joins all workers every `batch_num` batches, then writes the leftover lines. Each worker retries its batch up to 600 times.

Modules, in dependency order:

| module | file | what it holds |
|---|---|---|
| `Wrappers` | wrappers.dfy | `Option` |
| `Seqs` | seqs.dfy | four small facts about sequence concatenation and slicing |
| `Wikidata` | wikidata.dfy | the decoded entity: ids, claim values, qualifiers, labels, descriptions |
| `Tables` | tables.dfy | the row types, `from_cvd`, `flatten_claims`, `get_id_entity`, `get_name`, `get_description`, `from_entity` |
| `Database` | database.dfy | the store: the class `Store`, plus `create` and `update` as functions on the state value `Db` |
| `Clean` | clean.dfy | `trim`, `trim_end_matches(',')` |
| `Writer` | writer.dfy | `create_db_entity`, `create_db_entities` |
| `Dispatch` | dispatch.dfy | the worker's retry loop, `join_all`, `create_db_entities_threaded` |

The normalizer is pure, so it is modelled as functions and lemmas.

The write path is imperative, and its Dafny form follows that:
- the store is a `Store` object whose `rows` map and `faults` sequence the methods update in place;
- `CreateDbEntity`, `CreateDbEntities`, `RunWorker`, `JoinAll` and `CreateDbEntitiesThreaded` are methods whose loops mirror the source's loops;
- each method is proved equal to a specification function of the old state:
  - `EntityEffect` for one line;
  - `RunLines` for a batch;
  - `Worker`/`Retry` for a worker;
  - `Workers` for a join;
  - `After` for the dispatcher's loop state.

The lemmas then state the source's promises about those functions.

How the environment is modelled:
- **The store** is a map from record ids (`Thing`: table and key) to records. A record has optional content.
- **Transport failures** come from an oracle: `faults[i]` says whether the i-th store call from now on fails. A failed call changes no record (see "## Left out"). Lemmas that say "whatever fails" hold for every oracle.
- **`create`** fails when the id is present or the call fails. Otherwise it stores a record WITHOUT content, because the source passes no `.content(...)`, and reports `Ok`. That reply is an assumption about the client (see `Database.Store.Create` under "## Left out"). Under it, a row's data is written only by `update`, on the overwrite path.
- **`update`** replaces the record's content.
- **The JSON decoder** (`serde_json::from_str` followed by `Entity::from_json`) is the function parameter `parse`.
- **The configuration** (`OVERWRITE_DB`, `WIKIDATA_LANG`) is the `Config` parameter.

## Model

| member | source | states |
|---|---|---|
| Tables.FromCvd | src/utils/tables.rs:20-31 | a value becomes a link exactly when it is an item, property or lexeme reference, with the same key in `Entity`, `Property` or `Lexeme`; any other value is kept unchanged |
| Tables.FromCvdRoundTrip | src/utils/tables.rs:20-31 | the stored form of a claim value can always be read back to that value |
| Tables.ToCvdInverse | src/utils/tables.rs:20-31 | every readable stored form is the image of exactly the value it reads back to |
| Tables.FromCvdInjective | src/utils/tables.rs:20-31 | distinct claim values never get the same stored form |
| Tables.StatementRows | src/utils/tables.rs:79-91 | a claim gives 1 + (its qualifier count) rows: first `Thing("Property", pid)` with `from_cvd(data)`, then, in qualifier order, `Thing("Claims", qualifier pid)` with `from_cvd(qualifier value)` |
| Tables.FlattenClaims | src/utils/tables.rs:74-95 | `id` is `None`, and there are as many rows as the sum over claims of 1 + qualifiers, which is the claim count plus the qualifier count |
| Tables.FlatRows | src/utils/tables.rs:77-93 | the `flat_map` of `flatten_claims`: as many rows as `RowCount`; its order and contents are in `FlatRowsAppend`, `FlatRowsSlice`, `StatementRows` and `FlatRowsTables` |
| Tables.RowCountSplit | src/utils/tables.rs:77-93 | the number of flattened rows is the number of claims plus the number of qualifiers |
| Tables.RowCountAppend | src/utils/tables.rs:77-93 | the row count of two claim lists together is the sum of their row counts |
| Tables.FlatRowsAppend | src/utils/tables.rs:77-93 | flattening distributes over concatenation, so the output follows the claims' input order |
| Tables.FlatRowsSlice | src/utils/tables.rs:77-93 | claim `i`'s rows sit in the output as one block, starting right after the rows of the claims before it |
| Tables.FlatRowsTables | src/utils/tables.rs:80-89 | exactly one row per claim lies in the `Property` table, and exactly one row per qualifier in the `Claims` table |
| Tables.GetIdEntity | src/utils/tables.rs:98-107 | entity, property and lexeme ids go to the `Entity`, `Property` and `Lexeme` tables, keeping the key; other id kinds are excluded (the source's `todo!`) |
| Tables.GetIdEntityRoundTrip | src/utils/tables.rs:98-107 | the record id determines the entity id it came from |
| Tables.GetIdEntityInjective | src/utils/tables.rs:98-107 | distinct entity ids get distinct record ids |
| Tables.ClaimsThing | src/utils/tables.rs:58 | the claims row id is the entity's key in the `Claims` table |
| Tables.ClaimsThingIgnoresKind | src/utils/tables.rs:58 | two entities share a claims row id exactly when their keys are equal, whatever their kinds (Q5 and P5 collide) |
| Tables.GetName | src/utils/tables.rs:109-115 | the label in the configured language when there is one, else `""`; the function is total |
| Tables.GetDescription | src/utils/tables.rs:117-123 | the description in the configured language when there is one, else `""`; the function is total |
| Tables.OtherLanguagesIgnored | src/utils/tables.rs:109-123 | labels and descriptions in other languages never change the name or description chosen |
| Tables.FromEntity | src/utils/tables.rs:57-72 | the claims row has id `Some(Thing("Claims", key))` and the entity row's `claims` field is that id; the entity row has id `Some(get_id_entity(e))`, different from the claims id; the claim list is `flatten_claims(e.claims)`, of the stated length; name and description come from `get_name` and `get_description` |
| Clean.CleanLine | src/utils.rs:49 | definition: `line.trim().trim_end_matches(',')`; its properties are in `CleanLineFacts` and `CleanLineOfElement` |
| Clean.TrimStartFacts | src/utils.rs:49 | `trim_start` keeps a suffix, removes only whitespace, and leaves no leading whitespace |
| Clean.TrimEndFacts | src/utils.rs:49 | `trim_end` keeps a prefix, removes only whitespace, and leaves no trailing whitespace |
| Clean.TrimEndMatchesFacts | src/utils.rs:49 | `trim_end_matches(',')` keeps a prefix, removes only commas, and leaves no trailing comma |
| Clean.CleanLineFacts | src/utils.rs:49 | the cleaned line is no longer than the input, never ends in `,`, and never starts with whitespace |
| Clean.TrimStartSkips | src/utils.rs:49 | `trim_start` of whitespace followed by a non-whitespace start is exactly that rest |
| Clean.TrimEndSkips | src/utils.rs:49 | `trim_end` of a non-whitespace end followed by whitespace is exactly that prefix |
| Clean.CleanLineOfElement | src/utils.rs:49-50 | a dump element written as `<element>,` with surrounding whitespace is cleaned back to the element |
| Database.Store.Create | src/utils.rs:61 | `create` adds a record without content exactly when the call reaches the store and the id is absent, and then reports `Ok`; no existing record changes |
| Database.Store.Update | src/utils.rs:62 | `update(...).content(c)` succeeds exactly when the call reaches the store, and then the id holds content `c` |
| Writer.Classify | src/utils.rs:49-55 | a line is written only when its decoded entity has a supported id kind |
| Writer.ClassifyFacts | src/utils.rs:49-55 | a line is skipped exactly when it cleans to `[` or `]`; a line that is not JSON is reported as such exactly when it is not a bracket and the decoder rejects it; a written line's entity is the decoder's result |
| Writer.RecordsFromEntity | src/utils.rs:57-68 | the claims content written is the claims row `from_entity` builds with its `id` cleared, which is `flatten_claims` of the entity's claims |
| Writer.WriteRow | src/utils.rs:61-63 | definition of one row write (`create`, then `update(...).content(...)` when that fails and overwriting is on), used for the entity row and, at lines 67-69, the claims row; its properties are in `WriteRowFacts` |
| Writer.WriteRowFacts | src/utils.rs:61-63 | with no failing call, one row write settles its id: a fresh id gets an empty record, and a present id keeps its record unless overwriting puts the new content there; with overwriting off the write always returns `Ok` and keeps every record; other ids are untouched; a failed write changes no record |
| Writer.EntityEffect | src/utils.rs:48-71 | definition of one line's store effect and result; its properties are in `EntityEffectOutcome`, `EntityEffectFrame` and `EntityEffectFaultFree`, and `CreateDbEntity` is proved equal to it |
| Writer.RowWritesFacts | src/utils.rs:59-69 | the same for the entity row, then the claims row, in that order |
| Writer.EntityEffectOutcome | src/utils.rs:48-71 | `Ok` with the store unchanged for `[` and `]`; the parse error before any write for a non-JSON line; a panic exactly when the decoder or `get_id_entity` cannot handle the line, with the store unchanged; with overwriting off, always `Ok` for a decoded line |
| Writer.EntityEffectFrame | src/utils.rs:59-69 | a line changes no record except its two; with overwriting off it changes no record already present |
| Writer.EntityEffectFaultFree | src/utils.rs:59-70 | with no failing call, a decoded line settles its entity row and then its claims row and returns `Ok`; the two ids are distinct |
| Writer.FreshEntityGetsEmptyRecords | src/utils.rs:59-69 | with no failing call and both ids absent, each gets a record without content and `update` is not reached, whatever the overwrite flag |
| Writer.PresentEntityOverwritten | src/utils.rs:59-69 | with no failing call, overwriting on and both ids present, each record gets its row's content with `id` cleared, and no other key changes |
| Writer.PresentEntityKept | src/utils.rs:59-69 | with no failing call, overwriting off and both ids present, the store is unchanged and the call returns `Ok` (unless the decoder rejects the line) |
| Writer.CreateFaultIsSilent | src/utils.rs:61 | with overwriting off, a transport failure of `create` is taken for "already present": the line returns `Ok` although its entity row is not written |
| Writer.EntityEffectIdempotent | src/utils.rs:59-69 | with no failing call and overwriting off, writing a line twice leaves the store as writing it once |
| Writer.OverwriteSettlesOnSecondWrite | src/utils.rs:59-69 | with no failing call and overwriting on, and given that `create` reports `Ok` for the record it adds (see `Database.Store.Create` under "## Left out"), a fresh entity's content lands only on the second write, so twice differs from once; a third write changes nothing |
| Writer.CreateDbEntity | src/utils.rs:48-71 | the new store and the result are those of `EntityEffect` on the old store |
| Writer.ProgressAfter | src/utils.rs:81-86 | the progress total after `n` lines is a multiple of 100, at most `n`, and less than 100 below `n` |
| Writer.ProgressStep | src/utils.rs:81-86 | one more line raises the total by 100 exactly when the counter reaches a multiple of 100 |
| Writer.RunLines | src/utils.rs:79-88 | a batch returns `Ok` exactly when all its lines returned `Ok` |
| Writer.RunNext | src/utils.rs:79-88 | the same for a batch with a line left |
| Writer.RunLinesFirst | src/utils.rs:79-80 | a batch runs its first line, then the rest only when that line returned `Ok` |
| Writer.RunLinesFrom | src/utils.rs:79-80 | the same step, seen from line `i` on |
| Writer.RunLinesStopsAtFailure | src/utils.rs:79-80 | the lines before the failing one all returned `Ok`; the failing line's outcome and state are the batch's; no later line is attempted |
| Writer.RunLinesFrame | src/utils.rs:79-88 | a batch changes no record outside the ids of its lines, whatever fails |
| Writer.NoOverwriteKeepsRecords | src/utils.rs:79-88 | with overwriting off, a batch never changes a record already present, whatever fails |
| Writer.NoOverwriteFailsOnlyOnRejects | src/utils.rs:79-88 | with overwriting off, a batch fails only at a line the decoder rejects, whatever fails in transport |
| Writer.TouchedTwice | src/utils.rs:61-67 | adding empty records for `a` and then for `b` is adding them for `a` and `b` at once |
| Writer.SettleNoOverwrite | src/utils.rs:61-67 | with overwriting off, a row write only adds an empty record for an absent id |
| Writer.NoOverwriteBatch | src/utils.rs:79-88 | with overwriting off and no failing call, a batch adds an empty record for every id its lines reach, and changes nothing else |
| Writer.BatchIdempotent | src/utils.rs:79-88 | with overwriting off and no failing call, writing a batch twice leaves the store as writing it once |
| Writer.FaultFreeLineSucceeds | src/utils.rs:48-71 | with no failing call, a line the decoder does not reject returns `Ok` |
| Writer.FaultFreeBatchSucceeds | src/utils.rs:79-88 | with no failing call, a batch none of whose lines is rejected returns `Ok` |
| Writer.MalformedLineFailsBatch | src/utils.rs:54 | a batch holding a line that is not JSON never returns `Ok`, whatever the store does |
| Writer.PanicNeedsPanickingLine | src/utils.rs:55 | a batch panics only at a line whose decoding panics |
| Writer.CreateDbEntities | src/utils.rs:73-89 | the store, the result and the progress total are those of `RunLines` on the old store, with progress counted over the lines that returned `Ok` |
| Dispatch.Retry | src/utils.rs:111-124 | a worker makes at least one attempt and at most 601 − `retries`; when it panics for retries it has made all of them |
| Dispatch.Worker | src/utils.rs:110-125 | a spawned worker makes at most 601 attempts, and exactly 601 when it panics for retries |
| Dispatch.RetryEndsAtOnce | src/utils.rs:113-118 | an attempt that returns `Ok` or panics, or the attempt made at `retries == 600`, ends the worker with that attempt's state |
| Dispatch.RetryStep | src/utils.rs:112-124 | one turn of the loop: stop with this attempt, or go on from its state with `retries + 1` |
| Dispatch.RetryEndsWithLastAttempt | src/utils.rs:112-124 | the last attempt decides the worker's outcome and its final state |
| Dispatch.RetryStopsAtFirstNonError | src/utils.rs:113-115 | every attempt before the last one returned `Err`, so the worker stops at its first successful attempt |
| Dispatch.FaultFreeWorkerFinishesAtOnce | src/utils.rs:113-115 | with no failing call and no rejected line, a worker finishes at its first attempt |
| Dispatch.MalformedLineExhaustsRetries | src/utils.rs:116-118 | a batch with a line that is not JSON, and none whose decoding panics, uses all 601 attempts and panics |
| Dispatch.NoOverwriteRetryKeepsRecords | src/utils.rs:112-124 | with overwriting off, no attempt ever changes a record already present |
| Dispatch.Workers | src/utils.rs:131 | definition of joining pending workers, each run to its end in spawn order; its properties are in `WorkersAppend`, `WorkersSnoc` and `NoOverwriteWorkersKeepRecords`, and `JoinAll` is proved equal to it |
| Dispatch.WorkersAppend | src/utils.rs:131 | joining two lists of workers is joining the first list, then the second |
| Dispatch.WorkersSnoc | src/utils.rs:131 | joining one more worker runs it after the others |
| Dispatch.NoOverwriteWorkersKeepRecords | src/utils.rs:130-138 | with overwriting off, joining workers never changes a record already present |
| Dispatch.AtLeastOne | src/utils.rs:105 | a batch size of 0 acts as 1, since `chunk.len() >= 0` seals after every line |
| Dispatch.ChunksCut | src/utils.rs:102-128 | cutting into batches loses and duplicates no line; each batch has `size` lines; the leftover is shorter |
| Dispatch.ChunksUnique | src/utils.rs:102-128 | those three properties determine the cut |
| Dispatch.EveryLineOnce | src/utils.rs:130-138 | the batches joined at the barriers, the leftover and the last pending batches of the dispatcher's final state hold every input line exactly once |
| Dispatch.Seal | src/utils.rs:103-128 | definition of pushing a line and sealing the chunk into a new worker once it holds `batch_size` lines; its properties are in `SealCut` and `StepBounded` |
| Dispatch.Barrier | src/utils.rs:130-134 | definition of the barrier: once `chunk_counter` reaches `batch_num`, all pending workers are joined and the counter is reset; its properties are in `BarrierCut` and `StepBounded` |
| Dispatch.Step | src/utils.rs:102-135 | definition of one turn of the loop, `Seal` then `Barrier`; its properties are in `StepTracks` |
| Dispatch.After | src/utils.rs:102-135 | definition of the loop state after a prefix of the input; its properties are in `AfterTracks`, `AfterChunks` and `EveryLineOnce`, and `CreateDbEntitiesThreaded`'s loop is proved equal to it |
| Dispatch.SealCut | src/utils.rs:103-128 | pushing a line and sealing a full chunk keeps "spawned batches plus open chunk are the lines read", with full batches and a short chunk |
| Dispatch.BarrierCut | src/utils.rs:130-134 | joining at the barrier moves the pending batches to the joined ones and keeps that cut |
| Dispatch.StepBounded | src/utils.rs:126-134 | `chunk_counter` equals the number of pending workers; between turns fewer than `batch_num` are pending; at most `batch_num` are ever pending at once; each barrier joins exactly `batch_num` workers (one or none when `batch_num` is 0) |
| Dispatch.StepTracks | src/utils.rs:102-135 | one turn of the loop keeps both invariants |
| Dispatch.AfterTracks | src/utils.rs:102-135 | after any prefix of the input, the loop state meets both invariants |
| Dispatch.AfterChunks | src/utils.rs:102-137 | the batches the loop spawns and the chunk it leaves are exactly the cut of the input into batches of `batch_size` |
| Dispatch.AttemptBatch | src/utils.rs:113 | one pass of the retry loop's body writes the batch once: the new store and the result are those of `RunLines` on the old store, and the pass is one turn of `Retry` |
| Dispatch.RunWorker | src/utils.rs:110-125 | the spawned task leaves the store as `Worker` says and returns its outcome and attempt count |
| Dispatch.JoinAll | src/utils.rs:131 | `join_all` runs every pending worker, in spawn order |
| Dispatch.CreateDbEntitiesThreaded | src/utils.rs:91-140 | the loop's final state is `After(lines)`. The store first gets the workers joined at the barriers, in spawn order, then the leftover chunk. When the leftover returns `Ok`, the last pending workers are joined and run. Otherwise the error is returned without joining them, and the model drops their writes (see `Dispatch.CreateDbEntitiesThreaded` under "## Left out"). The result is the leftover's |

## Left out

- Reading the dump (`File_Format`, `reader`, bzip2 decoding) is I/O. The lines are an input sequence, and a read error (`line?`) is not modelled.
- Scheduling of the tokio tasks is not modelled. Workers run one after another, in spawn order, when they are joined. Because they run at the barrier, a worker's writes can never interleave with another worker's.
- A worker's panic is not propagated: `join_all`'s results are discarded in the source too. The model records the worker's outcome, but the dispatcher ignores it.
- The one-second sleep and the `use_ns("wikidata").use_db("wikidata")` reconnection change nothing in the model.
- The JSON decoders are the `parse` parameter. A parse error becomes `Err`. The decoder's `expect` and the `todo!` of `get_id_entity` become a `Panic` outcome.
- Database.Store.Create: the model reports `Ok` whenever `create` adds a record. The source asks the client to decode the created record as `Option<EntityMini>` or `Option<Claims>` (src/utils.rs:61, 67). A record created without content has only its id, and the row structs have no defaults for their other fields (src/utils/tables.rs:34-54). The client may therefore report a decode error although it created the record. With overwriting on, `update` would then write the content on the first write, and `Writer.OverwriteSettlesOnSecondWrite` would not describe the program. The client's reply decoding is not part of this model.
- Dispatch.CreateDbEntitiesThreaded: when the leftover chunk returns an error, the model drops the writes of the workers still pending. In the source those tasks started at `tokio::spawn` (src/utils.rs:110). Returning through `?` at src/utils.rs:137 only drops their handles, so they may go on writing until the runtime stops. How far they get is scheduling, which is not modelled.
- A write the server commits before its reply is lost (a timeout after the commit) is not modelled: a failed call changes no record. `Writer.WriteRowFacts`' "a failed write changes no record" and `Writer.CreateFaultIsSilent`'s "its entity row is not written" rest on this choice of the model, not on the program.
- Tables.GetIdEntity: the source's `todo!` for other id kinds is a precondition here. The write path reaches it only through `Classify`, which reports those lines as a panic.
- The SurrealDB client is a map from record ids to records plus a fault oracle. Serialization, the query language, and sessions are not modelled.
- Numeric keys are unbounded naturals, not `u64`.
- Only the claim-value kinds and fields the loader touches are kept. Floating-point fields are `real`.
- Progress-bar rendering is not modelled. `CreateDbEntities` returns only the total it would have reported, and whether a bar is present does not change writing.
- Connection setup (`init_db`, `main`), progress-bar styling (`init_progress_bar`), the back-off configuration (`init_backoff`), the tests and the benchmarks are not part of this model.
- The `lazy_static` environment globals `OVERWRITE_DB` and `WIKIDATA_LANG` are the `cfg` and `lang` parameters. Failing to read them is not modelled.
