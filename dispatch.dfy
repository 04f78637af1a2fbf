/**
 * `create_db_entities_threaded`: the line stream is cut into batches of
 * `batch_size` lines, one worker is spawned per batch, all workers are joined
 * every `batch_num` batches (a barrier), and the leftover lines are written at the
 * end. Each worker retries its whole batch up to 600 times.
 *
 * Workers are modelled as pending batches that run, one after the other in spawn
 * order, when they are joined; how the runtime interleaves them is not modelled.
 */
module Dispatch {
  import opened Tables
  import opened Database
  import opened Writer
  import opened Seqs

  /** `60 * 10`: the retries a worker makes before it panics. */
  const MaxRetries: nat := 600

  /** How a worker task ends: its batch written, a panic inside the batch, or the retry panic. */
  datatype WorkerOutcome = Finished | Crashed | RetriesExhausted

  datatype WorkerRun = WorkerRun(db: Db, outcome: WorkerOutcome, attempts: nat)

  /** One attempt at a batch: `create_db_entities` on the batch's lines, from a given store. */
  function Attempt(lines: seq<string>, parse: string -> Parsed, cfg: Config): Db -> BatchRun
  {
    d => RunLines(d, lines, parse, cfg)
  }

  /**
   * The worker's loop from `retries` on, over any attempt: it stops at the first
   * attempt that returns `Ok`, ends with a panic inside the attempt, and panics
   * itself once `retries` has reached 600. Sleeping and re-selecting the namespace
   * do not change the model's state.
   */
  function Retry(db: Db, attempt: Db -> BatchRun, retries: nat): (r: WorkerRun)
    requires retries <= MaxRetries
    ensures 1 <= r.attempts <= MaxRetries + 1 - retries
    ensures r.outcome == RetriesExhausted ==> r.attempts == MaxRetries + 1 - retries
    decreases MaxRetries - retries
  {
    var b := attempt(db);
    if b.outcome == Ok then WorkerRun(b.db, Finished, 1)
    else if b.outcome == Panic then WorkerRun(b.db, Crashed, 1)
    else if retries >= MaxRetries then WorkerRun(b.db, RetriesExhausted, 1)
    else
      var next := Retry(b.db, attempt, retries + 1);
      next.(attempts := next.attempts + 1)
  }

  /** One spawned worker, from `retries == 0`: at most 601 attempts, all of them used when it panics for retries. */
  function Worker(db: Db, lines: seq<string>, parse: string -> Parsed, cfg: Config): (r: WorkerRun)
    ensures 1 <= r.attempts <= MaxRetries + 1
    ensures r.outcome == RetriesExhausted ==> r.attempts == MaxRetries + 1
  {
    Retry(db, Attempt(lines, parse, cfg), 0)
  }

  /** The store after `n` attempts that kept failing. */
  function AfterAttempts(db: Db, attempt: Db -> BatchRun, n: nat): Db
    decreases n
  {
    if n == 0 then db else AfterAttempts(attempt(db).db, attempt, n - 1)
  }

  /** The retry outcome that corresponds to an attempt's outcome. */
  function Decided(o: Outcome): WorkerOutcome
  {
    match o
    case Ok => Finished
    case Panic => Crashed
    case Err => RetriesExhausted
  }

  /** An attempt that does not call for a retry ends the worker with that attempt's state. */
  lemma RetryEndsAtOnce(db: Db, attempt: Db -> BatchRun, retries: nat)
    requires retries <= MaxRetries
    requires attempt(db).outcome != Err || retries == MaxRetries
    ensures var b := attempt(db);
      Retry(db, attempt, retries) == WorkerRun(b.db, Decided(b.outcome), 1)
  {
  }

  /** One turn of the retry loop, given the state and outcome its attempt left: stop there, or go on with the next retry. */
  lemma RetryStep(db: Db, attempt: Db -> BatchRun, retries: nat, after: Db, o: Outcome)
    requires retries <= MaxRetries
    requires attempt(db).db == after && attempt(db).outcome == o
    ensures var w := Retry(db, attempt, retries);
      (o != Err || retries == MaxRetries ==> w.db == after && w.outcome == Decided(o) && w.attempts == 1) &&
      (o == Err && retries < MaxRetries ==>
         var n := Retry(after, attempt, retries + 1);
         w.db == n.db && w.outcome == n.outcome && w.attempts == n.attempts + 1)
  {
  }

  /** The last attempt decides the worker's outcome and the final state. */
  lemma {:induction false} RetryEndsWithLastAttempt(db: Db, attempt: Db -> BatchRun, retries: nat)
    requires retries <= MaxRetries
    ensures var w := Retry(db, attempt, retries);
      var last := attempt(AfterAttempts(db, attempt, w.attempts - 1));
      w.db == last.db && w.outcome == Decided(last.outcome)
    decreases MaxRetries - retries
  {
    var b := attempt(db);
    if b.outcome == Err && retries < MaxRetries {
      var next := Retry(b.db, attempt, retries + 1);
      RetryEndsWithLastAttempt(b.db, attempt, retries + 1);
      var w := Retry(db, attempt, retries);
      assert w == next.(attempts := next.attempts + 1);
      assert AfterAttempts(db, attempt, w.attempts - 1) == AfterAttempts(b.db, attempt, next.attempts - 1);
    } else {
      RetryEndsAtOnce(db, attempt, retries);
    }
  }

  /** The worker stops at its first attempt that does not return `Err`: every earlier attempt returned `Err`. */
  lemma {:induction false} RetryStopsAtFirstNonError(db: Db, attempt: Db -> BatchRun, retries: nat, j: nat)
    requires retries <= MaxRetries
    requires j + 1 < Retry(db, attempt, retries).attempts
    ensures attempt(AfterAttempts(db, attempt, j)).outcome == Err
    decreases j
  {
    var b := attempt(db);
    assert b.outcome == Err && retries < MaxRetries;
    if j > 0 {
      assert AfterAttempts(db, attempt, j) == AfterAttempts(b.db, attempt, j - 1);
      RetryStopsAtFirstNonError(b.db, attempt, retries + 1, j - 1);
    }
  }

  /** With no failing store call and no rejected line, a worker finishes at its first attempt. */
  lemma FaultFreeWorkerFinishesAtOnce(db: Db, lines: seq<string>, parse: string -> Parsed, cfg: Config)
    requires db.faults == []
    requires forall i :: 0 <= i < |lines| ==> !Rejects(Classify(lines[i], parse))
    ensures Worker(db, lines, parse, cfg) == WorkerRun(RunLines(db, lines, parse, cfg).db, Finished, 1)
  {
    FaultFreeBatchSucceeds(db, lines, parse, cfg);
    RetryEndsAtOnce(db, Attempt(lines, parse, cfg), 0);
  }

  /**
   * A batch holding a line that is not JSON, and none whose decoding panics, makes
   * its worker use all 601 attempts and panic.
   */
  lemma {:induction false} MalformedLineExhaustsRetries(db: Db, lines: seq<string>, i: nat, parse: string -> Parsed, cfg: Config, retries: nat)
    requires i < |lines| && Classify(lines[i], parse).BadJson?
    requires forall k :: 0 <= k < |lines| ==> !Classify(lines[k], parse).BadEntity? && !Classify(lines[k], parse).Unsupported?
    requires retries <= MaxRetries
    ensures Retry(db, Attempt(lines, parse, cfg), retries).outcome == RetriesExhausted
    ensures Retry(db, Attempt(lines, parse, cfg), retries).attempts == MaxRetries + 1 - retries
    decreases MaxRetries - retries
  {
    MalformedLineFailsBatch(db, lines, i, parse, cfg);
    PanicNeedsPanickingLine(db, lines, parse, cfg);
    var attempt := Attempt(lines, parse, cfg);
    assert attempt(db) == RunLines(db, lines, parse, cfg);
    if retries < MaxRetries {
      MalformedLineExhaustsRetries(attempt(db).db, lines, i, parse, cfg, retries + 1);
    }
  }

  /** With overwriting off, no retry ever changes a record already in the store. */
  lemma {:induction false} NoOverwriteRetryKeepsRecords(db: Db, lines: seq<string>, parse: string -> Parsed, cfg: Config, retries: nat)
    requires !cfg.overwrite && retries <= MaxRetries
    ensures Extends(db.rows, Retry(db, Attempt(lines, parse, cfg), retries).db.rows)
    decreases MaxRetries - retries
  {
    var attempt := Attempt(lines, parse, cfg);
    var b := attempt(db);
    assert b == RunLines(db, lines, parse, cfg);
    NoOverwriteKeepsRecords(db, lines, parse, cfg);
    if b.outcome == Err && retries < MaxRetries {
      NoOverwriteRetryKeepsRecords(b.db, lines, parse, cfg, retries + 1);
    }
  }

  /** Joining workers: each pending batch's worker, in spawn order; their outcomes are discarded. */
  function Workers(db: Db, batches: seq<seq<string>>, parse: string -> Parsed, cfg: Config): Db
    decreases |batches|
  {
    if batches == [] then db
    else Workers(Worker(db, batches[0], parse, cfg).db, batches[1..], parse, cfg)
  }

  lemma {:induction false} WorkersAppend(db: Db, a: seq<seq<string>>, b: seq<seq<string>>, parse: string -> Parsed, cfg: Config)
    ensures Workers(db, a + b, parse, cfg) == Workers(Workers(db, a, parse, cfg), b, parse, cfg)
    decreases |a|
  {
    if a == [] {
      assert a + b == b;
    } else {
      assert (a + b)[0] == a[0] && (a + b)[1..] == a[1..] + b;
      WorkersAppend(Worker(db, a[0], parse, cfg).db, a[1..], b, parse, cfg);
    }
  }

  lemma WorkersSnoc(db: Db, a: seq<seq<string>>, x: seq<string>, parse: string -> Parsed, cfg: Config)
    ensures Workers(db, a + [x], parse, cfg) == Worker(Workers(db, a, parse, cfg), x, parse, cfg).db
  {
    WorkersAppend(db, a, [x], parse, cfg);
    var mid := Workers(db, a, parse, cfg);
    assert Workers(mid, [x], parse, cfg) == Workers(Worker(mid, x, parse, cfg).db, [], parse, cfg) by {
      assert [x][0] == x && [x][1..] == [];
    }
  }

  /** With overwriting off, joining workers never changes a record already in the store. */
  lemma {:induction false} NoOverwriteWorkersKeepRecords(db: Db, batches: seq<seq<string>>, parse: string -> Parsed, cfg: Config)
    requires !cfg.overwrite
    ensures Extends(db.rows, Workers(db, batches, parse, cfg).rows)
    decreases |batches|
  {
    if batches != [] {
      var next := Worker(db, batches[0], parse, cfg).db;
      NoOverwriteRetryKeepsRecords(db, batches[0], parse, cfg, 0);
      NoOverwriteWorkersKeepRecords(next, batches[1..], parse, cfg);
    }
  }

  function Concat<T>(ss: seq<seq<T>>): seq<T>
    decreases |ss|
  {
    if ss == [] then [] else ss[0] + Concat(ss[1..])
  }

  lemma {:induction false} ConcatAppend<T>(a: seq<seq<T>>, b: seq<seq<T>>)
    ensures Concat(a + b) == Concat(a) + Concat(b)
    decreases |a|
  {
    if a == [] {
      assert a + b == b;
    } else {
      assert (a + b)[0] == a[0] && (a + b)[1..] == a[1..] + b;
      ConcatAppend(a[1..], b);
    }
  }

  lemma ConcatCons<T>(x: seq<T>, ss: seq<seq<T>>)
    ensures Concat([x] + ss) == x + Concat(ss)
  {
    assert ([x] + ss)[0] == x && ([x] + ss)[1..] == ss;
  }

  lemma ConcatSnoc<T>(a: seq<seq<T>>, x: seq<T>)
    ensures Concat(a + [x]) == Concat(a) + x
  {
    ConcatAppend(a, [x]);
    assert Concat([x]) == x by {
      assert [x][1..] == [];
    }
  }

  /** A batch size of 0 behaves as 1: `chunk.len() >= 0` seals the chunk after every line. */
  function AtLeastOne(n: nat): (r: nat)
    ensures r >= 1 && (n >= 1 ==> r == n)
  {
    if n == 0 then 1 else n
  }

  /** The sealed batches and the leftover lines. */
  datatype Split = Split(full: seq<seq<string>>, rest: seq<string>)

  /** Cutting lines into batches of `size`, and the leftover. */
  function Chunks(lines: seq<string>, size: nat): (r: Split)
    requires size >= 1
    decreases |lines|
  {
    if |lines| < size then Split([], lines)
    else
      var tail := Chunks(lines[size..], size);
      Split([lines[..size]] + tail.full, tail.rest)
  }

  /** No line lost or duplicated, every batch of `size` lines, the leftover shorter than a batch. */
  lemma {:induction false} ChunksCut(lines: seq<string>, size: nat)
    requires size >= 1
    ensures var r := Chunks(lines, size);
      Concat(r.full) + r.rest == lines &&
      (forall j :: 0 <= j < |r.full| ==> |r.full[j]| == size) &&
      |r.rest| < size
    decreases |lines|
  {
    if |lines| >= size {
      var head, rest := lines[..size], lines[size..];
      var tail := Chunks(rest, size);
      ChunksCut(rest, size);
      ConcatCons(head, tail.full);
      TakeDrop(lines, size);
      AppendAssoc(head, Concat(tail.full), tail.rest);
    }
  }

  /** The three properties of `Chunks` determine it. */
  lemma {:induction false} ChunksUnique(lines: seq<string>, size: nat, full: seq<seq<string>>, rest: seq<string>)
    requires size >= 1
    requires Concat(full) + rest == lines
    requires forall j :: 0 <= j < |full| ==> |full[j]| == size
    requires |rest| < size
    ensures Chunks(lines, size) == Split(full, rest)
    decreases |full|
  {
    if full == [] {
      assert lines == rest;
    } else {
      assert lines == full[0] + (Concat(full[1..]) + rest);
      assert lines[..size] == full[0];
      assert lines[size..] == Concat(full[1..]) + rest;
      ChunksUnique(lines[size..], size, full[1..], rest);
      assert full == [full[0]] + full[1..];
    }
  }

  /**
   * The dispatcher writes the joined batches, then the leftover, then the last
   * pending batches: together every input line exactly once.
   */
  lemma EveryLineOnce(lines: seq<string>, batchSize: nat, batchNum: nat)
    ensures var d := After(lines, batchSize, batchNum);
      multiset(Concat(Concat(d.groups)) + d.chunk + Concat(d.futures)) == multiset(lines)
  {
    AfterTracks(lines, batchSize, batchNum);
    var d := After(lines, batchSize, batchNum);
    ConcatAppend(Concat(d.groups), d.futures);
  }

  /**
   * One pass of the retry loop's body: the batch written once, as a turn of `Retry`.
   * `rest` is the run left from this turn on; when the worker goes on, `next` is the
   * run left from the next turn on.
   */
  method AttemptBatch(db: Store, lines: seq<string>, parse: string -> Parsed, cfg: Config, ghost retries: nat)
    returns (r: Outcome, ghost rest: WorkerRun, ghost next: WorkerRun)
    requires retries <= MaxRetries
    modifies db
    ensures var b := RunLines(old(db.State()), lines, parse, cfg);
      db.State() == b.db && r == b.outcome
    ensures rest == Retry(old(db.State()), Attempt(lines, parse, cfg), retries)
    ensures r != Err || retries == MaxRetries ==>
      db.State() == rest.db && rest.outcome == Decided(r) && rest.attempts == 1
    ensures r == Err && retries < MaxRetries ==>
      next == Retry(db.State(), Attempt(lines, parse, cfg), retries + 1) &&
      rest.db == next.db && rest.outcome == next.outcome && rest.attempts == next.attempts + 1
  {
    ghost var before := db.State();
    var progress;
    r, progress := CreateDbEntities(db, lines, parse, cfg);
    RetryStep(before, Attempt(lines, parse, cfg), retries, db.State(), r);
    rest := Retry(before, Attempt(lines, parse, cfg), retries);
    next := if r == Err && retries < MaxRetries then Retry(db.State(), Attempt(lines, parse, cfg), retries + 1) else rest;
  }

  /** The spawned task: `create_db_entities` in the retry loop. */
  method RunWorker(db: Store, lines: seq<string>, parse: string -> Parsed, cfg: Config)
    returns (outcome: WorkerOutcome, attempts: nat)
    modifies db
    ensures var w := Worker(old(db.State()), lines, parse, cfg);
      db.State() == w.db && outcome == w.outcome && attempts == w.attempts
  {
    ghost var whole := Worker(db.State(), lines, parse, cfg);
    ghost var left := whole;
    var retries := 0;
    attempts := 0;
    while true
      invariant retries <= MaxRetries && attempts == retries
      invariant left == Retry(db.State(), Attempt(lines, parse, cfg), retries)
      invariant whole.db == left.db && whole.outcome == left.outcome && whole.attempts == left.attempts + attempts
      decreases MaxRetries - retries
    {
      var r;
      ghost var rest, next;
      r, rest, next := AttemptBatch(db, lines, parse, cfg, retries);
      attempts := attempts + 1;
      if r == Ok {
        return Finished, attempts;
      }
      if r == Panic {
        // a panic inside the batch ends the task
        return Crashed, attempts;
      }
      if retries >= MaxRetries {
        // the retry limit is reached: the task panics
        return RetriesExhausted, attempts;
      }
      retries := retries + 1;
      left := next;
      // the one-second sleep and `use_ns("wikidata").use_db("wikidata")` leave the model's state as it is
    }
  }

  /** `join_all(futures)`: every pending worker runs to its end. */
  method JoinAll(db: Store, pending: seq<seq<string>>, parse: string -> Parsed, cfg: Config)
    modifies db
    ensures db.State() == Workers(old(db.State()), pending, parse, cfg)
  {
    for j := 0 to |pending|
      invariant db.State() == Workers(old(db.State()), pending[..j], parse, cfg)
    {
      WorkersSnoc(old(db.State()), pending[..j], pending[j], parse, cfg);
      assert pending[..j + 1] == pending[..j] + [pending[j]];
      var _, _ := RunWorker(db, pending[j], parse, cfg);
    }
    assert pending[..|pending|] == pending;
  }

  /**
   * The state of `create_db_entities_threaded`'s loop: the groups of workers joined
   * at each barrier so far, the batches of the workers still pending (`futures`),
   * the open `chunk`, `chunk_counter` and the most workers ever pending at once.
   */
  datatype Dispatcher = Dispatcher(groups: seq<seq<seq<string>>>, futures: seq<seq<string>>,
                                   chunk: seq<string>, counter: nat, peak: nat)

  /** The batches spawned so far, in spawn order. */
  function Spawned(d: Dispatcher): seq<seq<string>>
  {
    Concat(d.groups) + d.futures
  }

  /** Push the line; seal the chunk into a new pending worker once it holds `batch_size` lines. */
  function Seal(d: Dispatcher, line: string, batchSize: nat): Dispatcher
  {
    var chunk := d.chunk + [line];
    if |chunk| >= batchSize then
      var futures := d.futures + [chunk];
      Dispatcher(d.groups, futures, [], d.counter + 1, if |futures| > d.peak then |futures| else d.peak)
    else d.(chunk := chunk)
  }

  /** The barrier: once `chunk_counter` reaches `batch_num`, every pending worker is joined. */
  function Barrier(d: Dispatcher, batchNum: nat): Dispatcher
  {
    if d.counter >= batchNum then d.(groups := d.groups + [d.futures], futures := [], counter := 0)
    else d
  }

  /** One turn of the loop. The barrier condition is evaluated after every line, whether or not it sealed a chunk. */
  function Step(d: Dispatcher, line: string, batchSize: nat, batchNum: nat): Dispatcher
  {
    Barrier(Seal(d, line, batchSize), batchNum)
  }

  /** The loop state once the lines of `prefix` have been read. */
  function After(prefix: seq<string>, batchSize: nat, batchNum: nat): Dispatcher
    decreases |prefix|
  {
    if prefix == [] then Dispatcher([], [], [], 0, 0)
    else Step(After(prefix[..|prefix| - 1], batchSize, batchNum), prefix[|prefix| - 1], batchSize, batchNum)
  }

  /**
   * The spawned batches and the open chunk are the lines read; every spawned batch
   * has `batch_size` lines (at least one) and the open chunk fewer.
   */
  predicate Cut(d: Dispatcher, prefix: seq<string>, batchSize: nat)
  {
    var spawned := Spawned(d);
    Concat(spawned) + d.chunk == prefix &&
    (forall j :: 0 <= j < |spawned| ==> |spawned[j]| == AtLeastOne(batchSize)) &&
    |d.chunk| < AtLeastOne(batchSize)
  }

  /**
   * `chunk_counter` counts the pending workers, fewer than `batch_num` are pending
   * between turns and never more than `batch_num` at once, and every barrier joined
   * `batch_num` workers (one or none when `batch_num` is 0).
   */
  predicate Bounded(d: Dispatcher, batchNum: nat)
  {
    d.counter == |d.futures| && d.counter < AtLeastOne(batchNum) && d.peak <= AtLeastOne(batchNum) &&
    forall g :: 0 <= g < |d.groups| ==> |d.groups[g]| == batchNum || (batchNum == 0 && |d.groups[g]| <= 1)
  }

  /** What the loop keeps between turns. */
  predicate Tracks(d: Dispatcher, prefix: seq<string>, batchSize: nat, batchNum: nat)
  {
    Cut(d, prefix, batchSize) && Bounded(d, batchNum)
  }

  lemma SealCut(d: Dispatcher, prefix: seq<string>, line: string, batchSize: nat)
    requires Cut(d, prefix, batchSize)
    ensures Cut(Seal(d, line, batchSize), prefix + [line], batchSize)
  {
    var chunk := d.chunk + [line];
    if |chunk| >= batchSize {
      ConcatSnoc(Spawned(d), chunk);
      assert Spawned(d) + [chunk] == Spawned(Seal(d, line, batchSize));
    }
  }

  lemma BarrierCut(d: Dispatcher, prefix: seq<string>, batchSize: nat, batchNum: nat)
    requires Cut(d, prefix, batchSize)
    ensures Cut(Barrier(d, batchNum), prefix, batchSize)
  {
    if d.counter >= batchNum {
      ConcatSnoc(d.groups, d.futures);
      assert Spawned(d) == Spawned(Barrier(d, batchNum));
    }
  }

  lemma StepBounded(d: Dispatcher, line: string, batchSize: nat, batchNum: nat)
    requires Bounded(d, batchNum)
    ensures Bounded(Step(d, line, batchSize, batchNum), batchNum)
  {
    var sealed := Seal(d, line, batchSize);
    assert sealed.counter == |sealed.futures| <= AtLeastOne(batchNum);
  }

  lemma StepTracks(d: Dispatcher, prefix: seq<string>, line: string, batchSize: nat, batchNum: nat)
    requires Tracks(d, prefix, batchSize, batchNum)
    ensures Tracks(Step(d, line, batchSize, batchNum), prefix + [line], batchSize, batchNum)
  {
    SealCut(d, prefix, line, batchSize);
    BarrierCut(Seal(d, line, batchSize), prefix + [line], batchSize, batchNum);
    StepBounded(d, line, batchSize, batchNum);
  }

  lemma {:induction false} AfterTracks(prefix: seq<string>, batchSize: nat, batchNum: nat)
    ensures Tracks(After(prefix, batchSize, batchNum), prefix, batchSize, batchNum)
    decreases |prefix|
  {
    if prefix != [] {
      var init := prefix[..|prefix| - 1];
      AfterTracks(init, batchSize, batchNum);
      StepTracks(After(init, batchSize, batchNum), init, prefix[|prefix| - 1], batchSize, batchNum);
      assert init + [prefix[|prefix| - 1]] == prefix;
    }
  }

  /** The batches the loop spawns, and the chunk it leaves, are the cut of the input into batches of `batch_size`. */
  lemma AfterChunks(lines: seq<string>, batchSize: nat, batchNum: nat)
    ensures var d := After(lines, batchSize, batchNum);
      Chunks(lines, AtLeastOne(batchSize)) == Split(Spawned(d), d.chunk)
  {
    AfterTracks(lines, batchSize, batchNum);
    var d := After(lines, batchSize, batchNum);
    ChunksUnique(lines, AtLeastOne(batchSize), Spawned(d), d.chunk);
  }

  /**
   * `create_db_entities_threaded`. `groups` are the workers joined at each barrier,
   * `tail` the workers still pending at the end, `last` the leftover chunk and
   * `peak` the most workers ever pending: the loop's final state. The joined
   * workers write in spawn order, then the leftover, then the pending tail.
   */
  method CreateDbEntitiesThreaded(db: Store, lines: seq<string>, parse: string -> Parsed, cfg: Config,
                                  batchSize: nat, batchNum: nat)
    returns (r: Outcome, ghost groups: seq<seq<seq<string>>>, ghost tail: seq<seq<string>>,
             ghost last: seq<string>, ghost peak: nat)
    modifies db
    ensures var d := After(lines, batchSize, batchNum);
      groups == d.groups && tail == d.futures && last == d.chunk && peak == d.peak
    ensures var joined := Workers(old(db.State()), Concat(groups), parse, cfg);
      var flushed := RunLines(joined, last, parse, cfg);
      r == flushed.outcome &&
      db.State() == if flushed.outcome == Ok then Workers(flushed.db, tail, parse, cfg) else flushed.db
  {
    var futures: seq<seq<string>> := [];
    var chunk: seq<string> := [];
    var chunkCounter := 0;
    groups, peak := [], 0;
    for i := 0 to |lines|
      invariant Dispatcher(groups, futures, chunk, chunkCounter, peak) == After(lines[..i], batchSize, batchNum)
      invariant db.State() == Workers(old(db.State()), Concat(groups), parse, cfg)
    {
      assert lines[..i + 1][..i] == lines[..i];
      chunk := chunk + [lines[i]];
      if |chunk| >= batchSize {
        futures := futures + [chunk];
        chunkCounter := chunkCounter + 1;
        if |futures| > peak {
          peak := |futures|;
        }
        chunk := [];
      }
      if chunkCounter >= batchNum {
        JoinAll(db, futures, parse, cfg);
        WorkersAppend(old(db.State()), Concat(groups), futures, parse, cfg);
        ConcatSnoc(groups, futures);
        groups := groups + [futures];
        futures := [];
        chunkCounter := 0;
      }
    }
    assert lines[..|lines|] == lines;
    tail, last := futures, chunk;
    var flushed, _ := CreateDbEntities(db, chunk, parse, cfg);
    if flushed != Ok {
      // `?` returns the error without joining the pending workers; their writes are not modelled
      r := flushed;
      return;
    }
    JoinAll(db, futures, parse, cfg);
    r := Ok;
  }
}
