/**
 * The row-upsert writer: `create_db_entity` writes the two rows of one line with
 * create-then-maybe-update semantics, and `create_db_entities` writes a batch of
 * lines in order. The configuration (`OVERWRITE_DB`, `WIKIDATA_LANG`) and the JSON
 * decoder are parameters.
 */
module Writer {
  import opened Wrappers
  import opened Wikidata
  import opened Tables
  import opened Database
  import opened Clean

  datatype Config = Config(lang: Lang, overwrite: bool)

  /** What `serde_json::from_str` followed by `Entity::from_json` makes of a cleaned line. */
  datatype Parsed = NotJson | NotEntity | Decoded(entity: Entity)

  /** `Ok(())`, an `Err` returned through `?`, or a panic (`expect`, `todo!`). */
  datatype Outcome = Ok | Err | Panic

  datatype Effect = Effect(db: Db, outcome: Outcome)

  /** How `create_db_entity` treats a line, before it writes anything. */
  datatype LineKind = Bracket | BadJson | BadEntity | Unsupported | Row(entity: Entity)

  function Classify(line: string, parse: string -> Parsed): (k: LineKind)
    ensures k.Row? ==> IsSupported(k.entity.id)
  {
    var cleaned := CleanLine(line);
    if cleaned == "[" || cleaned == "]" then Bracket
    else match parse(cleaned)
      case NotJson => BadJson
      case NotEntity => BadEntity
      case Decoded(e) => if IsSupported(e.id) then Row(e) else Unsupported
  }

  /**
   * Only `[` and `]` are skipped, and a row is written only for a line whose cleaned
   * form decodes to an entity of a supported kind.
   */
  lemma ClassifyFacts(line: string, parse: string -> Parsed)
    ensures var k := Classify(line, parse);
      (k.Bracket? <==> CleanLine(line) == "[" || CleanLine(line) == "]") &&
      (k.Row? ==> IsSupported(k.entity.id) && parse(CleanLine(line)) == Decoded(k.entity)) &&
      (k.BadJson? <==> CleanLine(line) != "[" && CleanLine(line) != "]" && parse(CleanLine(line)).NotJson?)
  {
  }

  /** The line kinds that stop `create_db_entity` before any store call. */
  predicate Rejects(k: LineKind)
  {
    k.BadJson? || k.BadEntity? || k.Unsupported?
  }

  /** The content written for the entity row: the row with its `id` cleared. */
  function EntityRecord(e: Entity, lang: Lang): Content
    requires IsSupported(e.id)
  {
    EntityContent(FromEntity(e, lang).1.(id := None))
  }

  /** The content written for the claims row: the flattened claims, without an id. */
  function ClaimsRecord(e: Entity, lang: Lang): Content
    requires IsSupported(e.id)
  {
    ClaimsContent(FlattenClaims(e.claims))
  }

  /** The claims content is the claims row `from_entity` builds, with its `id` cleared. */
  lemma RecordsFromEntity(e: Entity, lang: Lang)
    requires IsSupported(e.id)
    ensures ClaimsRecord(e, lang) == ClaimsContent(FromEntity(e, lang).0.(id := None))
  {
  }

  /** The record ids a line may write. */
  function LineKeys(line: string, parse: string -> Parsed): set<Thing>
  {
    match Classify(line, parse)
    case Row(e) => {GetIdEntity(e), ClaimsThing(e)}
    case _ => {}
  }

  /** Every record of `a` is still in `b`, unchanged. */
  ghost predicate Extends(a: Rows, b: Rows)
  {
    forall k :: k in a ==> k in b && b[k] == a[k]
  }

  /** `a` and `b` differ at most at the ids in `ks`. */
  ghost predicate AgreeOutside(a: Rows, b: Rows, ks: set<Thing>)
  {
    forall k :: k !in ks ==> (k in a <==> k in b) && (k in a ==> a[k] == b[k])
  }

  /**
   * What one row write does when no call fails: a fresh id gets a record without
   * content (`create` is given none); a present id keeps its record, unless
   * overwriting is on, in which case its content is replaced.
   */
  function Settle(rows: Rows, id: Thing, c: Content, overwrite: bool): Rows
  {
    if id !in rows then rows[id := Empty]
    else if overwrite then rows[id := Record(Some(c))]
    else rows
  }

  /**
   * One row of `create_db_entity`: `create`, and when it fails and overwriting is
   * on, `update(...).content(c)`, whose error is returned.
   */
  function WriteRow(db: Db, id: Thing, c: Content, overwrite: bool): Reply
  {
    var created := CreateSpec(db, id);
    if !created.ok && overwrite then UpdateSpec(created.db, id, c)
    else Reply(created.db, true)
  }

  /**
   * With no failing call a row write settles its id; with overwriting off it
   * always succeeds and keeps every record; it touches no other id; and a failed
   * write changes no record.
   */
  lemma WriteRowFacts(db: Db, id: Thing, c: Content, overwrite: bool)
    ensures var r := WriteRow(db, id, c, overwrite);
      (db.faults == [] ==> r.ok && r.db == Db(Settle(db.rows, id, c, overwrite), [])) &&
      (!overwrite ==> r.ok && Extends(db.rows, r.db.rows)) &&
      AgreeOutside(db.rows, r.db.rows, {id}) &&
      (!r.ok ==> r.db.rows == db.rows)
  {
  }

  /** The two row writes of a decoded line, the entity row first. */
  lemma RowWritesFacts(db: Db, e: Entity, cfg: Config)
    requires IsSupported(e.id)
    ensures var w1 := WriteRow(db, GetIdEntity(e), EntityRecord(e, cfg.lang), cfg.overwrite);
      var w2 := WriteRow(w1.db, ClaimsThing(e), ClaimsRecord(e, cfg.lang), cfg.overwrite);
      (db.faults == [] ==> w1.ok && w1.db == Db(Settle(db.rows, GetIdEntity(e), EntityRecord(e, cfg.lang), cfg.overwrite), [])) &&
      (w1.db.faults == [] ==> w2.ok && w2.db == Db(Settle(w1.db.rows, ClaimsThing(e), ClaimsRecord(e, cfg.lang), cfg.overwrite), [])) &&
      (!cfg.overwrite ==> w1.ok && w2.ok && Extends(db.rows, w1.db.rows) && Extends(w1.db.rows, w2.db.rows)) &&
      AgreeOutside(db.rows, w1.db.rows, {GetIdEntity(e)}) &&
      AgreeOutside(w1.db.rows, w2.db.rows, {ClaimsThing(e)}) &&
      (!w1.ok ==> w1.db.rows == db.rows)
  {
    WriteRowFacts(db, GetIdEntity(e), EntityRecord(e, cfg.lang), cfg.overwrite);
    var w1 := WriteRow(db, GetIdEntity(e), EntityRecord(e, cfg.lang), cfg.overwrite);
    WriteRowFacts(w1.db, ClaimsThing(e), ClaimsRecord(e, cfg.lang), cfg.overwrite);
  }

  /** The effect of `create_db_entity` on the store, and what it returns. */
  function EntityEffect(db: Db, line: string, parse: string -> Parsed, cfg: Config): Effect
  {
    match Classify(line, parse)
    case Bracket => Effect(db, Ok)
    case BadJson => Effect(db, Err)
    case BadEntity => Effect(db, Panic)
    case Unsupported => Effect(db, Panic)
    case Row(e) =>
      var w1 := WriteRow(db, GetIdEntity(e), EntityRecord(e, cfg.lang), cfg.overwrite);
      if !w1.ok then Effect(w1.db, Err)
      else
        var w2 := WriteRow(w1.db, ClaimsThing(e), ClaimsRecord(e, cfg.lang), cfg.overwrite);
        Effect(w2.db, if w2.ok then Ok else Err)
  }

  /**
   * What `create_db_entity` returns: `Ok` without touching the store for `[` and
   * `]`; the `from_str` error, again before any write, for a line that is not JSON;
   * a panic exactly for a line the entity decoder or `get_id_entity` cannot handle;
   * and, with overwriting off, `Ok` for every decoded line, whatever fails.
   */
  lemma EntityEffectOutcome(db: Db, line: string, parse: string -> Parsed, cfg: Config)
    ensures var k, r := Classify(line, parse), EntityEffect(db, line, parse, cfg);
      (k.Bracket? ==> r == Effect(db, Ok)) &&
      (k.BadJson? ==> r == Effect(db, Err)) &&
      (k.Row? && !cfg.overwrite ==> r.outcome == Ok) &&
      (r.outcome == Panic <==> k.BadEntity? || k.Unsupported?) &&
      (r.outcome == Panic ==> r.db == db)
  {
    var k := Classify(line, parse);
    if k.Row? {
      RowWritesFacts(db, k.entity, cfg);
    }
  }

  /**
   * `create_db_entity` changes no record but the two of its line; with overwriting
   * off it changes no record already present.
   */
  lemma EntityEffectFrame(db: Db, line: string, parse: string -> Parsed, cfg: Config)
    ensures var r := EntityEffect(db, line, parse, cfg);
      AgreeOutside(db.rows, r.db.rows, LineKeys(line, parse)) &&
      (!cfg.overwrite ==> Extends(db.rows, r.db.rows))
  {
    var k := Classify(line, parse);
    if k.Row? {
      RowWritesFacts(db, k.entity, cfg);
    }
  }

  /**
   * With no failing call, a decoded line settles its entity row and then its claims
   * row, and returns `Ok`; the two ids are distinct.
   */
  lemma EntityEffectFaultFree(db: Db, line: string, parse: string -> Parsed, cfg: Config)
    requires db.faults == [] && Classify(line, parse).Row?
    ensures var e := Classify(line, parse).entity;
      GetIdEntity(e) != ClaimsThing(e) &&
      EntityEffect(db, line, parse, cfg) ==
        Effect(Db(Settle(Settle(db.rows, GetIdEntity(e), EntityRecord(e, cfg.lang), cfg.overwrite),
                         ClaimsThing(e), ClaimsRecord(e, cfg.lang), cfg.overwrite), []), Ok)
  {
    RowWritesFacts(db, Classify(line, parse).entity, cfg);
  }

  /** A fresh entity gets two records without content, whatever the overwrite flag. */
  lemma FreshEntityGetsEmptyRecords(db: Db, line: string, parse: string -> Parsed, cfg: Config)
    requires db.faults == [] && Classify(line, parse).Row?
    requires GetIdEntity(Classify(line, parse).entity) !in db.rows
    requires ClaimsThing(Classify(line, parse).entity) !in db.rows
    ensures var e := Classify(line, parse).entity;
      EntityEffect(db, line, parse, cfg) ==
        Effect(Db(db.rows[GetIdEntity(e) := Empty][ClaimsThing(e) := Empty], []), Ok)
  {
    EntityEffectFaultFree(db, line, parse, cfg);
  }

  /** With overwriting on, present records get the rows' contents and nothing else changes. */
  lemma PresentEntityOverwritten(db: Db, line: string, parse: string -> Parsed, cfg: Config)
    requires db.faults == [] && cfg.overwrite && Classify(line, parse).Row?
    requires GetIdEntity(Classify(line, parse).entity) in db.rows
    requires ClaimsThing(Classify(line, parse).entity) in db.rows
    ensures var e := Classify(line, parse).entity;
      EntityEffect(db, line, parse, cfg).db.rows ==
        db.rows[GetIdEntity(e) := Record(Some(EntityRecord(e, cfg.lang)))]
               [ClaimsThing(e) := Record(Some(ClaimsRecord(e, cfg.lang)))]
  {
    EntityEffectFaultFree(db, line, parse, cfg);
  }

  /** With overwriting off, a line whose records are present leaves the store as it is. */
  lemma PresentEntityKept(db: Db, line: string, parse: string -> Parsed, cfg: Config)
    requires db.faults == [] && !cfg.overwrite
    requires LineKeys(line, parse) <= db.rows.Keys
    ensures EntityEffect(db, line, parse, cfg) == Effect(db, Ok) || Rejects(Classify(line, parse))
  {
    if Classify(line, parse).Row? {
      EntityEffectFaultFree(db, line, parse, cfg);
    }
  }

  /**
   * With overwriting off, a transport failure of `create` is taken for "already
   * present": the line returns `Ok` although its entity row was not written.
   */
  lemma CreateFaultIsSilent(db: Db, line: string, parse: string -> Parsed, cfg: Config)
    requires !cfg.overwrite && Classify(line, parse).Row?
    requires GetIdEntity(Classify(line, parse).entity) !in db.rows
    requires |db.faults| >= 1 && db.faults[0]
    ensures EntityEffect(db, line, parse, cfg).outcome == Ok
    ensures GetIdEntity(Classify(line, parse).entity) !in EntityEffect(db, line, parse, cfg).db.rows
  {
    var e := Classify(line, parse).entity;
    assert ClaimsThing(e) != GetIdEntity(e);
  }

  /** With overwriting off and no failing call, writing a line twice is writing it once. */
  lemma EntityEffectIdempotent(db: Db, line: string, parse: string -> Parsed, cfg: Config)
    requires db.faults == [] && !cfg.overwrite
    ensures var once := EntityEffect(db, line, parse, cfg);
      EntityEffect(once.db, line, parse, cfg) == once
  {
    if Classify(line, parse).Row? {
      var once := EntityEffect(db, line, parse, cfg);
      EntityEffectFaultFree(db, line, parse, cfg);
      EntityEffectFaultFree(once.db, line, parse, cfg);
    }
  }

  /**
   * With overwriting on, a fresh entity's content lands only on the second write,
   * so writing twice differs from writing once; from then on the rows are stable.
   */
  lemma OverwriteSettlesOnSecondWrite(db: Db, line: string, parse: string -> Parsed, cfg: Config)
    requires db.faults == [] && cfg.overwrite && Classify(line, parse).Row?
    requires GetIdEntity(Classify(line, parse).entity) !in db.rows
    ensures var e := Classify(line, parse).entity;
      var once := EntityEffect(db, line, parse, cfg);
      var twice := EntityEffect(once.db, line, parse, cfg);
      once.db.rows[GetIdEntity(e)] == Empty &&
      twice.db.rows[GetIdEntity(e)] == Record(Some(EntityRecord(e, cfg.lang))) &&
      once != twice &&
      EntityEffect(twice.db, line, parse, cfg) == twice
  {
    var e := Classify(line, parse).entity;
    var once := EntityEffect(db, line, parse, cfg);
    EntityEffectFaultFree(db, line, parse, cfg);
    var twice := EntityEffect(once.db, line, parse, cfg);
    EntityEffectFaultFree(once.db, line, parse, cfg);
    EntityEffectFaultFree(twice.db, line, parse, cfg);
    assert Record(Some(EntityRecord(e, cfg.lang))) != Empty;
  }

  /** `create_db_entity`. */
  method CreateDbEntity(db: Store, line: string, parse: string -> Parsed, cfg: Config) returns (r: Outcome)
    modifies db
    ensures db.State() == EntityEffect(old(db.State()), line, parse, cfg).db
    ensures r == EntityEffect(old(db.State()), line, parse, cfg).outcome
  {
    var cleaned := CleanLine(line);
    if cleaned == "[" || cleaned == "]" {
      return Ok;
    }
    match parse(cleaned)
    case NotJson =>
      return Err;
    case NotEntity =>
      return Panic;
    case Decoded(entity) =>
      if !IsSupported(entity.id) {
        return Panic;
      }
      var (claims, data) := FromEntity(entity, cfg.lang);
      var id := data.id.value;
      var created := db.Create(id);
      if !created && cfg.overwrite {
        var updated := db.Update(id, EntityContent(data.(id := None)));
        if !updated {
          return Err;
        }
      }
      id := claims.id.value;
      created := db.Create(id);
      if !created && cfg.overwrite {
        var updated := db.Update(id, ClaimsContent(claims.(id := None)));
        if !updated {
          return Err;
        }
      }
      return Ok;
  }

  /** The progress total reported by `create_db_entities` after `n` written lines: steps of 100. */
  function ProgressAfter(n: nat): (p: nat)
    ensures p <= n && n - p < 100 && p % 100 == 0
  {
    100 * (n / 100)
  }

  /** Writing a batch: the state, the outcome, and how many lines returned `Ok` first. */
  datatype BatchRun = BatchRun(db: Db, outcome: Outcome, done: nat)

  /** `create_db_entities`: the lines in order, stopping at the first line that does not return `Ok`. */
  function RunLines(db: Db, lines: seq<string>, parse: string -> Parsed, cfg: Config): (r: BatchRun)
    ensures r.done <= |lines|
    ensures r.outcome == Ok <==> r.done == |lines|
    decreases |lines|, 1
  {
    if lines == [] then BatchRun(db, Ok, 0) else RunNext(db, lines, parse, cfg)
  }

  /** A batch with a line left: that line, then, once it returns `Ok`, the lines after it. */
  function RunNext(db: Db, lines: seq<string>, parse: string -> Parsed, cfg: Config): (r: BatchRun)
    requires lines != []
    ensures r.done <= |lines|
    ensures r.outcome == Ok <==> r.done == |lines|
    decreases |lines|, 0
  {
    var first := EntityEffect(db, lines[0], parse, cfg);
    if first.outcome != Ok then BatchRun(first.db, first.outcome, 0)
    else
      var rest := RunLines(first.db, lines[1..], parse, cfg);
      BatchRun(rest.db, rest.outcome, rest.done + 1)
  }

  /**
   * The batch stops at its first failing line: the lines before it all returned
   * `Ok`, the failing line's own outcome is the batch's, and no later line is attempted.
   */
  lemma {:induction false} RunLinesStopsAtFailure(db: Db, lines: seq<string>, parse: string -> Parsed, cfg: Config)
    ensures var r := RunLines(db, lines, parse, cfg);
      var before := RunLines(db, lines[..r.done], parse, cfg);
      before.outcome == Ok &&
      (r.outcome == Ok ==> r.db == before.db) &&
      (r.outcome != Ok ==> EntityEffect(before.db, lines[r.done], parse, cfg) == Effect(r.db, r.outcome))
    decreases |lines|
  {
    var r := RunLines(db, lines, parse, cfg);
    if lines != [] {
      RunLinesFirst(db, lines, parse, cfg);
      var first := EntityEffect(db, lines[0], parse, cfg);
      if first.outcome == Ok {
        var rest := RunLines(first.db, lines[1..], parse, cfg);
        RunLinesStopsAtFailure(first.db, lines[1..], parse, cfg);
        var prefix := lines[..r.done];
        assert prefix[1..] == lines[1..][..rest.done];
        assert prefix[0] == lines[0];
        RunLinesFirst(db, prefix, parse, cfg);
        if r.outcome != Ok {
          assert lines[1..][rest.done] == lines[r.done];
        }
      } else {
        assert lines[..r.done] == [];
      }
    }
  }

  /** The record ids any line of the batch may write. */
  function BatchKeys(lines: seq<string>, parse: string -> Parsed): set<Thing>
    decreases |lines|
  {
    if lines == [] then {} else LineKeys(lines[0], parse) + BatchKeys(lines[1..], parse)
  }

  /** A batch changes no record outside the ids of its own lines, whatever fails. */
  lemma {:induction false} RunLinesFrame(db: Db, lines: seq<string>, parse: string -> Parsed, cfg: Config)
    ensures AgreeOutside(db.rows, RunLines(db, lines, parse, cfg).db.rows, BatchKeys(lines, parse))
    decreases |lines|
  {
    if lines != [] {
      RunLinesFirst(db, lines, parse, cfg);
      var first := EntityEffect(db, lines[0], parse, cfg);
      EntityEffectFrame(db, lines[0], parse, cfg);
      if first.outcome == Ok {
        RunLinesFrame(first.db, lines[1..], parse, cfg);
      }
    }
  }

  /** With overwriting off, no record already in the store is ever changed, whatever fails. */
  lemma {:induction false} NoOverwriteKeepsRecords(db: Db, lines: seq<string>, parse: string -> Parsed, cfg: Config)
    requires !cfg.overwrite
    ensures Extends(db.rows, RunLines(db, lines, parse, cfg).db.rows)
    decreases |lines|
  {
    if lines != [] {
      RunLinesFirst(db, lines, parse, cfg);
      var first := EntityEffect(db, lines[0], parse, cfg);
      EntityEffectFrame(db, lines[0], parse, cfg);
      if first.outcome == Ok {
        NoOverwriteKeepsRecords(first.db, lines[1..], parse, cfg);
      }
    }
  }

  /** With overwriting off, a batch fails only at a line the decoder rejects, whatever fails in transport. */
  lemma {:induction false} NoOverwriteFailsOnlyOnRejects(db: Db, lines: seq<string>, parse: string -> Parsed, cfg: Config)
    requires !cfg.overwrite
    ensures var r := RunLines(db, lines, parse, cfg);
      r.outcome != Ok ==> Rejects(Classify(lines[r.done], parse))
    decreases |lines|
  {
    if lines != [] {
      RunLinesFirst(db, lines, parse, cfg);
      var first := EntityEffect(db, lines[0], parse, cfg);
      if first.outcome == Ok {
        var rest := RunLines(first.db, lines[1..], parse, cfg);
        NoOverwriteFailsOnlyOnRejects(first.db, lines[1..], parse, cfg);
        if rest.outcome != Ok {
          assert lines[1..][rest.done] == lines[rest.done + 1];
        }
      } else {
        EntityEffectOutcome(db, lines[0], parse, cfg);
      }
    }
  }

  /** The ids written by the lines before the first rejected one, that one excluded. */
  function ReachedKeys(lines: seq<string>, parse: string -> Parsed): set<Thing>
    decreases |lines|
  {
    if lines == [] || Rejects(Classify(lines[0], parse)) then {}
    else LineKeys(lines[0], parse) + ReachedKeys(lines[1..], parse)
  }

  /** `rows` with an empty record added for each id of `ks` that is not present. */
  function Touched(rows: Rows, ks: set<Thing>): Rows
  {
    map k | k in rows.Keys + ks :: if k in rows then rows[k] else Empty
  }

  lemma TouchedTwice(rows: Rows, a: set<Thing>, b: set<Thing>)
    ensures Touched(Touched(rows, a), b) == Touched(rows, a + b)
  {
  }

  lemma SettleNoOverwrite(rows: Rows, id: Thing, c: Content)
    ensures Settle(rows, id, c, false) == Touched(rows, {id})
  {
  }

  /**
   * With overwriting off and no failing call, a batch adds an empty record for
   * every id its lines reach and changes nothing else.
   */
  lemma {:induction false} NoOverwriteBatch(db: Db, lines: seq<string>, parse: string -> Parsed, cfg: Config)
    requires db.faults == [] && !cfg.overwrite
    ensures RunLines(db, lines, parse, cfg).db == Db(Touched(db.rows, ReachedKeys(lines, parse)), [])
    decreases |lines|
  {
    if lines == [] {
      assert Touched(db.rows, {}) == db.rows;
    } else {
      RunLinesFirst(db, lines, parse, cfg);
      var k := Classify(lines[0], parse);
      var first := EntityEffect(db, lines[0], parse, cfg);
      EntityEffectOutcome(db, lines[0], parse, cfg);
      if Rejects(k) {
        assert Touched(db.rows, {}) == db.rows;
      } else {
        if k.Row? {
          EntityEffectFaultFree(db, lines[0], parse, cfg);
          var e := k.entity;
          var r1 := Settle(db.rows, GetIdEntity(e), EntityRecord(e, cfg.lang), false);
          SettleNoOverwrite(db.rows, GetIdEntity(e), EntityRecord(e, cfg.lang));
          SettleNoOverwrite(r1, ClaimsThing(e), ClaimsRecord(e, cfg.lang));
          TouchedTwice(db.rows, {GetIdEntity(e)}, {ClaimsThing(e)});
          assert first.db.rows == Touched(db.rows, LineKeys(lines[0], parse));
        } else {
          assert Touched(db.rows, {}) == db.rows;
        }
        NoOverwriteBatch(first.db, lines[1..], parse, cfg);
        TouchedTwice(db.rows, LineKeys(lines[0], parse), ReachedKeys(lines[1..], parse));
      }
    }
  }

  /** With overwriting off and no failing call, writing a batch twice is writing it once. */
  lemma BatchIdempotent(db: Db, lines: seq<string>, parse: string -> Parsed, cfg: Config)
    requires db.faults == [] && !cfg.overwrite
    ensures var once := RunLines(db, lines, parse, cfg).db;
      RunLines(once, lines, parse, cfg).db == once
  {
    var ks := ReachedKeys(lines, parse);
    NoOverwriteBatch(db, lines, parse, cfg);
    var once := RunLines(db, lines, parse, cfg).db;
    NoOverwriteBatch(once, lines, parse, cfg);
    TouchedTwice(db.rows, ks, ks);
    assert ks + ks == ks;
  }

  /** With no failing store call, a line that is not rejected succeeds and leaves no fault behind. */
  lemma FaultFreeLineSucceeds(db: Db, line: string, parse: string -> Parsed, cfg: Config)
    requires db.faults == [] && !Rejects(Classify(line, parse))
    ensures EntityEffect(db, line, parse, cfg).outcome == Ok
    ensures EntityEffect(db, line, parse, cfg).db.faults == []
  {
    if Classify(line, parse).Row? {
      EntityEffectFaultFree(db, line, parse, cfg);
    } else {
      EntityEffectOutcome(db, line, parse, cfg);
    }
  }

  /** With no failing call, a batch none of whose lines the decoder rejects returns `Ok`. */
  lemma {:induction false} FaultFreeBatchSucceeds(db: Db, lines: seq<string>, parse: string -> Parsed, cfg: Config)
    requires db.faults == []
    requires forall i :: 0 <= i < |lines| ==> !Rejects(Classify(lines[i], parse))
    ensures RunLines(db, lines, parse, cfg).outcome == Ok
    decreases |lines|
  {
    if lines != [] {
      RunLinesFirst(db, lines, parse, cfg);
      FaultFreeLineSucceeds(db, lines[0], parse, cfg);
      var first := EntityEffect(db, lines[0], parse, cfg);
      assert forall i :: 0 <= i < |lines[1..]| ==> lines[1..][i] == lines[i + 1];
      FaultFreeBatchSucceeds(first.db, lines[1..], parse, cfg);
    }
  }

  /** A batch holding a line that is not JSON never returns `Ok`, whatever the store does. */
  lemma {:induction false} MalformedLineFailsBatch(db: Db, lines: seq<string>, i: nat, parse: string -> Parsed, cfg: Config)
    requires i < |lines| && Classify(lines[i], parse).BadJson?
    ensures RunLines(db, lines, parse, cfg).outcome != Ok
    decreases |lines|
  {
    RunLinesFirst(db, lines, parse, cfg);
    var first := EntityEffect(db, lines[0], parse, cfg);
    if i == 0 {
      EntityEffectOutcome(db, lines[0], parse, cfg);
    } else if first.outcome == Ok {
      assert lines[1..][i - 1] == lines[i];
      MalformedLineFailsBatch(first.db, lines[1..], i - 1, parse, cfg);
    }
  }

  /** A batch panics only at a line whose decoding panics. */
  lemma {:induction false} PanicNeedsPanickingLine(db: Db, lines: seq<string>, parse: string -> Parsed, cfg: Config)
    requires forall i :: 0 <= i < |lines| ==> !Classify(lines[i], parse).BadEntity? && !Classify(lines[i], parse).Unsupported?
    ensures RunLines(db, lines, parse, cfg).outcome != Panic
    decreases |lines|
  {
    if lines != [] {
      RunLinesFirst(db, lines, parse, cfg);
      var first := EntityEffect(db, lines[0], parse, cfg);
      EntityEffectOutcome(db, lines[0], parse, cfg);
      assert forall i :: 0 <= i < |lines[1..]| ==> lines[1..][i] == lines[i + 1];
      PanicNeedsPanickingLine(first.db, lines[1..], parse, cfg);
    }
  }

  lemma ProgressStep(n: nat)
    ensures ProgressAfter(n + 1) == ProgressAfter(n) + (if (n + 1) % 100 == 0 then 100 else 0)
  {
  }

  /** A batch with a line left: its first line, then the rest when that line returns `Ok`. */
  lemma RunLinesFirst(db: Db, lines: seq<string>, parse: string -> Parsed, cfg: Config)
    requires lines != []
    ensures var first := EntityEffect(db, lines[0], parse, cfg);
      var rest := RunLines(first.db, lines[1..], parse, cfg);
      RunLines(db, lines, parse, cfg) ==
        if first.outcome != Ok then BatchRun(first.db, first.outcome, 0)
        else BatchRun(rest.db, rest.outcome, rest.done + 1)
  {
  }

  /** One step of a batch, seen from line `i` on. */
  lemma RunLinesFrom(db: Db, lines: seq<string>, i: nat, parse: string -> Parsed, cfg: Config)
    requires i < |lines|
    ensures var first := EntityEffect(db, lines[i], parse, cfg);
      var rest := RunLines(first.db, lines[i + 1..], parse, cfg);
      RunLines(db, lines[i..], parse, cfg) ==
        if first.outcome != Ok then BatchRun(first.db, first.outcome, 0)
        else BatchRun(rest.db, rest.outcome, rest.done + 1)
  {
    RunLinesFirst(db, lines[i..], parse, cfg);
    assert lines[i..][0] == lines[i] && lines[i..][1..] == lines[i + 1..];
  }

  /** `create_db_entities`, with the progress bar's increments returned as `progress`. */
  method CreateDbEntities(db: Store, lines: seq<string>, parse: string -> Parsed, cfg: Config)
    returns (r: Outcome, progress: nat)
    modifies db
    ensures var b := RunLines(old(db.State()), lines, parse, cfg);
      db.State() == b.db && r == b.outcome && progress == ProgressAfter(b.done)
  {
    ghost var whole := RunLines(db.State(), lines, parse, cfg);
    assert lines[0..] == lines;
    var counter := 0;
    progress := 0;
    for i := 0 to |lines|
      invariant counter == i && progress == ProgressAfter(counter)
      invariant var rest := RunLines(db.State(), lines[i..], parse, cfg);
        whole.db == rest.db && whole.outcome == rest.outcome && whole.done == rest.done + i
    {
      RunLinesFrom(db.State(), lines, i, parse, cfg);
      ghost var first := EntityEffect(db.State(), lines[i], parse, cfg);
      var o := CreateDbEntity(db, lines[i], parse, cfg);
      assert db.State() == first.db && o == first.outcome;
      if o != Ok {
        return o, progress;
      }
      ProgressStep(counter);
      counter := counter + 1;
      if counter % 100 == 0 {
        progress := progress + 100;
      }
    }
    assert lines[|lines|..] == [];
    r := Ok;
  }
}
