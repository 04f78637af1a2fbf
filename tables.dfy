/**
 * The record normalizer: one decoded entity becomes an `EntityMini` row and a
 * `Claims` row whose claim list is the entity's claims and qualifiers, flattened.
 * The configured language is an explicit parameter.
 */
module Tables {
  import opened Wrappers
  import opened Wikidata
  import opened Seqs

  const EntityTable: string := "Entity"
  const PropertyTable: string := "Property"
  const LexemeTable: string := "Lexeme"
  const ClaimsTable: string := "Claims"

  /** A record id of the store: a table name and a numeric key (`surrealdb::sql::Thing`). */
  datatype Thing = Thing(tb: string, key: nat)

  /** A claim value as stored: a link to another record, or the decoded value unchanged. */
  datatype ClaimData = Link(thing: Thing) | Literal(data: ClaimValueData)

  datatype Claim = Claim(id: Thing, value: ClaimData)

  datatype Claims = Claims(id: Option<Thing>, claims: seq<Claim>)

  /** The Rust field `label` is `name` here: `label` is a Dafny keyword. */
  datatype EntityMini = EntityMini(id: Option<Thing>, name: string, claims: Thing, description: string)

  /** The claim-value kinds that name another entity and become links. */
  predicate IsReference(cvd: ClaimValueData)
  {
    cvd.Item? || cvd.Property? || cvd.Lexeme?
  }

  /** `ClaimData::from_cvd`: references become links with the same key, everything else passes through. */
  function FromCvd(cvd: ClaimValueData): (r: ClaimData)
    ensures r.Link? <==> IsReference(cvd)
    ensures r.Literal? ==> r.data == cvd
    ensures cvd.Item? ==> r == Link(Thing(EntityTable, cvd.qid))
    ensures cvd.Property? ==> r == Link(Thing(PropertyTable, cvd.pid))
    ensures cvd.Lexeme? ==> r == Link(Thing(LexemeTable, cvd.lid))
  {
    match cvd
    case Item(qid) => Link(Thing(EntityTable, qid))
    case Property(pid) => Link(Thing(PropertyTable, pid))
    case Lexeme(lid) => Link(Thing(LexemeTable, lid))
    case _ => Literal(cvd)
  }

  /** Reads a stored claim value back; defined exactly on the values `FromCvd` produces. */
  function ToCvd(d: ClaimData): Option<ClaimValueData>
  {
    match d
    case Link(Thing(tb, k)) =>
      if tb == EntityTable then Some(Item(k))
      else if tb == PropertyTable then Some(Property(k))
      else if tb == LexemeTable then Some(Lexeme(k))
      else None
    case Literal(cvd) => if IsReference(cvd) then None else Some(cvd)
  }

  /** `FromCvd` loses nothing: every claim value can be read back from its stored form... */
  lemma FromCvdRoundTrip(cvd: ClaimValueData)
    ensures ToCvd(FromCvd(cvd)) == Some(cvd)
  {
  }

  /** ...and every readable stored form is the image of exactly that value. */
  lemma ToCvdInverse(d: ClaimData, cvd: ClaimValueData)
    requires ToCvd(d) == Some(cvd)
    ensures FromCvd(cvd) == d
  {
  }

  lemma FromCvdInjective(a: ClaimValueData, b: ClaimValueData)
    requires FromCvd(a) == FromCvd(b)
    ensures a == b
  {
    FromCvdRoundTrip(a);
    FromCvdRoundTrip(b);
  }

  /** The row a claim contributes for itself: its property, in the Property table. */
  function HeadRow(s: Statement): Claim
  {
    Claim(Thing(PropertyTable, s.pid), FromCvd(s.value.data))
  }

  /** The row a qualifier contributes: note the Claims table, not the Property table. */
  function QualifierRow(q: Qualifier): Claim
  {
    Claim(Thing(ClaimsTable, q.pid), FromCvd(q.value))
  }

  /** The rows of one claim: its own row, then one row per qualifier in qualifier order. */
  function StatementRows(s: Statement): (rows: seq<Claim>)
    ensures |rows| == 1 + |s.value.qualifiers|
    ensures rows[0] == HeadRow(s)
    ensures forall j :: 0 <= j < |s.value.qualifiers| ==> rows[1 + j] == QualifierRow(s.value.qualifiers[j])
  {
    var qs := s.value.qualifiers;
    [HeadRow(s)] + seq(|qs|, j requires 0 <= j < |qs| => QualifierRow(qs[j]))
  }

  /** The sum over the claims of one plus the number of qualifiers. */
  function RowCount(cs: seq<Statement>): nat
    decreases |cs|
  {
    if cs == [] then 0 else 1 + |cs[0].value.qualifiers| + RowCount(cs[1..])
  }

  /** The number of qualifiers over all claims. */
  function QualifierCount(cs: seq<Statement>): nat
    decreases |cs|
  {
    if cs == [] then 0 else |cs[0].value.qualifiers| + QualifierCount(cs[1..])
  }

  /** The `flat_map` of `flatten_claims`. */
  function FlatRows(cs: seq<Statement>): (rows: seq<Claim>)
    ensures |rows| == RowCount(cs)
    decreases |cs|
  {
    if cs == [] then [] else StatementRows(cs[0]) + FlatRows(cs[1..])
  }

  /** `EntityMini::flatten_claims`: a claims row without an id. */
  function FlattenClaims(cs: seq<Statement>): (r: Claims)
    ensures r.id == None
    ensures |r.claims| == RowCount(cs) == |cs| + QualifierCount(cs)
  {
    RowCountSplit(cs);
    Claims(None, FlatRows(cs))
  }

  lemma {:induction false} RowCountSplit(cs: seq<Statement>)
    ensures RowCount(cs) == |cs| + QualifierCount(cs)
    decreases |cs|
  {
    if cs != [] {
      RowCountSplit(cs[1..]);
    }
  }

  lemma {:induction false} RowCountAppend(a: seq<Statement>, b: seq<Statement>)
    ensures RowCount(a + b) == RowCount(a) + RowCount(b)
    decreases |a|
  {
    if a == [] {
      assert a + b == b;
    } else {
      assert (a + b)[0] == a[0];
      assert (a + b)[1..] == a[1..] + b;
      RowCountAppend(a[1..], b);
    }
  }

  /** Flattening distributes over concatenation: the output follows the claims' input order. */
  lemma {:induction false} FlatRowsAppend(a: seq<Statement>, b: seq<Statement>)
    ensures FlatRows(a + b) == FlatRows(a) + FlatRows(b)
    decreases |a|
  {
    if a == [] {
      assert a + b == b;
    } else {
      assert (a + b)[1..] == a[1..] + b;
      FlatRowsAppend(a[1..], b);
    }
  }

  /**
   * Claim `i`'s rows (its own row, then its qualifier rows, as `StatementRows` states)
   * sit in the flattened rows right after the rows of the claims before it.
   */
  lemma FlatRowsSlice(cs: seq<Statement>, i: nat)
    requires i < |cs|
    ensures var off, m := RowCount(cs[..i]), StatementRows(cs[i]);
      off + |m| <= |FlatRows(cs)| && FlatRows(cs)[off..off + |m|] == m
  {
    var before, rest := cs[..i], cs[i + 1..];
    Around(cs, i);
    FlatRowsAppend(before, [cs[i]] + rest);
    FlatRowsAppend([cs[i]], rest);
    assert FlatRows([cs[i]]) == StatementRows(cs[i]) by {
      assert [cs[i]][1..] == [];
    }
    Middle(FlatRows(before), StatementRows(cs[i]), FlatRows(rest));
  }

  /** The number of rows whose id lies in table `tb`. */
  function CountTable(rows: seq<Claim>, tb: string): nat
    decreases |rows|
  {
    if rows == [] then 0 else (if rows[0].id.tb == tb then 1 else 0) + CountTable(rows[1..], tb)
  }

  lemma {:induction false} CountTableAppend(a: seq<Claim>, b: seq<Claim>, tb: string)
    ensures CountTable(a + b, tb) == CountTable(a, tb) + CountTable(b, tb)
    decreases |a|
  {
    if a == [] {
      assert a + b == b;
    } else {
      assert (a + b)[1..] == a[1..] + b;
      CountTableAppend(a[1..], b, tb);
    }
  }

  lemma {:induction false} CountTableUniform(rows: seq<Claim>, tb: string, other: string)
    requires forall k :: 0 <= k < |rows| ==> rows[k].id.tb == tb
    requires other != tb
    ensures CountTable(rows, tb) == |rows| && CountTable(rows, other) == 0
    decreases |rows|
  {
    if rows != [] {
      CountTableUniform(rows[1..], tb, other);
    }
  }

  /**
   * Exactly one row per claim lies in the Property table and exactly one row per
   * qualifier in the Claims table.
   */
  lemma {:induction false} FlatRowsTables(cs: seq<Statement>)
    ensures CountTable(FlatRows(cs), PropertyTable) == |cs|
    ensures CountTable(FlatRows(cs), ClaimsTable) == QualifierCount(cs)
    decreases |cs|
  {
    if cs != [] {
      var s := cs[0];
      var quals := StatementRows(s)[1..];
      assert StatementRows(s) == [HeadRow(s)] + quals;
      CountTableUniform(quals, ClaimsTable, PropertyTable);
      CountTableAppend([HeadRow(s)], quals, PropertyTable);
      CountTableAppend([HeadRow(s)], quals, ClaimsTable);
      CountTableAppend(StatementRows(s), FlatRows(cs[1..]), PropertyTable);
      CountTableAppend(StatementRows(s), FlatRows(cs[1..]), ClaimsTable);
      FlatRowsTables(cs[1..]);
    }
  }

  /** `get_id_entity`: the record id of an entity; other id kinds reach `todo!`, hence the precondition. */
  function GetIdEntity(e: Entity): (t: Thing)
    requires IsSupported(e.id)
    ensures t.key == e.id.key
    ensures e.id.EntityId? ==> t.tb == EntityTable
    ensures e.id.PropertyId? ==> t.tb == PropertyTable
    ensures e.id.LexemeId? ==> t.tb == LexemeTable
  {
    match e.id
    case EntityId(k) => Thing(EntityTable, k)
    case PropertyId(k) => Thing(PropertyTable, k)
    case LexemeId(k) => Thing(LexemeTable, k)
  }

  /** The identifier a record id of an entity table stands for. */
  function IdOfThing(t: Thing): Option<WikiId>
  {
    if t.tb == EntityTable then Some(EntityId(t.key))
    else if t.tb == PropertyTable then Some(PropertyId(t.key))
    else if t.tb == LexemeTable then Some(LexemeId(t.key))
    else None
  }

  lemma GetIdEntityRoundTrip(e: Entity)
    requires IsSupported(e.id)
    ensures IdOfThing(GetIdEntity(e)) == Some(e.id)
  {
  }

  /** Distinct identifiers give distinct entity rows. */
  lemma GetIdEntityInjective(a: Entity, b: Entity)
    requires IsSupported(a.id) && IsSupported(b.id)
    requires GetIdEntity(a) == GetIdEntity(b)
    ensures a.id == b.id
  {
    GetIdEntityRoundTrip(a);
    GetIdEntityRoundTrip(b);
  }

  /** The id of an entity's claims row: the entity's key in the Claims table. */
  function ClaimsThing(e: Entity): (t: Thing)
    requires IsSupported(e.id)
    ensures t.tb == ClaimsTable && t.key == GetIdEntity(e).key
  {
    Thing(ClaimsTable, e.id.key)
  }

  /**
   * The claims id keeps the key but drops the kind, so an item and a property with
   * the same number (Q5 and P5) share one claims row.
   */
  lemma ClaimsThingIgnoresKind(a: Entity, b: Entity)
    requires IsSupported(a.id) && IsSupported(b.id)
    ensures ClaimsThing(a) == ClaimsThing(b) <==> a.id.key == b.id.key
  {
  }

  /** `get_name`: the label in the configured language, or the empty string. */
  function GetName(e: Entity, lang: Lang): (r: string)
    ensures lang in e.labels ==> r == e.labels[lang]
    ensures lang !in e.labels ==> r == ""
  {
    if lang in e.labels then e.labels[lang] else ""
  }

  /** `get_description`: the description in the configured language, or the empty string. */
  function GetDescription(e: Entity, lang: Lang): (r: string)
    ensures lang in e.descriptions ==> r == e.descriptions[lang]
    ensures lang !in e.descriptions ==> r == ""
  {
    if lang in e.descriptions then e.descriptions[lang] else ""
  }

  /** Labels and descriptions in other languages never influence the row. */
  lemma OtherLanguagesIgnored(e: Entity, lang: Lang, other: Lang, text: string)
    requires other != lang
    ensures GetName(e.(labels := e.labels[other := text]), lang) == GetName(e, lang)
    ensures GetDescription(e.(descriptions := e.descriptions[other := text]), lang) == GetDescription(e, lang)
  {
  }

  /**
   * `EntityMini::from_entity`: the claims row and the entity row. Both rows carry
   * the entity's key; they never share an id, and the entity row points at the claims row.
   */
  function FromEntity(e: Entity, lang: Lang): (r: (Claims, EntityMini))
    requires IsSupported(e.id)
    ensures r.0.id == Some(ClaimsThing(e)) && r.1.claims == ClaimsThing(e)
    ensures r.1.id == Some(GetIdEntity(e)) && r.1.id.value != r.0.id.value
    ensures r.0.claims == FlatRows(e.claims) && |r.0.claims| == RowCount(e.claims)
    ensures r.1.name == GetName(e, lang) && r.1.description == GetDescription(e, lang)
  {
    var thingClaim := ClaimsThing(e);
    (FlattenClaims(e.claims).(id := Some(thingClaim)),
     EntityMini(Some(GetIdEntity(e)), GetName(e, lang), thingClaim, GetDescription(e, lang)))
  }
}
