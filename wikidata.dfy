/**
 * The already-decoded Wikidata entity that the normalizer starts from. These types
 * stand for those of the `wikidata` crate; only the parts the loader reads are kept.
 * Numeric identifiers (`Qid.0`, `Pid.0`, `Lid.0`) are unbounded naturals.
 */
module Wikidata {
  import opened Wrappers

  /** A language code such as "en" (`wikidata::Lang`). */
  type Lang = string

  /** The identifier of an entity: its kind and its numeric key. */
  datatype WikiId =
    | EntityId(key: nat)        // Q<key>
    | PropertyId(key: nat)      // P<key>
    | LexemeId(key: nat)        // L<key>
    | OtherId(name: string)     // any other identifier kind the decoder may produce

  /** The value of a claim or of a qualifier. */
  datatype ClaimValueData =
    | Item(qid: nat)
    | Property(pid: nat)
    | Lexeme(lid: nat)
    | Form(formLexeme: nat, formIndex: nat)
    | Sense(senseLexeme: nat, senseIndex: nat)
    | StringValue(text: string)
    | MonolingualText(textLang: Lang, monoText: string)
    | ExternalId(externalId: string)
    | Url(url: string)
    | CommonsMedia(fileName: string)
    | Quantity(amount: real, lowerBound: Option<real>, upperBound: Option<real>, unit: Option<nat>)
    | DateTime(dateTime: string, precision: nat)
    | GlobeCoordinate(lat: real, lon: real, coordPrecision: real, globe: nat)
    | NoValue
    | UnknownValue

  /** A qualifier: a property id and its value. */
  datatype Qualifier = Qualifier(pid: nat, value: ClaimValueData)

  /** A claim's value with its qualifiers, in the order the decoder produced them. */
  datatype ClaimValue = ClaimValue(data: ClaimValueData, qualifiers: seq<Qualifier>)

  /** One `(Pid, ClaimValue)` pair of an entity's claim list. */
  datatype Statement = Statement(pid: nat, value: ClaimValue)

  datatype Entity = Entity(
    id: WikiId,
    claims: seq<Statement>,
    labels: map<Lang, string>,
    descriptions: map<Lang, string>)

  /** The identifier kinds the normalizer can place in a table. */
  predicate IsSupported(id: WikiId)
  {
    id.EntityId? || id.PropertyId? || id.LexemeId?
  }
}
