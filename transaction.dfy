/**
 * The transaction record and the rules its schema enforces when a
 * document is saved: required fields, the two enums, the subtype that is
 * required only for income, and the defaults of the approval fields.
 */
module TransactionModel {
  import opened Common

  /** `'entrée'` (income) and `'sortie'` (expense). */
  datatype TxType = Entree | Sortie

  /** `'cotisation'` (dues) and `'collect'` (collection). */
  datatype Subtype = Cotisation | Collect

  /** A stored transaction document. */
  datatype Tx = Tx(
    amount: int,
    reason: Option<string>,
    initiatedBy: UserId,
    date: Date,
    donateur: Option<string>,
    kind: TxType,
    subtype: Option<Subtype>,
    validatedByTreasurers: Option<UserId>,
    rejectedByTreasurers: Option<UserId>,
    validatedByPresident: bool,
    validatedByPCO: bool,
    validatedByPresidentAndPCO: bool)

  /** The fields handed to the model's constructor, before casting and validation. */
  datatype Fields = Fields(
    amount: Option<int>,
    reason: Option<string>,
    initiatedBy: Option<UserId>,
    donateur: Option<string>,
    kind: Option<string>,
    subtype: Option<string>)

  const EntreeName: string := "entrée"
  const SortieName: string := "sortie"
  const CotisationName: string := "cotisation"
  const CollectName: string := "collect"

  function TypeName(k: TxType): string {
    match k
    case Entree => EntreeName
    case Sortie => SortieName
  }

  function SubtypeName(s: Subtype): string {
    match s
    case Cotisation => CotisationName
    case Collect => CollectName
  }

  /** The `type` enum: exactly the two names are accepted. */
  function ParseType(s: string): (r: Option<TxType>)
    ensures r.Some? ==> TypeName(r.value) == s
    ensures forall k :: TypeName(k) == s ==> r == Some(k)
  {
    if s == EntreeName then Some(Entree)
    else if s == SortieName then Some(Sortie)
    else None
  }

  /** The `subtype` enum: exactly the two names are accepted. */
  function ParseSubtype(s: string): (r: Option<Subtype>)
    ensures r.Some? ==> SubtypeName(r.value) == s
    ensures forall k :: SubtypeName(k) == s ==> r == Some(k)
  {
    if s == CotisationName then Some(Cotisation)
    else if s == CollectName then Some(Collect)
    else None
  }

  /**
   * The schema's rules on the given fields: `amount`, `initiatedBy` and
   * `type` are required; `type` and, when given, `subtype` must be in their
   * enums; `subtype` is required when `type` is `'entrée'`.
   */
  predicate FieldsValid(f: Fields) {
    && f.amount.Some?
    && f.initiatedBy.Some?
    && f.kind.Some? && ParseType(f.kind.value).Some?
    && (f.subtype.Some? ==> ParseSubtype(f.subtype.value).Some?)
    && (f.kind.value == EntreeName ==> f.subtype.Some?)
  }

  /** The schema's conditional rule, on a stored (typed) record. */
  predicate SchemaValid(t: Tx) {
    t.kind == Entree ==> t.subtype.Some?
  }

  /** Every approval field as the schema's defaults leave it. */
  predicate AtDefaults(t: Tx) {
    && t.validatedByTreasurers.None?
    && t.rejectedByTreasurers.None?
    && !t.validatedByPresident
    && !t.validatedByPCO
    && !t.validatedByPresidentAndPCO
  }

  /** The combined flag is meant to be up exactly when both approvals are. */
  predicate Consistent(t: Tx) {
    t.validatedByPresidentAndPCO == (t.validatedByPresident && t.validatedByPCO)
  }

  /** The given fields of a record, as they would be handed to the constructor. */
  function ToFields(t: Tx): Fields {
    Fields(
      Some(t.amount), t.reason, Some(t.initiatedBy), t.donateur, Some(TypeName(t.kind)),
      if t.subtype.Some? then Some(SubtypeName(t.subtype.value)) else None)
  }

  /**
   * `new Transaction({...})` followed by the validation that `save` runs:
   * each rule of the schema is checked in turn; a document passing all of
   * them is stored with the defaults (`date` is the current time).
   */
  function Build(f: Fields, now: Date): (r: Result<Tx>)
    ensures r.Ok? <==> FieldsValid(f)
    ensures r.Err? ==> r.error == ValidationFailed
    ensures r.Ok? ==> ToFields(r.value) == f && r.value.date == now
    ensures r.Ok? ==> SchemaValid(r.value) && AtDefaults(r.value) && Consistent(r.value)
  {
    if f.amount.None? || f.initiatedBy.None? then Err(ValidationFailed)
    else if f.kind.None? then Err(ValidationFailed)
    else
      var kind := ParseType(f.kind.value);
      var sub := if f.subtype.Some? then ParseSubtype(f.subtype.value) else None;
      if kind.None? then Err(ValidationFailed)
      else if f.subtype.Some? && sub.None? then Err(ValidationFailed)
      else if kind.value == Entree && f.subtype.None? then Err(ValidationFailed)
      else
        Ok(Tx(f.amount.value, f.reason, f.initiatedBy.value, now, f.donateur,
              kind.value, sub, None, None, false, false, false))
  }

  /** Building from a fresh record's own fields gives the record back. */
  lemma BuildRoundTrip(t: Tx)
    requires SchemaValid(t) && AtDefaults(t)
    ensures Build(ToFields(t), t.date) == Ok(t)
  {
    assert ParseType(TypeName(t.kind)) == Some(t.kind);
    if t.subtype.Some? {
      assert ParseSubtype(SubtypeName(t.subtype.value)) == Some(t.subtype.value);
    }
  }
}
