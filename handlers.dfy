/**
 * The mutating routes as functions from the store's records (and the
 * request) to the reply and the new records. Each route first runs its
 * role guard, then one read-modify-write of one record, or one insert.
 */
module Handlers {
  import opened Common
  import opened TransactionModel
  import Auth
  import opened Approval

  /** The body of POST `/`. */
  datatype Body = Body(
    amount: Option<int>,
    reason: Option<string>,
    userId: Option<UserId>,
    kind: Option<string>,
    subtype: Option<string>,
    donateur: Option<string>)

  /** A reply together with the store's records after the request. */
  datatype Outcome = Outcome(reply: Result<Tx>, txs: seq<Tx>)

  /** The store invariant: every record passes the schema and keeps the combined flag exact. */
  predicate StoreValid(txs: seq<Tx>) {
    forall i :: 0 <= i < |txs| ==> SchemaValid(txs[i]) && Consistent(txs[i])
  }

  /** `after` keeps every record of `before`, each with approvals only added, and may have more. */
  predicate Grows(before: seq<Tx>, after: seq<Tx>) {
    |before| <= |after| && forall i :: 0 <= i < |before| ==> Extends(before[i], after[i])
  }

  /** JavaScript truthiness of the optional fields the handlers test. */
  predicate TruthyInt(x: Option<int>) { x.Some? && x.value != 0 }
  predicate TruthyString(x: Option<string>) { x.Some? && x.value != "" }

  /**
   * POST `/`: a `type` other than `'entrée'` or `'sortie'` is refused
   * before anything else; otherwise the body's fields go to the schema and
   * a document that passes is appended, initiated by the body's `userId`,
   * with every approval field at its default.
   */
  function CreateTransaction(txs: seq<Tx>, body: Body, now: Date): (o: Outcome)
    ensures !(body.kind == Some(EntreeName) || body.kind == Some(SortieName)) ==> o == Outcome(Err(BadRequest), txs)
    ensures o.reply.Err? ==> o.txs == txs
    ensures o.reply.Ok? ==> o.txs == txs + [o.reply.value]
    ensures o.reply.Ok? ==>
      && body.userId == Some(o.reply.value.initiatedBy)
      && body.amount == Some(o.reply.value.amount)
      && body.kind == Some(TypeName(o.reply.value.kind))
      && o.reply.value.reason == body.reason && o.reply.value.donateur == body.donateur
      && o.reply.value.date == now
      && AtDefaults(o.reply.value)
    ensures o.reply.Ok? ==>
      ToFields(o.reply.value) == Fields(body.amount, body.reason, body.userId, body.donateur, body.kind, body.subtype)
    ensures (body.kind == Some(EntreeName) || body.kind == Some(SortieName)) ==>
      (o.reply.Ok? <==> FieldsValid(Fields(body.amount, body.reason, body.userId, body.donateur, body.kind, body.subtype)))
    ensures StoreValid(txs) ==> StoreValid(o.txs)
    ensures Grows(txs, o.txs)
  {
    if !(body.kind == Some(EntreeName) || body.kind == Some(SortieName)) then Outcome(Err(BadRequest), txs)
    else
      match Build(Fields(body.amount, body.reason, body.userId, body.donateur, body.kind, body.subtype), now)
      case Err(e) => Outcome(Err(e), txs)
      case Ok(t) => Outcome(Ok(t), txs + [t])
  }

  /**
   * POST `/create-expense`, treasurers only: amount, reason and beneficiary
   * must all be truthy; the stored expense is initiated by the caller and
   * names the beneficiary as `donateur`.
   */
  function CreateExpense(txs: seq<Tx>, caller: User, amount: Option<int>, reason: Option<string>,
                         beneficiary: Option<string>, now: Date): (o: Outcome)
    ensures caller.role != Tresorier ==> o == Outcome(Err(Forbidden), txs)
    ensures caller.role == Tresorier && !(TruthyInt(amount) && TruthyString(reason) && TruthyString(beneficiary)) ==>
      o == Outcome(Err(BadRequest), txs)
    ensures o.reply.Ok? <==> caller.role == Tresorier && TruthyInt(amount) && TruthyString(reason) && TruthyString(beneficiary)
    ensures o.reply.Err? ==> o.txs == txs
    ensures o.reply.Ok? ==>
      && o.txs == txs + [o.reply.value]
      && o.reply.value.kind == Sortie
      && o.reply.value.subtype.None?
      && o.reply.value.initiatedBy == caller.id
      && o.reply.value.donateur == beneficiary
      && o.reply.value.reason == reason
      && amount == Some(o.reply.value.amount)
      && o.reply.value.date == now
      && AtDefaults(o.reply.value)
    ensures StoreValid(txs) ==> StoreValid(o.txs)
    ensures Grows(txs, o.txs)
  {
    match Auth.Authorize(Auth.TreasurerOnly, caller)
    case Deny(e) => Outcome(Err(e), txs)
    case Continue(_) =>
      if !TruthyInt(amount) || !TruthyString(reason) || !TruthyString(beneficiary) then Outcome(Err(BadRequest), txs)
      else
        match Build(Fields(amount, reason, Some(caller.id), beneficiary, Some(SortieName), None), now)
        case Err(_) => Outcome(Err(Internal), txs)
        case Ok(t) => Outcome(Ok(t), txs + [t])
  }

  /** One record's read-modify-write: an unknown id is NotFound, otherwise `step` decides. */
  function UpdateRecord(txs: seq<Tx>, id: TxId, step: Tx -> Result<Tx>): (o: Outcome)
    ensures id >= |txs| ==> o == Outcome(Err(NotFound), txs)
    ensures id < |txs| ==> o.reply == step(txs[id])
    ensures o.reply.Err? ==> o.txs == txs
    ensures o.reply.Ok? ==> o.txs == txs[id := o.reply.value]
  {
    if id >= |txs| then Outcome(Err(NotFound), txs)
    else
      match step(txs[id])
      case Err(e) => Outcome(Err(e), txs)
      case Ok(t) => Outcome(Ok(t), txs[id := t])
  }

  /**
   * PUT `/validate-treasurer/:id`, treasurers only: an unknown id is
   * NotFound before the "already validated" check; a success records the
   * caller on that one record.
   */
  function ValidateTreasurer(txs: seq<Tx>, caller: User, id: TxId): (o: Outcome)
    ensures caller.role != Tresorier ==> o == Outcome(Err(Forbidden), txs)
    ensures caller.role == Tresorier && id >= |txs| ==> o == Outcome(Err(NotFound), txs)
    ensures caller.role == Tresorier && id < |txs| && txs[id].validatedByTreasurers.Some? ==>
      o == Outcome(Err(AlreadyValidated), txs)
    ensures o.reply.Ok? <==> caller.role == Tresorier && id < |txs| && txs[id].validatedByTreasurers.None?
    ensures o.reply.Ok? ==>
      o.txs == txs[id := o.reply.value] && o.reply.value == txs[id].(validatedByTreasurers := Some(caller.id))
    ensures o.reply.Err? ==> o.txs == txs
    ensures StoreValid(txs) ==> StoreValid(o.txs)
    ensures Grows(txs, o.txs)
  {
    match Auth.Authorize(Auth.TreasurerOnly, caller)
    case Deny(e) => Outcome(Err(e), txs)
    case Continue(_) => UpdateRecord(txs, id, t => ValidateByTreasurer(t, caller.id))
  }

  /** PUT `/reject-treasurer/:id`: the mirror image, on the rejection field. */
  function RejectTreasurer(txs: seq<Tx>, caller: User, id: TxId): (o: Outcome)
    ensures caller.role != Tresorier ==> o == Outcome(Err(Forbidden), txs)
    ensures caller.role == Tresorier && id >= |txs| ==> o == Outcome(Err(NotFound), txs)
    ensures caller.role == Tresorier && id < |txs| && txs[id].rejectedByTreasurers.Some? ==>
      o == Outcome(Err(AlreadyRejected), txs)
    ensures o.reply.Ok? <==> caller.role == Tresorier && id < |txs| && txs[id].rejectedByTreasurers.None?
    ensures o.reply.Ok? ==>
      o.txs == txs[id := o.reply.value] && o.reply.value == txs[id].(rejectedByTreasurers := Some(caller.id))
    ensures o.reply.Err? ==> o.txs == txs
    ensures StoreValid(txs) ==> StoreValid(o.txs)
    ensures Grows(txs, o.txs)
  {
    match Auth.Authorize(Auth.TreasurerOnly, caller)
    case Deny(e) => Outcome(Err(e), txs)
    case Continue(_) => UpdateRecord(txs, id, t => RejectByTreasurer(t, caller.id))
  }

  /**
   * PUT `/validate/:id`, presidents and PCOs only: the caller's own flag is
   * raised (refused if already up), the other role's flag is untouched, and
   * the combined flag follows.
   */
  function ValidateExpense(txs: seq<Tx>, caller: User, id: TxId): (o: Outcome)
    ensures caller.role != President && caller.role != PCO ==> o == Outcome(Err(Forbidden), txs)
    ensures (caller.role == President || caller.role == PCO) && id >= |txs| ==> o == Outcome(Err(NotFound), txs)
    ensures caller.role == President && id < |txs| && txs[id].validatedByPresident ==> o == Outcome(Err(AlreadyValidated), txs)
    ensures caller.role == PCO && id < |txs| && txs[id].validatedByPCO ==> o == Outcome(Err(AlreadyValidated), txs)
    ensures o.reply.Ok? <==>
      || (caller.role == President && id < |txs| && !txs[id].validatedByPresident)
      || (caller.role == PCO && id < |txs| && !txs[id].validatedByPCO)
    ensures o.reply.Ok? ==>
      && o.txs == txs[id := o.reply.value]
      && o.reply.value.validatedByPresident == (txs[id].validatedByPresident || caller.role == President)
      && o.reply.value.validatedByPCO == (txs[id].validatedByPCO || caller.role == PCO)
      && o.reply.value.validatedByPresidentAndPCO ==
           (txs[id].validatedByPresidentAndPCO || (o.reply.value.validatedByPresident && o.reply.value.validatedByPCO))
      && o.reply.value.(validatedByPresident := txs[id].validatedByPresident, validatedByPCO := txs[id].validatedByPCO,
                        validatedByPresidentAndPCO := txs[id].validatedByPresidentAndPCO) == txs[id]
      && Extends(txs[id], o.reply.value)
    ensures (caller.role == President || caller.role == PCO) && id < |txs| ==> o.reply == ApproveExpense(txs[id], caller.role)
    ensures o.reply.Err? ==> o.txs == txs
    ensures StoreValid(txs) ==> StoreValid(o.txs)
    ensures Grows(txs, o.txs)
  {
    match Auth.Authorize(Auth.PresidentOrPCO, caller)
    case Deny(e) => Outcome(Err(e), txs)
    case Continue(_) => UpdateRecord(txs, id, t => ApproveExpense(t, caller.role))
  }

  /** One request to a mutating route, with what the route reads from it. */
  datatype Request =
    | PostTransaction(body: Body, now: Date)
    | PostExpense(caller: User, amount: Option<int>, reason: Option<string>, beneficiary: Option<string>, now: Date)
    | PutValidateTreasurer(caller: User, id: TxId)
    | PutRejectTreasurer(caller: User, id: TxId)
    | PutValidate(caller: User, id: TxId)

  /** Route dispatch. */
  function Handle(txs: seq<Tx>, req: Request): (o: Outcome)
    ensures StoreValid(txs) ==> StoreValid(o.txs)
    ensures Grows(txs, o.txs)
  {
    match req
    case PostTransaction(body, now) => CreateTransaction(txs, body, now)
    case PostExpense(caller, amount, reason, beneficiary, now) => CreateExpense(txs, caller, amount, reason, beneficiary, now)
    case PutValidateTreasurer(caller, id) => ValidateTreasurer(txs, caller, id)
    case PutRejectTreasurer(caller, id) => RejectTreasurer(txs, caller, id)
    case PutValidate(caller, id) => ValidateExpense(txs, caller, id)
  }

  /** The records after serving `reqs` one at a time. */
  function Run(txs: seq<Tx>, reqs: seq<Request>): seq<Tx>
    decreases |reqs|
  {
    if reqs == [] then txs else Run(Handle(txs, reqs[0]).txs, reqs[1..])
  }

  lemma GrowsTransitive(a: seq<Tx>, b: seq<Tx>, c: seq<Tx>)
    requires Grows(a, b) && Grows(b, c)
    ensures Grows(a, c)
  {
    forall i | 0 <= i < |a| ensures Extends(a[i], c[i]) {
      ExtendsTransitive(a[i], b[i], c[i]);
    }
  }

  /**
   * Over any sequence of requests the store invariant holds throughout,
   * and no approval field of any record is ever cleared or reassigned.
   */
  lemma {:induction false} RunPreserves(txs: seq<Tx>, reqs: seq<Request>)
    requires StoreValid(txs)
    ensures StoreValid(Run(txs, reqs))
    ensures Grows(txs, Run(txs, reqs))
    decreases |reqs|
  {
    if reqs != [] {
      var next := Handle(txs, reqs[0]).txs;
      RunPreserves(next, reqs[1..]);
      GrowsTransitive(txs, next, Run(txs, reqs));
    }
  }

  /**
   * Starting from an empty store, every record that any sequence of
   * requests produces satisfies the schema and "combined equals president
   * and PCO".
   */
  lemma ReachableStoresValid(reqs: seq<Request>)
    ensures StoreValid(Run([], reqs))
  {
    RunPreserves([], reqs);
  }
}
