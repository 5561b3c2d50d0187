/**
 * The transaction collection and the mutating route handlers, written the
 * way the handlers work: authorize, load the record, check, write fields
 * one at a time, save. Each method is proved to do what the matching
 * function of Handlers specifies.
 */
module Store {
  import opened Common
  import opened TransactionModel
  import Auth
  import Handlers

  class TransactionStore {
    /** The stored documents; a document's id is its position. */
    var txs: seq<Tx>

    ghost predicate Valid()
      reads this
    {
      Handlers.StoreValid(txs)
    }

    constructor ()
      ensures Valid() && txs == []
    {
      txs := [];
    }

    /** POST `/`. */
    method Create(body: Handlers.Body, now: Date) returns (r: Result<Tx>)
      requires Valid()
      modifies this
      ensures Valid()
      ensures Handlers.Outcome(r, txs) == Handlers.CreateTransaction(old(txs), body, now)
    {
      if !(body.kind == Some(EntreeName) || body.kind == Some(SortieName)) {
        return Err(BadRequest);
      }
      var doc := Fields(body.amount, body.reason, body.userId, body.donateur, body.kind, body.subtype);
      r := Build(doc, now);
      if r.Ok? {
        txs := txs + [r.value];
      }
    }

    /** POST `/create-expense`. */
    method CreateExpense(caller: User, amount: Option<int>, reason: Option<string>,
                         beneficiary: Option<string>, now: Date) returns (r: Result<Tx>)
      requires Valid()
      modifies this
      ensures Valid()
      ensures Handlers.Outcome(r, txs) == Handlers.CreateExpense(old(txs), caller, amount, reason, beneficiary, now)
    {
      var guard := Auth.Authorize(Auth.TreasurerOnly, caller);
      if guard.Deny? {
        return Err(guard.error);
      }
      if !Handlers.TruthyInt(amount) || !Handlers.TruthyString(reason) || !Handlers.TruthyString(beneficiary) {
        return Err(BadRequest);
      }
      var built := Build(Fields(amount, reason, Some(caller.id), beneficiary, Some(SortieName), None), now);
      if built.Err? {
        return Err(Internal);
      }
      txs := txs + [built.value];
      r := built;
    }

    /** PUT `/validate-treasurer/:id`. */
    method ValidateTreasurer(caller: User, id: TxId) returns (r: Result<Tx>)
      requires Valid()
      modifies this
      ensures Valid()
      ensures Handlers.Outcome(r, txs) == Handlers.ValidateTreasurer(old(txs), caller, id)
    {
      var guard := Auth.Authorize(Auth.TreasurerOnly, caller);
      if guard.Deny? {
        return Err(guard.error);
      }
      if id >= |txs| {
        return Err(NotFound);
      }
      var t := txs[id];
      if t.validatedByTreasurers.Some? {
        return Err(AlreadyValidated);
      }
      t := t.(validatedByTreasurers := Some(caller.id));
      txs := txs[id := t];
      r := Ok(t);
    }

    /** PUT `/reject-treasurer/:id`. */
    method RejectTreasurer(caller: User, id: TxId) returns (r: Result<Tx>)
      requires Valid()
      modifies this
      ensures Valid()
      ensures Handlers.Outcome(r, txs) == Handlers.RejectTreasurer(old(txs), caller, id)
    {
      var guard := Auth.Authorize(Auth.TreasurerOnly, caller);
      if guard.Deny? {
        return Err(guard.error);
      }
      if id >= |txs| {
        return Err(NotFound);
      }
      var t := txs[id];
      if t.rejectedByTreasurers.Some? {
        return Err(AlreadyRejected);
      }
      t := t.(rejectedByTreasurers := Some(caller.id));
      txs := txs[id := t];
      r := Ok(t);
    }

    /** PUT `/validate/:id`. */
    method Validate(caller: User, id: TxId) returns (r: Result<Tx>)
      requires Valid()
      modifies this
      ensures Valid()
      ensures Handlers.Outcome(r, txs) == Handlers.ValidateExpense(old(txs), caller, id)
    {
      var guard := Auth.Authorize(Auth.PresidentOrPCO, caller);
      if guard.Deny? {
        return Err(guard.error);
      }
      if id >= |txs| {
        return Err(NotFound);
      }
      var t := txs[id];
      if caller.role == President {
        if t.validatedByPresident {
          return Err(AlreadyValidated);
        }
        t := t.(validatedByPresident := true);
      } else if caller.role == PCO {
        if t.validatedByPCO {
          return Err(AlreadyValidated);
        }
        t := t.(validatedByPCO := true);
      }
      if t.validatedByPresident && t.validatedByPCO {
        t := t.(validatedByPresidentAndPCO := true);
      }
      txs := txs[id := t];
      r := Ok(t);
    }
  }

  /**
   * The expense walk-through: a treasurer's expense starts with no
   * approval; after the president it is still not fully approved; after the
   * PCO it is.
   */
  method ExpenseScenario(t1: User, p1: User, c1: User, now: Date)
    requires t1.role == Tresorier && p1.role == President && c1.role == PCO
  {
    var store := new TransactionStore();
    var created := store.CreateExpense(t1, Some(100), Some("supplies"), Some("Vendor X"), now);
    assert created.Ok? && |store.txs| == 1;
    assert !created.value.validatedByPresident && !created.value.validatedByPCO;
    assert !created.value.validatedByPresidentAndPCO;
    var afterPresident := store.Validate(p1, 0);
    assert afterPresident.Ok? && afterPresident.value.validatedByPresident;
    assert !afterPresident.value.validatedByPresidentAndPCO;
    var afterPCO := store.Validate(c1, 0);
    assert afterPCO.Ok? && afterPCO.value.validatedByPCO && afterPCO.value.validatedByPresidentAndPCO;
    var again := store.Validate(c1, 0);
    assert again == Err(AlreadyValidated);
  }

  /**
   * The income walk-through: a fresh income has neither treasurer
   * reference; a treasurer's validation records the treasurer; a second
   * validation is refused.
   */
  method IncomeScenario(u1: UserId, t1: User, now: Date)
    requires t1.role == Tresorier
  {
    var store := new TransactionStore();
    var body := Handlers.Body(Some(50), None, Some(u1), Some(EntreeName), Some(CotisationName), None);
    var created := store.Create(body, now);
    assert created.Ok?;
    assert created.value.validatedByTreasurers.None? && created.value.rejectedByTreasurers.None?;
    var validated := store.ValidateTreasurer(t1, 0);
    assert validated.Ok? && validated.value.validatedByTreasurers == Some(t1.id);
    var again := store.ValidateTreasurer(t1, 0);
    assert again == Err(AlreadyValidated);
  }
}
