/**
 * The approval state machine on one transaction record: what each approval
 * handler does to the record it loaded before saving it back.
 */
module Approval {
  import opened Common
  import opened TransactionModel

  /**
   * `after` is `before` with approvals only added: the record's content is
   * the same, a treasurer reference once set keeps its value, and a flag
   * once true stays true.
   */
  predicate Extends(before: Tx, after: Tx) {
    && after.amount == before.amount
    && after.reason == before.reason
    && after.initiatedBy == before.initiatedBy
    && after.date == before.date
    && after.donateur == before.donateur
    && after.kind == before.kind
    && after.subtype == before.subtype
    && (before.validatedByTreasurers.Some? ==> after.validatedByTreasurers == before.validatedByTreasurers)
    && (before.rejectedByTreasurers.Some? ==> after.rejectedByTreasurers == before.rejectedByTreasurers)
    && (before.validatedByPresident ==> after.validatedByPresident)
    && (before.validatedByPCO ==> after.validatedByPCO)
    && (before.validatedByPresidentAndPCO ==> after.validatedByPresidentAndPCO)
  }

  /**
   * `/validate-treasurer/:id` on a loaded record: refused when a treasurer
   * validation is already recorded (the rejection field is not looked at);
   * otherwise records `who` as the validating treasurer and nothing else.
   */
  function ValidateByTreasurer(t: Tx, who: UserId): (r: Result<Tx>)
    ensures r.Err? <==> t.validatedByTreasurers.Some?
    ensures r.Err? ==> r.error == AlreadyValidated
    ensures r.Ok? ==> r.value.validatedByTreasurers == Some(who)
    ensures r.Ok? ==> r.value.(validatedByTreasurers := t.validatedByTreasurers) == t
    ensures r.Ok? ==> Extends(t, r.value)
  {
    if t.validatedByTreasurers.Some? then Err(AlreadyValidated)
    else Ok(t.(validatedByTreasurers := Some(who)))
  }

  /**
   * `/reject-treasurer/:id` on a loaded record: the mirror image, looking
   * only at the rejection field.
   */
  function RejectByTreasurer(t: Tx, who: UserId): (r: Result<Tx>)
    ensures r.Err? <==> t.rejectedByTreasurers.Some?
    ensures r.Err? ==> r.error == AlreadyRejected
    ensures r.Ok? ==> r.value.rejectedByTreasurers == Some(who)
    ensures r.Ok? ==> r.value.(rejectedByTreasurers := t.rejectedByTreasurers) == t
    ensures r.Ok? ==> Extends(t, r.value)
  {
    if t.rejectedByTreasurers.Some? then Err(AlreadyRejected)
    else Ok(t.(rejectedByTreasurers := Some(who)))
  }

  /** The last step of `/validate/:id`: the combined flag is raised once both flags are. */
  function CombineFlags(t: Tx): (r: Tx)
    ensures r.validatedByPresidentAndPCO == (t.validatedByPresidentAndPCO || (t.validatedByPresident && t.validatedByPCO))
    ensures r.(validatedByPresidentAndPCO := t.validatedByPresidentAndPCO) == t
  {
    if t.validatedByPresident && t.validatedByPCO then t.(validatedByPresidentAndPCO := true) else t
  }

  /**
   * `/validate/:id` on a loaded record, for a caller with role `role`: a
   * president raises the president flag and a PCO the PCO flag, each
   * refused when the caller's own flag is already up; any other role
   * changes no flag. Then the combined flag is raised if both flags are up.
   */
  function ApproveExpense(t: Tx, role: string): (r: Result<Tx>)
    ensures r.Err? <==> (role == President && t.validatedByPresident) || (role == PCO && t.validatedByPCO)
    ensures r.Err? ==> r.error == AlreadyValidated
    ensures r.Ok? ==> r.value.validatedByPresident == (t.validatedByPresident || role == President)
    ensures r.Ok? ==> r.value.validatedByPCO == (t.validatedByPCO || role == PCO)
    ensures r.Ok? ==> r.value.validatedByPresidentAndPCO ==
                      (t.validatedByPresidentAndPCO || (r.value.validatedByPresident && r.value.validatedByPCO))
    ensures r.Ok? ==> r.value.(validatedByPresident := t.validatedByPresident,
                               validatedByPCO := t.validatedByPCO,
                               validatedByPresidentAndPCO := t.validatedByPresidentAndPCO) == t
    ensures r.Ok? ==> Extends(t, r.value)
  {
    var flagged :=
      if role == President then
        (if t.validatedByPresident then Err(AlreadyValidated) else Ok(t.(validatedByPresident := true)))
      else if role == PCO then
        (if t.validatedByPCO then Err(AlreadyValidated) else Ok(t.(validatedByPCO := true)))
      else Ok(t);
    if flagged.Err? then Err(flagged.error) else Ok(CombineFlags(flagged.value))
  }

  /** Every transition keeps the combined flag equal to "president and PCO". */
  lemma TransitionsKeepConsistent(t: Tx, who: UserId, role: string)
    requires Consistent(t)
    ensures ValidateByTreasurer(t, who).Ok? ==> Consistent(ValidateByTreasurer(t, who).value)
    ensures RejectByTreasurer(t, who).Ok? ==> Consistent(RejectByTreasurer(t, who).value)
    ensures ApproveExpense(t, role).Ok? ==> Consistent(ApproveExpense(t, role).value)
  {
  }

  /** So does every transition on a schema-valid record keep it schema-valid. */
  lemma TransitionsKeepSchema(t: Tx, who: UserId, role: string)
    requires SchemaValid(t)
    ensures ValidateByTreasurer(t, who).Ok? ==> SchemaValid(ValidateByTreasurer(t, who).value)
    ensures RejectByTreasurer(t, who).Ok? ==> SchemaValid(RejectByTreasurer(t, who).value)
    ensures ApproveExpense(t, role).Ok? ==> SchemaValid(ApproveExpense(t, role).value)
  {
  }

  lemma ExtendsTransitive(a: Tx, b: Tx, c: Tx)
    requires Extends(a, b) && Extends(b, c)
    ensures Extends(a, c)
  {
  }

  /**
   * Neither treasurer handler looks at the other's field: on a pending
   * record, validating and then rejecting (or the reverse) both succeed,
   * and the record ends with both references set.
   */
  lemma ValidateAndRejectBothSucceed(t: Tx, v: UserId, w: UserId)
    requires t.validatedByTreasurers.None? && t.rejectedByTreasurers.None?
    ensures var a := ValidateByTreasurer(t, v);
            a.Ok? && RejectByTreasurer(a.value, w).Ok? &&
            RejectByTreasurer(a.value, w).value.validatedByTreasurers == Some(v) &&
            RejectByTreasurer(a.value, w).value.rejectedByTreasurers == Some(w)
    ensures var b := RejectByTreasurer(t, w);
            b.Ok? && ValidateByTreasurer(b.value, v).Ok? &&
            ValidateByTreasurer(b.value, v).value == ValidateByTreasurer(t, v).value.(rejectedByTreasurers := Some(w))
  {
  }

  /**
   * On an expense at the defaults, the president's and the PCO's approvals
   * succeed in either order, reach the same record, and only the second
   * raises the combined flag.
   */
  lemma ApprovalsCommute(t: Tx)
    requires AtDefaults(t)
    ensures var p := ApproveExpense(t, President);
            p.Ok? && !p.value.validatedByPresidentAndPCO &&
            ApproveExpense(p.value, PCO).Ok? && ApproveExpense(p.value, PCO).value.validatedByPresidentAndPCO
    ensures var c := ApproveExpense(t, PCO);
            c.Ok? && !c.value.validatedByPresidentAndPCO &&
            ApproveExpense(c.value, President).Ok? &&
            ApproveExpense(c.value, President).value == ApproveExpense(ApproveExpense(t, President).value, PCO).value
  {
  }

  /** A second approval by the same role is refused. */
  lemma SecondApprovalRefused(t: Tx, role: string)
    requires role == President || role == PCO
    requires ApproveExpense(t, role).Ok?
    ensures ApproveExpense(ApproveExpense(t, role).value, role) == Err(AlreadyValidated)
  {
  }
}
