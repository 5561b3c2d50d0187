/**
 * The read-only routes: the two pending lists, the filtered listing, the
 * leaderboard and a member's validated income, as filters, sorts and sums
 * over the store's records.
 */
module Queries {
  import opened Common
  import opened TransactionModel
  import opened Seqs
  import Auth
  import Handlers

  function DateKey(t: Tx): int { t.date }

  // ---------------------------------------------------------------------
  // GET /pending-treasurer and GET /pending-expenses

  predicate AwaitingTreasurer(t: Tx) {
    t.kind == Entree && t.validatedByTreasurers.None? && t.rejectedByTreasurers.None?
  }

  /** Exactly the incomes with neither treasurer reference, newest first. */
  function PendingTreasurer(txs: seq<Tx>): (r: seq<Tx>)
    ensures forall t ::
              multiset(r)[t] == if t.kind == Entree && t.validatedByTreasurers.None? && t.rejectedByTreasurers.None? then multiset(txs)[t] else 0
    ensures SortedDesc(r, DateKey)
  {
    SortDesc(Filter(txs, AwaitingTreasurer), DateKey)
  }

  /** The route, for treasurers only. */
  function PendingTreasurerRoute(caller: User, txs: seq<Tx>): (r: Result<seq<Tx>>)
    ensures r.Ok? <==> caller.role == Tresorier
    ensures r.Err? ==> r.error == Forbidden
    ensures r.Ok? ==> r.value == PendingTreasurer(txs)
  {
    match Auth.Authorize(Auth.TreasurerOnly, caller)
    case Deny(e) => Err(e)
    case Continue(_) => Ok(PendingTreasurer(txs))
  }

  predicate AwaitingFullApproval(t: Tx) {
    t.kind == Sortie && !t.validatedByPresidentAndPCO
  }

  /** Exactly the expenses whose combined flag is down, in the store's order. */
  function PendingExpenses(txs: seq<Tx>): (r: seq<Tx>)
    ensures forall t ::
              multiset(r)[t] == if t.kind == Sortie && !t.validatedByPresidentAndPCO then multiset(txs)[t] else 0
  {
    Filter(txs, AwaitingFullApproval)
  }

  /** The route, for presidents and PCOs only. */
  function PendingExpensesRoute(caller: User, txs: seq<Tx>): (r: Result<seq<Tx>>)
    ensures r.Ok? <==> caller.role == President || caller.role == PCO
    ensures r.Err? ==> r.error == Forbidden
    ensures r.Ok? ==> r.value == PendingExpenses(txs)
  {
    match Auth.Authorize(Auth.PresidentOrPCO, caller)
    case Deny(e) => Err(e)
    case Continue(_) => Ok(PendingExpenses(txs))
  }

  /** In a valid store a pending expense is one that the president or the PCO has yet to approve. */
  lemma PendingExpenseLacksApproval(txs: seq<Tx>, t: Tx)
    requires Handlers.StoreValid(txs)
    ensures t in PendingExpenses(txs) <==> t in txs && t.kind == Sortie && !(t.validatedByPresident && t.validatedByPCO)
  {
    FilterMember(txs, AwaitingFullApproval, t);
  }

  // ---------------------------------------------------------------------
  // GET /

  /** A find filter over the fields the listing route sets. */
  datatype Query = Query(
    kind: Option<TxType>,
    combined: Option<bool>,
    treasurerValidated: Option<bool>,  // `$exists` on validatedByTreasurers
    treasurerRejected: Option<bool>,   // `$exists` on rejectedByTreasurers
    amount: Option<int>,
    reason: Option<string>,            // case-insensitive `$regex` on reason
    date: Option<string>)              // `$regex` on date

  /** The two regular-expression tests, which the model leaves abstract. */
  datatype Matcher = Matcher(reason: (string, string) -> bool, date: (Date, string) -> bool)

  /** The store's semantics of a filter: every condition present must hold. */
  predicate Matches(q: Query, t: Tx, m: Matcher) {
    && (q.kind.Some? ==> t.kind == q.kind.value)
    && (q.combined.Some? ==> t.validatedByPresidentAndPCO == q.combined.value)
    && (q.treasurerValidated.Some? ==> t.validatedByTreasurers.Some? == q.treasurerValidated.value)
    && (q.treasurerRejected.Some? ==> t.rejectedByTreasurers.Some? == q.treasurerRejected.value)
    && (q.amount.Some? ==> t.amount == q.amount.value)
    && (q.reason.Some? ==> t.reason.Some? && m.reason(t.reason.value, q.reason.value))
    && (q.date.Some? ==> m.date(t.date, q.date.value))
  }

  /**
   * What the listing promises for its query parameters: `type=sortie`
   * keeps fully approved expenses, `type=entrée` treasurer-validated and
   * unrejected incomes, any other type nothing in particular; a price is an
   * exact amount; reason and date go to the pattern tests.
   */
  predicate ListingWants(kind: Option<string>, price: Option<int>, reason: Option<string>, date: Option<string>,
                         t: Tx, m: Matcher) {
    && (kind == Some(SortieName) ==> t.kind == Sortie && t.validatedByPresidentAndPCO)
    && (kind == Some(EntreeName) ==>
          t.kind == Entree && t.validatedByTreasurers.Some? && t.rejectedByTreasurers.None?)
    && (price.Some? ==> t.amount == price.value)
    && (reason.Some? && reason.value != "" ==> t.reason.Some? && m.reason(t.reason.value, reason.value))
    && (date.Some? && date.value != "" ==> m.date(t.date, date.value))
  }

  /**
   * The listing handler's query, built step by step from the query string
   * (`price` is the already parsed number, absent when the parameter is).
   */
  method BuildQuery(kind: Option<string>, price: Option<int>, reason: Option<string>, date: Option<string>)
    returns (q: Query)
    ensures forall t, m :: Matches(q, t, m) <==> ListingWants(kind, price, reason, date, t, m)
  {
    q := Query(None, None, None, None, None, None, None);
    if kind == Some(SortieName) {
      q := q.(kind := Some(Sortie), combined := Some(true));
    } else if kind == Some(EntreeName) {
      q := q.(kind := Some(Entree), treasurerValidated := Some(true), treasurerRejected := Some(false));
    }
    if price.Some? {
      q := q.(amount := price);
    }
    if reason.Some? && reason.value != "" {
      q := q.(reason := reason);
    }
    if date.Some? && date.value != "" {
      q := q.(date := date);
    }
  }

  /** `find(query).sort({ date: -1 })`. */
  function Find(txs: seq<Tx>, q: Query, m: Matcher): (r: seq<Tx>)
    ensures forall t :: multiset(r)[t] == if Matches(q, t, m) then multiset(txs)[t] else 0
    ensures SortedDesc(r, DateKey)
  {
    SortDesc(Filter(txs, t => Matches(q, t, m)), DateKey)
  }

  /** GET `/`: exactly the records the parameters ask for, newest first. */
  method ListTransactions(txs: seq<Tx>, kind: Option<string>, price: Option<int>, reason: Option<string>,
                          date: Option<string>, m: Matcher) returns (r: seq<Tx>)
    ensures forall t :: multiset(r)[t] == if ListingWants(kind, price, reason, date, t, m) then multiset(txs)[t] else 0
    ensures SortedDesc(r, DateKey)
  {
    var q := BuildQuery(kind, price, reason, date);
    r := Find(txs, q, m);
  }

  // ---------------------------------------------------------------------
  // GET /leaderboard

  /** The records the leaderboard sums: treasurer-validated incomes, rejected or not. */
  predicate Counted(t: Tx) {
    t.kind == Entree && t.validatedByTreasurers.Some?
  }

  function Contribution(t: Tx, u: UserId): int {
    if Counted(t) && t.initiatedBy == u then t.amount else 0
  }

  /** The sum of `amount` over `u`'s counted records. */
  function Funds(txs: seq<Tx>, u: UserId): int {
    if txs == [] then 0 else Contribution(txs[0], u) + Funds(txs[1..], u)
  }

  /** `u` initiated at least one counted record. */
  predicate Contributes(txs: seq<Tx>, u: UserId) {
    exists k :: 0 <= k < |txs| && Counted(txs[k]) && txs[k].initiatedBy == u
  }

  lemma ContributesUnfold(txs: seq<Tx>)
    requires txs != []
    ensures forall u :: Contributes(txs, u) <==>
      (Counted(txs[0]) && txs[0].initiatedBy == u) || Contributes(txs[1..], u)
  {
    forall u ensures Contributes(txs, u) <==> (Counted(txs[0]) && txs[0].initiatedBy == u) || Contributes(txs[1..], u) {
      if Contributes(txs[1..], u) {
        var k :| 0 <= k < |txs[1..]| && Counted(txs[1..][k]) && txs[1..][k].initiatedBy == u;
        assert txs[k + 1] == txs[1..][k];
      }
      if Contributes(txs, u) {
        var k :| 0 <= k < |txs| && Counted(txs[k]) && txs[k].initiatedBy == u;
        if k > 0 { assert txs[1..][k - 1] == txs[k]; }
      }
    }
  }

  /** The `$group` keys: each initiator of a counted record, once. */
  function Initiators(txs: seq<Tx>): (us: seq<UserId>)
    ensures Distinct(us)
    ensures forall u :: u in us <==> Contributes(txs, u)
  {
    if txs == [] then []
    else
      var rest := Initiators(txs[1..]);
      ContributesUnfold(txs);
      if Counted(txs[0]) && txs[0].initiatedBy !in rest then [txs[0].initiatedBy] + rest else rest
  }

  /** A leaderboard row: an initiator, their total, and their username from the join. */
  datatype Row = Row(userId: UserId, totalFunds: int, username: string)

  function FundsKey(r: Row): int { r.totalFunds }

  /** `u` survives the join and the `role: 'user'` match. */
  predicate Eligible(u: UserId, users: map<UserId, User>) {
    u in users && users[u].role == Member
  }

  /** The row the pipeline produces for an eligible initiator. */
  predicate IsRowOf(row: Row, txs: seq<Tx>, users: map<UserId, User>) {
    Eligible(row.userId, users) && row.totalFunds == Funds(txs, row.userId) && row.username == users[row.userId].username
  }

  /** `$lookup`, `$unwind` and `$match` over the grouped initiators. */
  function RowsFor(us: seq<UserId>, txs: seq<Tx>, users: map<UserId, User>): (rows: seq<Row>)
    ensures forall i :: 0 <= i < |rows| ==> IsRowOf(rows[i], txs, users) && rows[i].userId in us
    ensures forall u :: u in us && Eligible(u, users) ==> Row(u, Funds(txs, u), users[u].username) in rows
    ensures Distinct(us) ==> Distinct(rows)
  {
    if us == [] then []
    else
      var u := us[0];
      var rest := RowsFor(us[1..], txs, users);
      if Eligible(u, users) then [Row(u, Funds(txs, u), users[u].username)] + rest else rest
  }

  /** GET `/leaderboard`: group, sum, join, keep members, sort by total, largest first. */
  function Leaderboard(txs: seq<Tx>, users: map<UserId, User>): (rows: seq<Row>)
    ensures SortedDesc(rows, FundsKey)
    ensures multiset(rows) == multiset(RowsFor(Initiators(txs), txs, users))
  {
    SortDesc(RowsFor(Initiators(txs), txs, users), FundsKey)
  }

  /** Every row is an eligible member who initiated a validated income, with that member's total. */
  lemma LeaderboardRowsSound(txs: seq<Tx>, users: map<UserId, User>)
    ensures var rows := Leaderboard(txs, users);
      forall i :: 0 <= i < |rows| ==> IsRowOf(rows[i], txs, users) && Contributes(txs, rows[i].userId)
  {
    var grouped := RowsFor(Initiators(txs), txs, users);
    var rows := Leaderboard(txs, users);
    forall i | 0 <= i < |rows| ensures IsRowOf(rows[i], txs, users) && Contributes(txs, rows[i].userId) {
      assert rows[i] in multiset(grouped);
      var j :| 0 <= j < |grouped| && grouped[j] == rows[i];
    }
  }

  /** Every eligible member who initiated a validated income has a row. */
  lemma LeaderboardComplete(txs: seq<Tx>, users: map<UserId, User>, u: UserId)
    requires Contributes(txs, u) && Eligible(u, users)
    ensures var rows := Leaderboard(txs, users);
      exists i :: 0 <= i < |rows| && rows[i].userId == u
  {
    var rows := Leaderboard(txs, users);
    var row := Row(u, Funds(txs, u), users[u].username);
    assert row in RowsFor(Initiators(txs), txs, users);
    assert row in multiset(rows);
    var i :| 0 <= i < |rows| && rows[i] == row;
  }

  /** No member has two rows. */
  lemma LeaderboardUnique(txs: seq<Tx>, users: map<UserId, User>)
    ensures var rows := Leaderboard(txs, users);
      forall i, j :: 0 <= i < j < |rows| ==> rows[i].userId != rows[j].userId
  {
    var grouped := RowsFor(Initiators(txs), txs, users);
    var rows := Leaderboard(txs, users);
    PermutationDistinct(grouped, rows);
    forall i, j | 0 <= i < j < |rows| ensures rows[i].userId != rows[j].userId {
      assert rows[i] in multiset(grouped) && rows[j] in multiset(grouped);
      var a :| 0 <= a < |grouped| && grouped[a] == rows[i];
      var b :| 0 <= b < |grouped| && grouped[b] == rows[j];
    }
  }

  /** Replacing one record changes each total by the difference of that record's contributions. */
  lemma {:induction false} FundsUpdate(txs: seq<Tx>, k: nat, t: Tx, u: UserId)
    requires k < |txs|
    ensures Funds(txs[k := t], u) == Funds(txs, u) - Contribution(txs[k], u) + Contribution(t, u)
  {
    if k > 0 {
      FundsUpdate(txs[1..], k - 1, t, u);
      assert txs[k := t][1..] == txs[1..][k - 1 := t];
    } else {
      assert txs[k := t][1..] == txs[1..];
    }
  }

  /** Appending a record adds its contribution to each total. */
  lemma {:induction false} FundsAppend(txs: seq<Tx>, t: Tx, u: UserId)
    ensures Funds(txs + [t], u) == Funds(txs, u) + Contribution(t, u)
  {
    if txs != [] {
      FundsAppend(txs[1..], t, u);
      assert (txs + [t])[1..] == txs[1..] + [t];
    }
  }

  /**
   * A treasurer's validation credits the initiator of an income with its
   * amount and leaves every other total alone.
   */
  lemma ValidationCredits(txs: seq<Tx>, caller: User, id: TxId, u: UserId)
    requires Handlers.ValidateTreasurer(txs, caller, id).reply.Ok?
    ensures var after := Handlers.ValidateTreasurer(txs, caller, id).txs;
      Funds(after, u) == Funds(txs, u) + (if txs[id].kind == Entree && txs[id].initiatedBy == u then txs[id].amount else 0)
  {
    var o := Handlers.ValidateTreasurer(txs, caller, id);
    FundsUpdate(txs, id, o.reply.value, u);
  }

  /** A rejection changes no total: rejected records are still summed. */
  lemma RejectionKeepsFunds(txs: seq<Tx>, caller: User, id: TxId, u: UserId)
    ensures Funds(Handlers.RejectTreasurer(txs, caller, id).txs, u) == Funds(txs, u)
  {
    var o := Handlers.RejectTreasurer(txs, caller, id);
    if o.reply.Ok? {
      FundsUpdate(txs, id, o.reply.value, u);
    }
  }

  /** A newly created transaction is not yet counted, so creation changes no total. */
  lemma CreationKeepsFunds(txs: seq<Tx>, body: Handlers.Body, now: Date, u: UserId)
    ensures Funds(Handlers.CreateTransaction(txs, body, now).txs, u) == Funds(txs, u)
  {
    var o := Handlers.CreateTransaction(txs, body, now);
    if o.reply.Ok? {
      FundsAppend(txs, o.reply.value, u);
    }
  }

  // ---------------------------------------------------------------------
  // GET /entree/:userId (the route registered first)

  /** An income initiated by `u` that a treasurer validated. */
  predicate ValidatedIncomeOf(u: UserId, t: Tx) {
    t.initiatedBy == u && t.kind == Entree && t.validatedByTreasurers.Some?
  }

  /** A row of the reply: the record and its validating treasurer's username, if that user exists. */
  datatype IncomeRow = IncomeRow(tx: Tx, treasurerUsername: Option<string>)

  function UsernameOf(users: map<UserId, User>, u: UserId): Option<string> {
    if u in users then Some(users[u].username) else None
  }

  /** Exactly `u`'s validated incomes, newest first. */
  function IncomeRecords(txs: seq<Tx>, u: UserId): (r: seq<Tx>)
    ensures forall t ::
              multiset(r)[t] == if t.initiatedBy == u && t.kind == Entree && t.validatedByTreasurers.Some? then multiset(txs)[t] else 0
    ensures SortedDesc(r, DateKey)
  {
    SortDesc(Filter(txs, t => ValidatedIncomeOf(u, t)), DateKey)
  }

  /**
   * The handler after `protectUser`: an unknown user is NotFound; otherwise
   * the user's validated incomes, newest first, each with the username of
   * the treasurer who validated it.
   */
  function UserIncome(txs: seq<Tx>, users: map<UserId, User>, u: UserId): (r: Result<seq<IncomeRow>>)
    ensures r.Err? <==> u !in users
    ensures r.Err? ==> r.error == NotFound
    ensures r.Ok? ==> |r.value| == |IncomeRecords(txs, u)|
    ensures r.Ok? ==> forall i :: 0 <= i < |r.value| ==>
      && r.value[i].tx == IncomeRecords(txs, u)[i]
      && ValidatedIncomeOf(u, r.value[i].tx)
      && r.value[i].treasurerUsername == UsernameOf(users, r.value[i].tx.validatedByTreasurers.value)
  {
    if u !in users then Err(NotFound)
    else
      var records := IncomeRecords(txs, u);
      Ok(seq(|records|, i requires 0 <= i < |records| =>
        IncomeRow(records[i], UsernameOf(users, records[i].validatedByTreasurers.value))))
  }

  /** The whole route: `protectUser`'s decision, then the handler. */
  function UserIncomeRoute(userId: Option<string>, findById: UserId -> Auth.Lookup,
                           txs: seq<Tx>, users: map<UserId, User>): (r: Result<seq<IncomeRow>>)
    ensures Auth.ProtectUser(userId, findById).Deny? ==> r == Err(Auth.ProtectUser(userId, findById).error)
    ensures Auth.ProtectUser(userId, findById).Continue? ==> r == UserIncome(txs, users, userId.value)
  {
    match Auth.ProtectUser(userId, findById)
    case Deny(e) => Err(e)
    case Continue(_) => UserIncome(txs, users, userId.value)
  }
}
