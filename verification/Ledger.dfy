/** The balance service: cached balances and the append-only ledger, always changed together. */
module Ledger {
  import opened Common

  datatype Unit = MONEY | TIME_SECONDS | PRINT_BW | PRINT_COLOR

  datatype Kind = LOAD | USAGE | PRINT | PACKAGE

  /** What a ledger row refers to. */
  datatype RefType = ManualLoad | UsageSession | PrintJob | Sale | Subscription

  datatype Delta = Delta(tenant: Id, customer: Id, unit: Unit, amount: int, kind: Kind, refType: RefType, refId: Id,
                         actor: Id, allowNegative: bool := false)

  datatype Row = Row(tenant: Id, customer: Id, kind: Kind, unit: Unit, amount: int, balanceAfter: int,
                     refType: RefType, refId: Id, actor: Id)

  datatype Balance = Balance(money: int, time: int, printBw: int, printColor: int)

  const EMPTY_BALANCE := Balance(0, 0, 0, 0)

  datatype Book = Book(balances: map<Id, Balance>, rows: seq<Row>)

  const EMPTY_BOOK := Book(map[], [])

  function ReadUnit(b: Balance, u: Unit): int {
    match u
    case MONEY => b.money
    case TIME_SECONDS => b.time
    case PRINT_BW => b.printBw
    case PRINT_COLOR => b.printColor
  }

  function WriteUnit(b: Balance, u: Unit, value: int): Balance {
    match u
    case MONEY => b.(money := value)
    case TIME_SECONDS => b.(time := value)
    case PRINT_BW => b.(printBw := value)
    case PRINT_COLOR => b.(printColor := value)
  }

  /** The upsert: a customer without a balance row reads as all zeros. */
  function BalanceOf(b: Book, c: Id): Balance {
    if c in b.balances then b.balances[c] else EMPTY_BALANCE
  }

  function Cached(b: Book, c: Id, u: Unit): int {
    ReadUnit(BalanceOf(b, c), u)
  }

  function RowFor(d: Delta, balanceAfter: int): Row {
    Row(d.tenant, d.customer, d.kind, d.unit, d.amount, balanceAfter, d.refType, d.refId, d.actor)
  }

  function Apply(b: Book, d: Delta): Result<Book> {
    var next := Cached(b, d.customer, d.unit) + d.amount;
    if next < 0 && !d.allowNegative then Err(INSUFFICIENT_BALANCE)
    else Ok(Book(b.balances[d.customer := WriteUnit(BalanceOf(b, d.customer), d.unit, next)],
                 b.rows + [RowFor(d, next)]))
  }

  /** The manual load of customers.service.ts; amounts are at least 1. */
  function LoadBalance(b: Book, customers: map<Id, Id>, user: Principal, customer: Id, unit: Unit, amount: nat)
    : Result<Book>
  {
    if customer !in customers || customers[customer] != user.tenant then Err(NOT_FOUND)
    else Apply(b, Delta(user.tenant, customer, unit, amount, if unit.MONEY? then LOAD else PACKAGE, ManualLoad, "",
                        user.employee))
  }

  // ---- replay -------------------------------------------------------------------------------

  /** Replaying the ledger: the sum of one customer's amounts in one unit. */
  function Total(rows: seq<Row>, c: Id, u: Unit): int {
    if rows == [] then 0 else
      var last := rows[|rows| - 1];
      Total(rows[..|rows| - 1], c, u) + (if last.customer == c && last.unit == u then last.amount else 0)
  }

  /** The snapshot on a customer's most recent row in one unit; 0 if there is none. */
  function LastSnapshot(rows: seq<Row>, c: Id, u: Unit): int {
    if rows == [] then 0 else
      var last := rows[|rows| - 1];
      if last.customer == c && last.unit == u then last.balanceAfter else LastSnapshot(rows[..|rows| - 1], c, u)
  }

  ghost predicate SnapshotsReplay(rows: seq<Row>) {
    forall i :: 0 <= i < |rows| ==>
      rows[i].balanceAfter == Total(rows[..i + 1], rows[i].customer, rows[i].unit) && rows[i].balanceAfter >= 0
  }

  /** The documented invariant: caches and snapshots are what replaying the ledger gives, and none is negative. */
  ghost predicate Replays(b: Book) {
    && (forall c, u :: Cached(b, c, u) == Total(b.rows, c, u) >= 0)
    && SnapshotsReplay(b.rows)
  }

  /** The rows that refer to one entity, in ledger order. */
  function RowsOf(rows: seq<Row>, t: RefType, id: Id): seq<Row> {
    if rows == [] then [] else
      var last := rows[|rows| - 1];
      RowsOf(rows[..|rows| - 1], t, id) + (if last.refType == t && last.refId == id then [last] else [])
  }

  lemma RowsOfAppend(rows: seq<Row>, r: Row, t: RefType, id: Id)
    ensures RowsOf(rows + [r], t, id) == RowsOf(rows, t, id) + (if r.refType == t && r.refId == id then [r] else [])
  {
    assert (rows + [r])[..|rows|] == rows;
  }

  lemma TotalAppend(rows: seq<Row>, r: Row, c: Id, u: Unit)
    ensures Total(rows + [r], c, u) == Total(rows, c, u) + (if r.customer == c && r.unit == u then r.amount else 0)
  {
    assert (rows + [r])[..|rows|] == rows;
  }

  /** A credit or debit is refused exactly when replaying the ledger with it would go below zero. */
  lemma RefusedIffOverdraft(b: Book, d: Delta)
    requires Replays(b)
    ensures Apply(b, d).Err? <==> Total(b.rows, d.customer, d.unit) + d.amount < 0 && !d.allowNegative
  {
  }

  /** One application keeps the invariant and moves only the customer's one unit. */
  lemma ApplyReplays(b: Book, d: Delta)
    requires Replays(b) && Apply(b, d).Ok? && !d.allowNegative
    ensures Replays(Apply(b, d).value)
    ensures forall c, u :: Cached(Apply(b, d).value, c, u)
                           == Cached(b, c, u) + if c == d.customer && u == d.unit then d.amount else 0
  {
    var b' := Apply(b, d).value;
    var r := b'.rows[|b.rows|];
    forall c, u
      ensures Cached(b', c, u) == Cached(b, c, u) + if c == d.customer && u == d.unit then d.amount else 0
      ensures Cached(b', c, u) == Total(b'.rows, c, u) >= 0
    {
      TotalAppend(b.rows, r, c, u);
    }
    forall i | 0 <= i < |b'.rows|
      ensures b'.rows[i].balanceAfter == Total(b'.rows[..i + 1], b'.rows[i].customer, b'.rows[i].unit)
      ensures b'.rows[i].balanceAfter >= 0
    {
      if i < |b.rows| {
        assert b'.rows[..i + 1] == b.rows[..i + 1];
      } else {
        assert b'.rows[..i + 1] == b'.rows;
      }
    }
  }

  /** The row of a change says whose it is, what moved, why and by whom. */
  lemma ApplyRecords(b: Book, d: Delta)
    requires Apply(b, d).Ok?
    ensures var rows := Apply(b, d).value.rows;
            && |rows| == |b.rows| + 1 && rows[..|b.rows|] == b.rows
            && var r := rows[|b.rows|];
               && r.tenant == d.tenant && r.customer == d.customer && r.unit == d.unit && r.amount == d.amount
               && r.kind == d.kind && r.refType == d.refType && r.refId == d.refId && r.actor == d.actor
  {
  }

  /** A manual load is accepted exactly for a customer of the employee's tenant; it adds that amount in that unit and
      nothing else, as LOAD for money and PACKAGE for the rest. */
  lemma LoadAcceptedIff(b: Book, customers: map<Id, Id>, user: Principal, customer: Id, unit: Unit, amount: nat)
    requires Replays(b)
    ensures match LoadBalance(b, customers, user, customer, unit, amount)
            case Ok(b') =>
              && customer in customers && customers[customer] == user.tenant
              && (forall c, u :: Total(b'.rows, c, u)
                                 == Total(b.rows, c, u) + if c == customer && u == unit then amount else 0)
              && |b'.rows| == |b.rows| + 1
              && var r := b'.rows[|b.rows|];
                 && r.kind == (if unit == MONEY then LOAD else PACKAGE) && r.tenant == user.tenant
                 && r.actor == user.employee && r.refType == ManualLoad
            case Err(e) => e == NOT_FOUND && !(customer in customers && customers[customer] == user.tenant)
  {
    if LoadBalance(b, customers, user, customer, unit, amount).Ok? {
      var b' := LoadBalance(b, customers, user, customer, unit, amount).value;
      forall c, u
        ensures Total(b'.rows, c, u) == Total(b.rows, c, u) + if c == customer && u == unit then amount else 0
      {
        TotalAppend(b.rows, b'.rows[|b.rows|], c, u);
      }
    }
  }

  lemma {:induction false} SnapshotIsTotal(rows: seq<Row>, c: Id, u: Unit)
    requires SnapshotsReplay(rows)
    ensures LastSnapshot(rows, c, u) == Total(rows, c, u)
  {
    if rows == [] {
    } else {
      var n := |rows| - 1;
      assert rows[..n + 1] == rows;
      if !(rows[n].customer == c && rows[n].unit == u) {
        forall i | 0 <= i < n
          ensures rows[..n][i].balanceAfter == Total(rows[..n][..i + 1], rows[..n][i].customer, rows[..n][i].unit)
          ensures rows[..n][i].balanceAfter >= 0
        {
          assert rows[..n][..i + 1] == rows[..i + 1];
        }
        SnapshotIsTotal(rows[..n], c, u);
      }
    }
  }

  /** Balances are reconstructable: each is the last snapshot, and equal ledgers mean equal balances. */
  lemma Reconstructable(b: Book, other: Book, c: Id, u: Unit)
    requires Replays(b)
    ensures Cached(b, c, u) == LastSnapshot(b.rows, c, u)
    ensures Replays(other) && other.rows == b.rows ==> Cached(other, c, u) == Cached(b, c, u)
  {
    SnapshotIsTotal(b.rows, c, u);
  }

  // ---- what a service may do to the book -----------------------------------------------------

  /** b' continues b by rows that all refer to entity (t, id), and keeps the invariant. */
  ghost predicate Continues(b: Book, b': Book, t: RefType, id: Id) {
    && |b.rows| <= |b'.rows| && b'.rows[..|b.rows|] == b.rows
    && (forall i :: |b.rows| <= i < |b'.rows| ==> b'.rows[i].refType == t && b'.rows[i].refId == id)
    && (Replays(b) ==> Replays(b'))
  }

  lemma ApplyContinues(b: Book, d: Delta)
    requires Apply(b, d).Ok? && !d.allowNegative
    ensures Continues(b, Apply(b, d).value, d.refType, d.refId)
  {
    if Replays(b) {
      ApplyReplays(b, d);
    }
  }

  lemma ContinuesTwice(b: Book, b1: Book, b2: Book, t: RefType, id: Id)
    requires Continues(b, b1, t, id) && Continues(b1, b2, t, id)
    ensures Continues(b, b2, t, id)
  {
    assert b2.rows[..|b.rows|] == b2.rows[..|b1.rows|][..|b.rows|];
    forall i | |b.rows| <= i < |b2.rows|
      ensures b2.rows[i].refType == t && b2.rows[i].refId == id
    {
      if i < |b1.rows| {
        assert b2.rows[i] == b2.rows[..|b1.rows|][i];
      }
    }
  }

  /** b' continues b by rows that all refer to entities of type t, and keeps the invariant. */
  ghost predicate GrowsBy(b: Book, b': Book, t: RefType) {
    && |b.rows| <= |b'.rows| && b'.rows[..|b.rows|] == b.rows
    && (forall i :: |b.rows| <= i < |b'.rows| ==> b'.rows[i].refType == t)
    && (Replays(b) ==> Replays(b'))
  }

  lemma GrowsTwice(b: Book, b1: Book, b2: Book, t: RefType)
    requires GrowsBy(b, b1, t) && GrowsBy(b1, b2, t)
    ensures GrowsBy(b, b2, t)
  {
    assert b2.rows[..|b.rows|] == b2.rows[..|b1.rows|][..|b.rows|];
    forall i | |b.rows| <= i < |b2.rows|
      ensures b2.rows[i].refType == t
    {
      if i < |b1.rows| {
        assert b2.rows[i] == b2.rows[..|b1.rows|][i];
      }
    }
  }

  /** Rows of other entities are untouched. */
  lemma {:induction false} OtherTypesUnchanged(rows: seq<Row>, rows': seq<Row>, t: RefType, t': RefType, id': Id)
    requires |rows| <= |rows'| && rows'[..|rows|] == rows
    requires forall i :: |rows| <= i < |rows'| ==> rows'[i].refType == t
    requires t' != t
    ensures RowsOf(rows', t', id') == RowsOf(rows, t', id')
    decreases |rows'|
  {
    if |rows'| == |rows| {
      assert rows' == rows;
    } else {
      var shorter := rows'[..|rows'| - 1];
      assert shorter[..|rows|] == rows'[..|rows|];
      OtherTypesUnchanged(rows, shorter, t, t', id');
    }
  }

  lemma {:induction false} OthersUnchanged(rows: seq<Row>, rows': seq<Row>, t: RefType, id: Id, t': RefType, id': Id)
    requires |rows| <= |rows'| && rows'[..|rows|] == rows
    requires forall i :: |rows| <= i < |rows'| ==> rows'[i].refType == t && rows'[i].refId == id
    requires t' != t || id' != id
    ensures RowsOf(rows', t', id') == RowsOf(rows, t', id')
    decreases |rows'|
  {
    if |rows'| == |rows| {
      assert rows' == rows;
    } else {
      var shorter := rows'[..|rows'| - 1];
      assert shorter[..|rows|] == rows'[..|rows|];
      OthersUnchanged(rows, shorter, t, id, t', id');
    }
  }

  /** The sum of one customer's amounts in one unit over the rows that refer to entities of one type. */
  function Referencing(rows: seq<Row>, t: RefType, c: Id, u: Unit): int {
    if rows == [] then 0 else
      var last := rows[|rows| - 1];
      Referencing(rows[..|rows| - 1], t, c, u)
      + (if last.refType == t && last.customer == c && last.unit == u then last.amount else 0)
  }

  lemma ReferencingAppend(rows: seq<Row>, r: Row, t: RefType, c: Id, u: Unit)
    ensures Referencing(rows + [r], t, c, u)
            == Referencing(rows, t, c, u) + if r.refType == t && r.customer == c && r.unit == u then r.amount else 0
  {
    assert (rows + [r])[..|rows|] == rows;
  }

  lemma {:induction false} ReferencingOthers(rows: seq<Row>, rows': seq<Row>, t: RefType, t': RefType, c: Id,
                                             u: Unit)
    requires |rows| <= |rows'| && rows'[..|rows|] == rows
    requires forall i :: |rows| <= i < |rows'| ==> rows'[i].refType == t
    requires t' != t
    ensures Referencing(rows', t', c, u) == Referencing(rows, t', c, u)
    decreases |rows'|
  {
    if |rows'| == |rows| {
      assert rows' == rows;
    } else {
      var shorter := rows'[..|rows'| - 1];
      assert shorter[..|rows|] == rows'[..|rows|];
      ReferencingOthers(rows, shorter, t, t', c, u);
    }
  }

  /** The service itself. The caller's transaction may put a saved state back. */
  class BalanceService {
    var balances: map<Id, Balance>
    var ledger: seq<Row>

    function Contents(): Book
      reads this
    {
      Book(balances, ledger)
    }

    constructor ()
      ensures Contents() == EMPTY_BOOK
    {
      balances, ledger := map[], [];
    }

    method ApplyWithin(d: Delta) returns (r: Result<int>)
      modifies this
      ensures match Apply(old(Contents()), d)
              case Ok(b) => Contents() == b && r == Ok(Cached(b, d.customer, d.unit))
              case Err(e) => Contents() == old(Contents()) && r == Err(e)
    {
      var balance := if d.customer in balances then balances[d.customer] else EMPTY_BALANCE;
      var current := ReadUnit(balance, d.unit);
      var next := current + d.amount;
      if next < 0 && !d.allowNegative {
        return Err(INSUFFICIENT_BALANCE);
      }
      balances := balances[d.customer := WriteUnit(balance, d.unit, next)];
      ledger := ledger + [RowFor(d, next)];
      r := Ok(next);
    }

    /** Undo of an aborted transaction. */
    method RollBack(saved: Book)
      modifies this
      ensures Contents() == saved
    {
      balances, ledger := saved.balances, saved.rows;
    }
  }
}
