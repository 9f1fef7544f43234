/** Recurring subscriptions: creation, the charging sweep with one rollback per item, cancellation. */
module Subscriptions {
  import opened Common
  import opened Calendar
  import opened Catalogue
  import opened Ledger

  datatype SubStatus = RUNNING | SUSPENDED | CANCELLED_SUB | EXPIRED | PAST_DUE

  /** `sale` is a history variable: the sale whose settlement recorded the row. No operation reads it. */
  datatype Sub = Sub(tenant: Id, customer: Id, package: Id, interval: Interval, status: SubStatus, price: nat,
                     autoRenew: bool, externalRef: Option<string>, createdAt: int, periodEnd: int, sale: Option<Id>)

  type Subs = map<Id, Sub>

  function Create(subs: Subs, packages: map<Id, Package>, customers: set<Id>, user: Principal, customer: Id,
                  package: Id, id: Id, now: int): Result<Subs>
  {
    if package !in packages || packages[package].tenant != user.tenant
       || packages[package].kind != SUBSCRIPTION_PLAN then Err(VALIDATION_FAILED)
    else if customer !in customers then Err(FOREIGN_KEY_VIOLATION)
    else
      var current := Newest(packages[package].prices, (p: PriceRow) => p.validTo.None?);
      var interval := IntervalOf(packages[package].config);
      Ok(subs[id := Sub(user.tenant, customer, package, interval, RUNNING,
                        if current.Some? then current.value.price else 0, true, None, now, Advance(now, interval),
                        None)])
  }

  /** A subscription the payment provider bills itself: never charged here. */
  function ExternalSub(packages: map<Id, Package>, tenant: Id, customer: Id, package: Id, externalRef: string,
                       price: nat, sale: Id, now: int): Sub
  {
    var interval := if package in packages && packages[package].tenant == tenant
                    then IntervalOf(packages[package].config) else MONTHLY;
    Sub(tenant, customer, package, interval, RUNNING, price, false, Some(externalRef), now, Advance(now, interval),
        Some(sale))
  }

  function Cancel(subs: Subs, user: Principal, id: Id): Result<Subs> {
    if id !in subs || subs[id].tenant != user.tenant then Err(NOT_FOUND)
    else Ok(subs[id := subs[id].(status := CANCELLED_SUB, autoRenew := false)])
  }

  predicate IsDue(s: Sub, tenant: Id, now: int) {
    s.tenant == tenant && s.status == RUNNING && s.autoRenew && s.periodEnd <= now
  }

  function Due(subs: Subs, tenant: Id, now: int): set<Id> {
    set id | id in subs && IsDue(subs[id], tenant, now)
  }

  function ChargeFor(s: Sub, id: Id, tenant: Id, actor: Id): Delta {
    Delta(tenant, s.customer, MONEY, 0 - s.price, USAGE, Subscription, id, actor)
  }

  datatype Swept = Swept(subs: Subs, book: Book, charged: nat, pastDue: nat)

  /** One item: charge and advance together, or neither and PAST_DUE. */
  function SweepOne(w: Swept, tenant: Id, actor: Id, id: Id): Swept
    requires id in w.subs
  {
    var s := w.subs[id];
    match Apply(w.book, ChargeFor(s, id, tenant, actor))
    case Ok(b) => Swept(w.subs[id := s.(periodEnd := Advance(s.periodEnd, s.interval))], b, w.charged + 1, w.pastDue)
    case Err(_) => Swept(w.subs[id := s.(status := PAST_DUE)], w.book, w.charged, w.pastDue + 1)
  }

  /** The sweep over the due rows in the order the query returned them. */
  function Sweep(subs: Subs, book: Book, tenant: Id, actor: Id, order: seq<Id>): (w: Swept)
    requires forall id :: id in order ==> id in subs
    ensures w.subs.Keys == subs.Keys
  {
    if order == [] then Swept(subs, book, 0, 0)
    else SweepOne(Sweep(subs, book, tenant, actor, order[..|order| - 1]), tenant, actor, order[|order| - 1])
  }

  lemma SweepNext(subs: Subs, book: Book, tenant: Id, actor: Id, order: seq<Id>, i: nat)
    requires i < |order| && forall id :: id in order ==> id in subs
    ensures order[..i + 1] != [] && order[i] in subs
    ensures (forall id :: id in order[..i] ==> id in subs) && forall id :: id in order[..i + 1] ==> id in subs
    ensures Sweep(subs, book, tenant, actor, order[..i + 1])
            == SweepOne(Sweep(subs, book, tenant, actor, order[..i]), tenant, actor, order[i])
  {
    assert order[i] in order;
    assert order[..i + 1][..i] == order[..i];
  }

  /** One call that touches the subscriptions; `order` lists the due rows as the query returned them. */
  datatype Op =
    | CreateOp(user: Principal, customer: Id, package: Id, id: Id, now: int)
    | SweepOp(tenant: Id, actor: Id, order: seq<Id>, now: int)
    | CancelOp(user: Principal, id: Id, now: int)

  function Exec(packages: map<Id, Package>, customers: set<Id>, subs: Subs, b: Book, op: Op): (Subs, Book)
    requires op.SweepOp? ==> forall id :: id in op.order ==> id in subs
  {
    match op
    case CreateOp(user, customer, package, id, now) =>
      var r := Create(subs, packages, customers, user, customer, package, id, now);
      (if r.Ok? then r.value else subs, b)
    case SweepOp(tenant, actor, order, _) =>
      var w := Sweep(subs, b, tenant, actor, order);
      (w.subs, w.book)
    case CancelOp(user, id, _) =>
      var r := Cancel(subs, user, id);
      (if r.Ok? then r.value else subs, b)
  }

  // ---- the service -------------------------------------------------------------------------------

  class SubscriptionsService {
    const balances: BalanceService
    var subs: Subs

    constructor (balances: BalanceService)
      ensures this.balances == balances && subs == map[]
    {
      this.balances, this.subs := balances, map[];
    }

    /** One item, charged and advanced in one transaction, or set PAST_DUE. */
    method ChargeOne(sub: Sub, tenant: Id, actor: Id, id: Id, ghost w: Swept) returns (ok: bool)
      requires id in subs && sub == subs[id] && w.subs == subs && w.book == balances.Contents()
      modifies this, balances
      ensures SweepOne(w, tenant, actor, id)
              == Swept(subs, balances.Contents(), if ok then w.charged + 1 else w.charged,
                       if ok then w.pastDue else w.pastDue + 1)
    {
      var r := balances.ApplyWithin(ChargeFor(sub, id, tenant, actor));
      ok := r.Ok?;
      if ok {
        subs := subs[id := sub.(periodEnd := Advance(sub.periodEnd, sub.interval))];
      } else {
        subs := subs[id := sub.(status := PAST_DUE)];
      }
    }

    method ProcessDue(tenant: Id, actor: Id, order: seq<Id>, now: int)
      returns (considered: nat, charged: nat, pastDue: nat)
      requires Lists(order, Due(subs, tenant, now))
      modifies this, balances
      ensures forall id :: id in order ==> id in old(subs)
      ensures var w := Sweep(old(subs), old(balances.Contents()), tenant, actor, order);
              subs == w.subs && balances.Contents() == w.book && charged == w.charged && pastDue == w.pastDue
      ensures considered == |order| == charged + pastDue
    {
      var due := subs;
      assert forall id :: id in order ==> id in Due(due, tenant, now) && id in due;
      assert forall j :: 0 <= j < |order| ==> order[j] in order && order[j] in due;
      ghost var book := balances.Contents();
      charged, pastDue := 0, 0;
      for i := 0 to |order|
        invariant forall id :: id in order ==> id in due
        invariant Swept(subs, balances.Contents(), charged, pastDue) == Sweep(due, book, tenant, actor, order[..i])
        invariant charged + pastDue == i && subs.Keys == due.Keys
      {
        var id := order[i];
        var sub := due[id];
        SweepNext(due, book, tenant, actor, order, i);
        SweepSparesRow(due, book, tenant, actor, order[..i], id);
        var ok := ChargeOne(sub, tenant, actor, id, Swept(subs, balances.Contents(), charged, pastDue));
        if ok {
          charged := charged + 1;
        } else {
          pastDue := pastDue + 1;
        }
      }
      assert order[..|order|] == order;
      considered := |order|;
    }

    method CreateSubscription(packages: map<Id, Package>, customers: set<Id>, user: Principal, customer: Id,
                              package: Id, id: Id, now: int) returns (r: Result<()>)
      modifies this
      ensures match Create(old(subs), packages, customers, user, customer, package, id, now)
              case Ok(s) => r == Ok(()) && subs == s
              case Err(e) => r == Err(e) && subs == old(subs)
    {
      if package !in packages || packages[package].tenant != user.tenant
         || packages[package].kind != SUBSCRIPTION_PLAN {
        return Err(VALIDATION_FAILED);
      }
      if customer !in customers {
        return Err(FOREIGN_KEY_VIOLATION);
      }
      var interval := IntervalOf(packages[package].config);
      var row := Newest(packages[package].prices, (p: PriceRow) => p.validTo.None?);
      var price := if row.Some? then row.value.price else 0;
      subs := subs[id := Sub(user.tenant, customer, package, interval, RUNNING, price, true, None, now,
                             Advance(now, interval), None)];
      r := Ok(());
    }

    method CreateExternal(packages: map<Id, Package>, tenant: Id, customer: Id, package: Id, externalRef: string,
                          price: nat, sale: Id, id: Id, now: int)
      modifies this
      ensures subs == old(subs)[id := ExternalSub(packages, tenant, customer, package, externalRef, price, sale, now)]
    {
      var interval := MONTHLY;
      if package in packages && packages[package].tenant == tenant {
        interval := IntervalOf(packages[package].config);
      }
      subs := subs[id := Sub(tenant, customer, package, interval, RUNNING, price, false, Some(externalRef), now,
                             Advance(now, interval), Some(sale))];
    }

    method CancelSubscription(user: Principal, id: Id) returns (r: Result<()>)
      modifies this
      ensures match Cancel(old(subs), user, id)
              case Ok(s) => r == Ok(()) && subs == s
              case Err(e) => r == Err(e) && subs == old(subs)
    {
      if id !in subs || subs[id].tenant != user.tenant {
        return Err(NOT_FOUND);
      }
      subs := subs[id := subs[id].(status := CANCELLED_SUB, autoRenew := false)];
      r := Ok(());
    }
  }

  // ---- what every run keeps ------------------------------------------------------------------------

  function AdvanceTimes(t: int, interval: Interval, n: nat): int {
    if n == 0 then t else Advance(AdvanceTimes(t, interval, n - 1), interval)
  }

  /** n ledger rows of exactly the price each, and the period end is n + 1 advances after creation. */
  ghost predicate SubOk(s: Sub, rows: seq<Row>) {
    && (forall i :: 0 <= i < |rows| ==> rows[i].amount == 0 - s.price && rows[i].unit == MONEY
                                        && rows[i].customer == s.customer)
    && s.periodEnd == AdvanceTimes(s.createdAt, s.interval, |rows| + 1)
    && (s.externalRef.Some? ==> !s.autoRenew && rows == [])
  }

  ghost predicate SubMatches(subs: Subs, rows: seq<Row>, id: Id) {
    if id in subs then SubOk(subs[id], RowsOf(rows, Subscription, id)) else RowsOf(rows, Subscription, id) == []
  }

  ghost predicate SubInv(subs: Subs, rows: seq<Row>) {
    forall id :: SubMatches(subs, rows, id)
  }

  lemma SubFrame(subs: Subs, subs': Subs, rows: seq<Row>, rows': seq<Row>, t: RefType, id: Id, k: Id)
    requires |rows| <= |rows'| && rows'[..|rows|] == rows
    requires forall i :: |rows| <= i < |rows'| ==> rows'[i].refType == t && rows'[i].refId == id
    requires SubMatches(subs, rows, k)
    requires k in subs' <==> k in subs
    requires k in subs ==> subs'[k] == subs[k]
    requires t != Subscription || k != id
    ensures SubMatches(subs', rows', k)
  {
    OthersUnchanged(rows, rows', t, id, Subscription, k);
  }

  lemma OtherServiceKeepsSubs(subs: Subs, b: Book, b': Book, t: RefType)
    requires SubInv(subs, b.rows) && t != Subscription && GrowsBy(b, b', t)
    ensures SubInv(subs, b'.rows)
  {
    forall k
      ensures SubMatches(subs, b'.rows, k)
    {
      OtherTypesUnchanged(b.rows, b'.rows, t, Subscription, k);
      assert SubMatches(subs, b.rows, k);
    }
  }

  /** A new row, or a change of status, keeps the invariant. */
  lemma PutSubKeeps(subs: Subs, rows: seq<Row>, id: Id, s: Sub)
    requires SubInv(subs, rows)
    requires id in subs ==> s == subs[id].(status := s.status, autoRenew := false)
    requires id !in subs ==> s.periodEnd == Advance(s.createdAt, s.interval) && (s.externalRef.Some? ==> !s.autoRenew)
    ensures SubInv(subs[id := s], rows)
  {
    var subs' := subs[id := s];
    forall k
      ensures SubMatches(subs', rows, k)
    {
      assert SubMatches(subs, rows, k);
      assert AdvanceTimes(s.createdAt, s.interval, 1) == Advance(AdvanceTimes(s.createdAt, s.interval, 0), s.interval);
    }
  }

  function Charges(b: Book, k: Id): nat {
    |RowsOf(b.rows, Subscription, k)|
  }

  /** One item of a sweep: charged and advanced exactly when the balance covers the price, else only PAST_DUE. */
  lemma SweepOneKeeps(w: Swept, tenant: Id, actor: Id, id: Id)
    requires id in w.subs && w.subs[id].autoRenew && SubInv(w.subs, w.book.rows) && Replays(w.book)
    ensures var w' := SweepOne(w, tenant, actor, id);
            && SubInv(w'.subs, w'.book.rows)
            && Continues(w.book, w'.book, Subscription, id)
            && Charges(w'.book, id) - Charges(w.book, id) == w'.charged - w.charged
            && (w'.charged == w.charged + 1 <==>
                w.subs[id].price <= Total(w.book.rows, w.subs[id].customer, MONEY))
  {
    var s := w.subs[id];
    var d := ChargeFor(s, id, tenant, actor);
    var w' := SweepOne(w, tenant, actor, id);
    assert SubMatches(w.subs, w.book.rows, id);
    if Apply(w.book, d).Ok? {
      ApplyContinues(w.book, d);
      ChargeOk(s, RowsOf(w.book.rows, Subscription, id), w'.book.rows[|w.book.rows|]);
      RowsOfAppend(w.book.rows, w'.book.rows[|w.book.rows|], Subscription, id);
    }
    forall k
      ensures SubMatches(w'.subs, w'.book.rows, k)
    {
      if k != id {
        SubFrame(w.subs, w'.subs, w.book.rows, w'.book.rows, Subscription, id, k);
      }
    }
  }

  /** An item's row, if it is charged: of the tenant, for use, by the actor. */
  lemma SweepOneRecords(w: Swept, tenant: Id, actor: Id, id: Id)
    requires id in w.subs
    ensures var rows := SweepOne(w, tenant, actor, id).book.rows;
            rows != w.book.rows ==>
              && |rows| == |w.book.rows| + 1 && rows[..|w.book.rows|] == w.book.rows
              && var r := rows[|w.book.rows|];
                 r.tenant == tenant && r.kind == USAGE && r.actor == actor && r.customer == w.subs[id].customer
  {
  }

  /** One more charge and one more advance. */
  lemma ChargeOk(s: Sub, rows: seq<Row>, r: Row)
    requires SubOk(s, rows) && s.autoRenew
    requires r.amount == 0 - s.price && r.unit == MONEY && r.customer == s.customer
    ensures SubOk(s.(periodEnd := Advance(s.periodEnd, s.interval)), rows + [r])
  {
    assert AdvanceTimes(s.createdAt, s.interval, |rows| + 2)
        == Advance(AdvanceTimes(s.createdAt, s.interval, |rows| + 1), s.interval);
  }

  /** What the sweep has done to row k: charged once and advanced, or set PAST_DUE, or nothing. */
  ghost predicate Treated(before: Sub, after: Sub, newRows: int) {
    || (newRows == 1 && after == before.(periodEnd := Advance(before.periodEnd, before.interval)))
    || (newRows == 0 && after == before.(status := PAST_DUE))
  }

  /** The order of a sweep: each row once, all of them renewing. */
  ghost predicate Sweepable(subs: Subs, order: seq<Id>) {
    && (forall i, j :: 0 <= i < j < |order| ==> order[i] != order[j])
    && (forall id :: id in order ==> id in subs && subs[id].autoRenew)
  }

  lemma SweepablePrefix(subs: Subs, order: seq<Id>)
    requires Sweepable(subs, order) && order != []
    ensures var n := |order| - 1;
            && Sweepable(subs, order[..n]) && order[n] in subs && subs[order[n]].autoRenew && order[n] !in order[..n]
  {
    assert order[|order| - 1] in order;
  }

  /** A row that is not swept keeps its value. */
  lemma {:induction false} SweepSparesRow(subs: Subs, book: Book, tenant: Id, actor: Id, order: seq<Id>, k: Id)
    requires forall id :: id in order ==> id in subs
    requires k in subs && k !in order
    ensures Sweep(subs, book, tenant, actor, order).subs[k] == subs[k]
  {
    if order == [] {
    } else {
      SweepSparesRow(subs, book, tenant, actor, order[..|order| - 1], k);
    }
  }

  lemma {:induction false} SweepKeeps(subs: Subs, book: Book, tenant: Id, actor: Id, order: seq<Id>)
    requires Sweepable(subs, order) && SubInv(subs, book.rows) && Replays(book)
    ensures var w := Sweep(subs, book, tenant, actor, order);
            SubInv(w.subs, w.book.rows) && Replays(w.book) && w.charged + w.pastDue == |order|
  {
    if order == [] {
    } else {
      var n := |order| - 1;
      var w := Sweep(subs, book, tenant, actor, order[..n]);
      SweepablePrefix(subs, order);
      SweepKeeps(subs, book, tenant, actor, order[..n]);
      SweepSparesRow(subs, book, tenant, actor, order[..n], order[n]);
      SweepOneKeeps(w, tenant, actor, order[n]);
    }
  }

  lemma SweepOneSpares(w: Swept, tenant: Id, actor: Id, id: Id, k: Id)
    requires id in w.subs && w.subs[id].autoRenew && SubInv(w.subs, w.book.rows) && Replays(w.book)
    requires k != id
    ensures var w' := SweepOne(w, tenant, actor, id);
            Charges(w'.book, k) == Charges(w.book, k) && (k in w.subs ==> k in w'.subs && w'.subs[k] == w.subs[k])
  {
    SweepOneKeeps(w, tenant, actor, id);
    OthersUnchanged(w.book.rows, SweepOne(w, tenant, actor, id).book.rows, Subscription, id, Subscription, k);
  }

  lemma SweepOneTreats(w: Swept, tenant: Id, actor: Id, id: Id)
    requires id in w.subs && w.subs[id].autoRenew && SubInv(w.subs, w.book.rows) && Replays(w.book)
    ensures var w' := SweepOne(w, tenant, actor, id);
            Treated(w.subs[id], w'.subs[id], Charges(w'.book, id) - Charges(w.book, id))
  {
    SweepOneKeeps(w, tenant, actor, id);
  }

  /** A subscription that is not swept is not charged. */
  lemma {:induction false} SweepSpares(subs: Subs, book: Book, tenant: Id, actor: Id, order: seq<Id>, k: Id)
    requires Sweepable(subs, order) && SubInv(subs, book.rows) && Replays(book) && k !in order
    ensures Charges(Sweep(subs, book, tenant, actor, order).book, k) == Charges(book, k)
  {
    if order == [] {
    } else {
      var n := |order| - 1;
      SweepablePrefix(subs, order);
      SweepKeeps(subs, book, tenant, actor, order[..n]);
      SweepSparesRow(subs, book, tenant, actor, order[..n], order[n]);
      SweepSpares(subs, book, tenant, actor, order[..n], k);
      SweepOneSpares(Sweep(subs, book, tenant, actor, order[..n]), tenant, actor, order[n], k);
    }
  }

  /** Row by row: each due subscription is charged once and advanced, or set PAST_DUE. */
  lemma {:induction false} SweepTreats(subs: Subs, book: Book, tenant: Id, actor: Id, order: seq<Id>, k: Id)
    requires Sweepable(subs, order) && SubInv(subs, book.rows) && Replays(book) && k in order
    ensures var w := Sweep(subs, book, tenant, actor, order);
            Treated(subs[k], w.subs[k], Charges(w.book, k) - Charges(book, k))
  {
    var n := |order| - 1;
    var w := Sweep(subs, book, tenant, actor, order[..n]);
    SweepablePrefix(subs, order);
    SweepKeeps(subs, book, tenant, actor, order[..n]);
    SweepSparesRow(subs, book, tenant, actor, order[..n], order[n]);
    if k == order[n] {
      SweepSpares(subs, book, tenant, actor, order[..n], k);
      SweepOneTreats(w, tenant, actor, k);
    } else {
      SweepTreats(subs, book, tenant, actor, order[..n], k);
      SweepOneSpares(w, tenant, actor, order[n], k);
    }
  }

  /** A subscription that does not renew itself is never charged by a sweep, nor changed in any way. */
  lemma NonRenewingUntouched(subs: Subs, book: Book, tenant: Id, actor: Id, order: seq<Id>, now: int, k: Id)
    requires SubInv(subs, book.rows) && Replays(book) && Lists(order, Due(subs, tenant, now))
    requires k in subs && !subs[k].autoRenew
    ensures (forall id :: id in order ==> id in subs)
            && var w := Sweep(subs, book, tenant, actor, order);
               w.subs[k] == subs[k]
               && Charges(w.book, k) == Charges(book, k)
  {
    DueListed(subs, tenant, now, order);
    SweepSpares(subs, book, tenant, actor, order, k);
    SweepSparesRow(subs, book, tenant, actor, order, k);
  }

  /** What makes a row due, condition by condition. */
  predicate MustSweep(s: Sub, tenant: Id, now: int) {
    s.tenant == tenant && s.status == RUNNING && s.autoRenew && s.periodEnd <= now
  }

  /** For every order in which the query may return the due rows: a row is charged, advanced or set past due if and only
      if it is the sweep's tenant's, running, renewing, and its period has ended by now. */
  lemma SweptIff(subs: Subs, book: Book, tenant: Id, actor: Id, order: seq<Id>, now: int, k: Id)
    requires SubInv(subs, book.rows) && Replays(book) && Lists(order, Due(subs, tenant, now)) && k in subs
    ensures (forall id :: id in order ==> id in subs)
            && var w := Sweep(subs, book, tenant, actor, order);
               && k in w.subs
               && (w.subs[k] != subs[k] || Charges(w.book, k) != Charges(book, k) <==> MustSweep(subs[k], tenant, now))
               && (MustSweep(subs[k], tenant, now) ==>
                     Treated(subs[k], w.subs[k], Charges(w.book, k) - Charges(book, k)))
  {
    DueListed(subs, tenant, now, order);
    assert k in order <==> k in Due(subs, tenant, now);
    if k in order {
      SweepTreats(subs, book, tenant, actor, order, k);
      AdvanceGrows(subs[k].periodEnd, subs[k].interval);
    } else {
      SweepSpares(subs, book, tenant, actor, order, k);
      SweepSparesRow(subs, book, tenant, actor, order, k);
    }
  }

  /** Some swept row is this customer's. */
  ghost predicate Sweeps(subs: Subs, order: seq<Id>, c: Id) {
    exists id :: id in order && id in subs && subs[id].customer == c
  }

  lemma {:induction false} SweepTakesFrom(subs: Subs, book: Book, tenant: Id, actor: Id, order: seq<Id>, c: Id, u: Unit)
    requires Sweepable(subs, order) && Replays(book)
    ensures var w := Sweep(subs, book, tenant, actor, order);
            && Replays(w.book)
            && (u != MONEY || !Sweeps(subs, order, c) ==> Cached(w.book, c, u) == Cached(book, c, u))
  {
    if order == [] {
    } else {
      var n := |order| - 1;
      var w := Sweep(subs, book, tenant, actor, order[..n]);
      SweepablePrefix(subs, order);
      SweepTakesFrom(subs, book, tenant, actor, order[..n], c, u);
      SweepSparesRow(subs, book, tenant, actor, order[..n], order[n]);
      assert Sweeps(subs, order[..n], c) ==> Sweeps(subs, order, c);
      assert subs[order[n]].customer == c ==> Sweeps(subs, order, c) by {
        assert order[n] in order;
      }
      var d := ChargeFor(w.subs[order[n]], order[n], tenant, actor);
      if Apply(w.book, d).Ok? {
        ApplyReplays(w.book, d);
      }
    }
  }

  /** A sweep takes money only, and only from customers of due rows of its own tenant; and every row it writes is the
      tenant's. */
  lemma OtherTenantsUntouched(subs: Subs, book: Book, tenant: Id, actor: Id, order: seq<Id>, now: int, c: Id, u: Unit)
    requires SubInv(subs, book.rows) && Replays(book) && Lists(order, Due(subs, tenant, now))
    requires u != MONEY || forall id :: id in subs && subs[id].customer == c ==> !MustSweep(subs[id], tenant, now)
    ensures (forall id :: id in order ==> id in subs)
            && Cached(Sweep(subs, book, tenant, actor, order).book, c, u) == Cached(book, c, u)
  {
    DueListed(subs, tenant, now, order);
    SweepTakesFrom(subs, book, tenant, actor, order, c, u);
  }

  /** A subscription is refused for anything but one of the tenant's plans and for an unknown customer; it takes the
      price of a newest open-ended price row, or 0 without one, and the plan's interval, or a month, and its first
      period is one interval from now. */
  lemma CreateAcceptedIff(subs: Subs, packages: map<Id, Package>, customers: set<Id>, user: Principal, customer: Id,
                          package: Id, id: Id, now: int)
    ensures match Create(subs, packages, customers, user, customer, package, id, now)
            case Err(e) =>
              if IsPlan(packages, user.tenant, package) then e == FOREIGN_KEY_VIOLATION && customer !in customers
              else e == VALIDATION_FAILED
            case Ok(subs') =>
              && IsPlan(packages, user.tenant, package) && customer in customers
              && subs' == subs[id := subs'[id]]
              && var s := subs'[id];
                 && s.tenant == user.tenant && s.customer == customer && s.package == package && s.status == RUNNING
                 && s.autoRenew && s.externalRef == None && s.createdAt == now
                 && IsPlanPrice(s.price, packages[package])
                 && s.interval == (match packages[package].config.interval case Some(i) => i case None => MONTHLY)
                 && s.periodEnd == Advance(now, s.interval)
  {
    if IsPlan(packages, user.tenant, package) {
      var row := Newest(packages[package].prices, (p: PriceRow) => p.validTo.None?);
      assert row.Some? ==> row.value in packages[package].prices && row.value.validTo.None?;
    }
  }

  /** A row that the provider bills takes the price it is given and the interval of the tenant's package, or a month. */
  lemma ExternalIs(packages: map<Id, Package>, tenant: Id, customer: Id, package: Id, externalRef: string, price: nat,
                   sale: Id, now: int)
    ensures var s := ExternalSub(packages, tenant, customer, package, externalRef, price, sale, now);
            && s.tenant == tenant && s.customer == customer && s.package == package && s.status == RUNNING
            && s.price == price && !s.autoRenew && s.externalRef == Some(externalRef) && s.createdAt == now
            && s.periodEnd == Advance(now, s.interval)
            && s.interval == if package in packages && packages[package].tenant == tenant
                                && packages[package].config.interval.Some? then packages[package].config.interval.value
                             else MONTHLY
  {
  }

  predicate IsPlan(packages: map<Id, Package>, tenant: Id, package: Id) {
    package in packages && packages[package].tenant == tenant && packages[package].kind == SUBSCRIPTION_PLAN
  }

  ghost predicate IsPlanPrice(price: nat, plan: Package) {
    if forall p :: p in plan.prices ==> p.validTo.Some? then price == 0
    else exists p :: p in plan.prices && p.validTo.None? && price == p.price
                     && forall q :: q in plan.prices && q.validTo.None? ==> q.validFrom <= p.validFrom
  }

  /** Any subscription of the tenant can be cancelled, and then it is cancelled and renews no more; no other row
      changes. */
  lemma CancelAcceptedIff(subs: Subs, user: Principal, id: Id)
    ensures match Cancel(subs, user, id)
            case Err(e) => e == NOT_FOUND && !(id in subs && subs[id].tenant == user.tenant)
            case Ok(subs') =>
              && id in subs && subs[id].tenant == user.tenant && subs'.Keys == subs.Keys
              && subs'[id] == subs[id].(status := CANCELLED_SUB, autoRenew := false)
              && forall k :: k in subs && k != id ==> subs'[k] == subs[k]
  {
  }

  /** A subscription that the payment provider bills: no sweep by anyone at any time charges or changes it. */
  lemma ExternalNeverCharged(subs: Subs, book: Book, tenant: Id, actor: Id, order: seq<Id>, now: int, k: Id)
    requires SubInv(subs, book.rows) && Replays(book) && Lists(order, Due(subs, tenant, now))
    requires k in subs && subs[k].externalRef.Some?
    ensures (forall id :: id in order ==> id in subs)
            && var w := Sweep(subs, book, tenant, actor, order);
               w.subs[k] == subs[k] && Charges(w.book, k) == 0
  {
    assert SubMatches(subs, book.rows, k);
    NonRenewingUntouched(subs, book, tenant, actor, order, now, k);
  }

  /** What no call changes of a stored row. */
  predicate SubKept(s: Sub, t: Sub) {
    t == s.(status := t.status, autoRenew := t.autoRenew, periodEnd := t.periodEnd)
  }

  ghost predicate SubsKept(subs: Subs, subs': Subs) {
    forall k :: k in subs ==> k in subs' && SubKept(subs[k], subs'[k])
  }

  lemma {:induction false} SweepKeepsRow(subs: Subs, book: Book, tenant: Id, actor: Id, order: seq<Id>, k: Id)
    requires k in subs && forall id :: id in order ==> id in subs
    ensures SubKept(subs[k], Sweep(subs, book, tenant, actor, order).subs[k])
  {
    if order == [] {
    } else {
      SweepKeepsRow(subs, book, tenant, actor, order[..|order| - 1], k);
    }
  }

  /** No call of this service forgets a row or adds one for a sale. */
  lemma ExecKeepsRows(packages: map<Id, Package>, customers: set<Id>, subs: Subs, b: Book, op: Op)
    requires Allowed(subs, op)
    requires op.SweepOp? ==> forall id :: id in op.order ==> id in subs
    ensures var subs' := Exec(packages, customers, subs, b, op).0;
            SubsKept(subs, subs') && forall k :: k in subs' && k !in subs ==> subs'[k].sale == None
  {
    match op
    case CreateOp(_, _, _, _, _) =>
    case SweepOp(tenant, actor, order, _) =>
      forall k | k in subs
        ensures SubKept(subs[k], Sweep(subs, b, tenant, actor, order).subs[k])
      {
        SweepKeepsRow(subs, b, tenant, actor, order, k);
      }
    case CancelOp(_, _, _) =>
  }

  /** What other services see of a sweep: more rows, all referring to subscriptions. */
  lemma {:induction false} SweepGrows(subs: Subs, book: Book, tenant: Id, actor: Id, order: seq<Id>)
    requires forall id :: id in order ==> id in subs
    ensures GrowsBy(book, Sweep(subs, book, tenant, actor, order).book, Subscription)
  {
    if order == [] {
    } else {
      var n := |order| - 1;
      var w := Sweep(subs, book, tenant, actor, order[..n]);
      SweepGrows(subs, book, tenant, actor, order[..n]);
      var d := ChargeFor(w.subs[order[n]], order[n], tenant, actor);
      if Apply(w.book, d).Ok? {
        ApplyContinues(w.book, d);
        GrowsTwice(book, w.book, Apply(w.book, d).value, Subscription);
      }
    }
  }

  ghost predicate Allowed(subs: Subs, op: Op) {
    match op
    case CreateOp(_, _, _, id, _) => id !in subs
    case SweepOp(tenant, _, order, now) => Lists(order, Due(subs, tenant, now))
    case CancelOp(_, _, _) => true
  }

  lemma DueListed(subs: Subs, tenant: Id, now: int, order: seq<Id>)
    requires Lists(order, Due(subs, tenant, now))
    ensures forall id :: id in order ==> id in subs && IsDue(subs[id], tenant, now)
  {
    assert forall id :: id in order ==> id in Due(subs, tenant, now);
  }

  /** Every call keeps the subscriptions' invariant, and adds only rows that refer to subscriptions. */
  lemma ExecKeeps(packages: map<Id, Package>, customers: set<Id>, subs: Subs, b: Book, op: Op)
    requires SubInv(subs, b.rows) && Replays(b) && Allowed(subs, op)
    requires op.SweepOp? ==> forall id :: id in op.order ==> id in subs
    ensures var (subs', b') := Exec(packages, customers, subs, b, op);
            SubInv(subs', b'.rows) && GrowsBy(b, b', Subscription)
  {
    match op
    case CreateOp(user, customer, package, id, now) =>
      var r := Create(subs, packages, customers, user, customer, package, id, now);
      if r.Ok? {
        PutSubKeeps(subs, b.rows, id, r.value[id]);
      }
    case SweepOp(tenant, actor, order, now) =>
      DueListed(subs, tenant, now, order);
      SweepKeeps(subs, b, tenant, actor, order);
      SweepGrows(subs, b, tenant, actor, order);
    case CancelOp(user, id, _) =>
      if id in subs {
        PutSubKeeps(subs, b.rows, id, subs[id].(status := CANCELLED_SUB, autoRenew := false));
      }
  }

  // ---- catching up ---------------------------------------------------------------------------------

  function Overdue(subs: Subs, tenant: Id, now: int, id: Id): int {
    if id in subs && IsDue(subs[id], tenant, now) then now + 1 - subs[id].periodEnd else 0
  }

  /** The total time by which the running, renewing subscriptions are behind. */
  ghost function TotalOverdue(subs: Subs, tenant: Id, now: int): int {
    SumOver(subs.Keys, id => Overdue(subs, tenant, now, id))
  }

  /** A sweep at clock `now`, whatever the balances and the order of the rows. */
  ghost predicate SweepStep(subs: Subs, subs': Subs, tenant: Id, now: int) {
    exists book: Book, actor: Id, order: seq<Id> ::
      Lists(order, Due(subs, tenant, now)) && (forall id :: id in order ==> id in subs)
      && subs' == Sweep(subs, book, tenant, actor, order).subs
  }

  lemma AdvanceGrows(t: int, interval: Interval)
    ensures Advance(t, interval) > t
  {
    AdvanceAddsDays(t, interval);
  }

  lemma SweepOneShrinks(w: Swept, tenant: Id, actor: Id, id: Id, now: int)
    requires id in w.subs && IsDue(w.subs[id], tenant, now)
    ensures Overdue(SweepOne(w, tenant, actor, id).subs, tenant, now, id) < Overdue(w.subs, tenant, now, id)
    ensures forall k :: k in w.subs && k != id ==> SweepOne(w, tenant, actor, id).subs[k] == w.subs[k]
  {
    AdvanceGrows(w.subs[id].periodEnd, w.subs[id].interval);
  }

  lemma {:induction false} SweepShrinks(subs: Subs, book: Book, tenant: Id, actor: Id, order: seq<Id>, now: int)
    requires forall i, j :: 0 <= i < j < |order| ==> order[i] != order[j]
    requires forall id :: id in order ==> id in subs && IsDue(subs[id], tenant, now)
    ensures var subs' := Sweep(subs, book, tenant, actor, order).subs;
            && (forall k :: k in subs && k !in order ==> subs'[k] == subs[k])
            && (forall k :: k in order ==> Overdue(subs', tenant, now, k) < Overdue(subs, tenant, now, k))
  {
    if order == [] {
    } else {
      var n := |order| - 1;
      var w := Sweep(subs, book, tenant, actor, order[..n]);
      var w' := SweepOne(w, tenant, actor, order[n]);
      SweepShrinks(subs, book, tenant, actor, order[..n], now);
      assert order[n] in order && order[n] !in order[..n];
      SweepOneShrinks(w, tenant, actor, order[n], now);
      assert order == order[..n] + [order[n]];
      forall k | k in order
        ensures Overdue(w'.subs, tenant, now, k) < Overdue(subs, tenant, now, k)
      {
        if k != order[n] {
          assert k in order[..n] && Overdue(w'.subs, tenant, now, k) == Overdue(w.subs, tenant, now, k);
        }
      }
    }
  }

  /** Every sweep that finds something due brings the total down. */
  lemma SweepReducesOverdue(subs: Subs, subs': Subs, tenant: Id, now: int)
    requires SweepStep(subs, subs', tenant, now)
    ensures 0 <= TotalOverdue(subs', tenant, now) <= TotalOverdue(subs, tenant, now)
    ensures Due(subs, tenant, now) != {} ==> TotalOverdue(subs', tenant, now) < TotalOverdue(subs, tenant, now)
  {
    var book: Book, actor: Id, order: seq<Id> :|
      Lists(order, Due(subs, tenant, now)) && (forall id :: id in order ==> id in subs)
      && subs' == Sweep(subs, book, tenant, actor, order).subs;
    assert forall id :: id in order ==> id in Due(subs, tenant, now);
    SweepShrinks(subs, book, tenant, actor, order, now);
    var f := id => Overdue(subs, tenant, now, id);
    var g := id => Overdue(subs', tenant, now, id);
    SumOverLess(subs.Keys, f, g);
    if Due(subs, tenant, now) != {} {
      var k :| k in Due(subs, tenant, now);
      assert k in order && g(k) < f(k);
    }
  }

  /** Catch-up ends: at a fixed clock there are no more sweeps with something due than the initial overdue time. */
  lemma {:induction false} CatchUpEnds(chain: seq<Subs>, tenant: Id, now: int)
    requires chain != []
    requires forall i :: 0 <= i < |chain| - 1 ==> SweepStep(chain[i], chain[i + 1], tenant, now)
    requires forall i :: 0 <= i < |chain| - 1 ==> Due(chain[i], tenant, now) != {}
    ensures |chain| - 1 <= TotalOverdue(chain[0], tenant, now)
  {
    if |chain| == 1 {
      SumOverLess(chain[0].Keys, id => Overdue(chain[0], tenant, now, id), id => 0);
    } else {
      var rest := chain[1..];
      forall i | 0 <= i < |rest| - 1
        ensures SweepStep(rest[i], rest[i + 1], tenant, now) && Due(rest[i], tenant, now) != {}
      {
        assert rest[i] == chain[i + 1];
      }
      CatchUpEnds(rest, tenant, now);
      SweepReducesOverdue(chain[0], chain[1], tenant, now);
    }
  }
}
