/** Standing orders: which settlements record externally billed subscriptions, how many, and that they do so once. */
module Orders {
  import opened Common
  import opened Ledger
  import opened Catalogue
  import opened Sales
  import opened SaleProofs
  import opened Payments
  import opened PaymentProofs
  import Subscriptions

  /** The subscriptions to one plan that the settlement of one sale recorded. */
  function OrdersFor(subs: Subs, sale: Id, package: Id): set<Id> {
    set k | k in subs && subs[k].sale == Some(sale) && subs[k].package == package
  }

  ghost predicate NoOrders(subs: Subs, sale: Id) {
    forall k :: k in subs ==> subs[k].sale != Some(sale)
  }

  /** Every subscription recorded for the sale is the customer's, at the sale's total, with that order's number. */
  ghost predicate OrdersOk(subs: Subs, sale: Id, s: SaleRow, keva: string) {
    forall k :: k in subs && subs[k].sale == Some(sale) ==> OrderOk(subs[k], s, keva)
  }

  predicate OrderOk(o: Subscriptions.Sub, s: SaleRow, keva: string) {
    o.tenant == s.tenant && Some(o.customer) == s.customer && o.externalRef == Some(keva) && o.price == s.total
  }

  /** The plan lines of a sale for one package. */
  function PlanLines(packages: map<Id, Package>, tenant: Id, items: seq<Item>, package: Id): nat {
    if items == [] then 0 else
      var n := |items| - 1;
      PlanLines(packages, tenant, items[..n], package)
      + if items[n].ref == PackageRef(package) && package in packages && packages[package].tenant == tenant
           && packages[package].kind == SUBSCRIPTION_PLAN then 1 else 0
  }

  /** Packages added later change no line that was sold before. */
  lemma {:induction false} PlanLinesLater(before: map<Id, Package>, after: map<Id, Package>, tenant: Id,
                                          items: seq<Item>, package: Id)
    requires RefsKnown(before, items)
    requires forall k :: k in before ==> k in after && after[k] == before[k]
    ensures PlanLines(after, tenant, items, package) == PlanLines(before, tenant, items, package)
  {
    if items == [] {
    } else {
      PlanLinesLater(before, after, tenant, items[..|items| - 1], package);
    }
  }

  lemma OrderAdded(subs: Subs, id: Id, o: Subscriptions.Sub, sale: Id, package: Id)
    requires id !in subs && o.sale == Some(sale)
    ensures |OrdersFor(subs[id := o], sale, package)|
            == |OrdersFor(subs, sale, package)| + if o.package == package then 1 else 0
  {
    var had, has := OrdersFor(subs, sale, package), OrdersFor(subs[id := o], sale, package);
    if o.package == package {
      assert has == had + {id};
    } else {
      assert has == had;
    }
  }

  lemma OrderElsewhere(subs: Subs, id: Id, o: Subscriptions.Sub, other: Id, package: Id)
    requires id !in subs && o.sale != Some(other)
    ensures OrdersFor(subs[id := o], other, package) == OrdersFor(subs, other, package)
  {
  }

  /** What has been recorded for one sale, against the rows before. */
  ghost predicate Recorded(subs: Subs, subs': Subs, s: SaleRow, keva: string, sale: Id) {
    && (forall k :: k in subs ==> k in subs' && subs'[k] == subs[k])
    && (forall k :: k in subs' && k !in subs ==> subs'[k].sale == Some(sale) && OrderOk(subs'[k], s, keva))
  }

  lemma OneRecorded(subs: Subs, before: Subs, id: Id, o: Subscriptions.Sub, s: SaleRow, keva: string, sale: Id)
    requires Recorded(subs, before, s, keva, sale) && id !in before && o.sale == Some(sale) && OrderOk(o, s, keva)
    ensures Recorded(subs, before[id := o], s, keva, sale)
  {
  }

  /** What a standing order leaves: the old rows, and one new row for each plan line. */
  lemma {:induction false} OrdersAdded(packages: map<Id, Package>, subs: Subs, s: SaleRow, items: seq<Item>, c: Id,
                                       keva: string, price: nat, sale: Id, ids: seq<Id>, now: int, other: Id,
                                       package: Id)
    requires |items| <= |ids| && NewIds(subs, ids) && s.customer == Some(c) && price == s.total
    ensures var subs' := AddStandingOrders(packages, subs, s.tenant, c, items, keva, price, sale, ids, now);
            && Recorded(subs, subs', s, keva, sale)
            && (forall k :: k in subs' ==> k in subs || k in ids[..|items|])
            && |OrdersFor(subs', sale, package)|
               == |OrdersFor(subs, sale, package)| + PlanLines(packages, s.tenant, items, package)
            && (other != sale ==> OrdersFor(subs', other, package) == OrdersFor(subs, other, package))
  {
    if items == [] {
    } else {
      var n := |items| - 1;
      var before := AddStandingOrders(packages, subs, s.tenant, c, items[..n], keva, price, sale, ids, now);
      OrdersAdded(packages, subs, s, items[..n], c, keva, price, sale, ids, now, other, package);
      assert ids[n] !in before by {
        assert ids[n] !in ids[..n];
      }
      if IsPlanLine(packages, s.tenant, items[n]) {
        var o := Subscriptions.ExternalSub(packages, s.tenant, c, items[n].ref.package, keva, price, sale, now);
        OneRecorded(subs, before, ids[n], o, s, keva, sale);
        OrderAdded(before, ids[n], o, sale, package);
        if other != sale {
          OrderElsewhere(before, ids[n], o, other, package);
        }
      }
      assert ids[..|items|] == ids[..n] + [ids[n]];
    }
  }

  /** The calls that record a standing order for the sale: the callback that settles it names one, and it has a
      customer. */
  ghost predicate Names(setup: Setup, shop: Shop, b: Book, subs: Subs, op: Op, id: Id)
    requires Linked(shop) && Allowed(shop, subs, op)
  {
    && op.CallbackOp? && Try(setup, shop, b, subs, op).Ok?
    && op.body.keva.Some? && op.body.keva.value != []
    && var i := FindPending(shop.payments, op.body.token);
       && CallbackSettles(setup, shop, op.body, i) && shop.payments[i].sale == id && shop.sales[id].customer.Some?
  }

  /** Only open sales are settled, so a completed sale's callbacks record nothing. */
  lemma CompletedNamesNothing(setup: Setup, shop: Shop, b: Book, subs: Subs, op: Op, id: Id)
    requires ShopInv(setup, shop, b.rows) && Linked(shop) && Allowed(shop, subs, op)
    requires id in shop.sales && shop.sales[id].status == COMPLETED
    ensures !Names(setup, shop, b, subs, op, id)
  {
    if op.CallbackOp? {
      var i := FindPending(shop.payments, op.body.token);
      assert i < |shop.payments| ==> PaymentOk(shop, shop.payments[i]);
    }
  }

  /** What a callback does to the subscriptions. */
  lemma CallbackSubs(setup: Setup, shop: Shop, b: Book, subs: Subs, op: Op)
    requires ShopInv(setup, shop, b.rows) && Linked(shop) && Allowed(shop, subs, op) && op.CallbackOp?
    requires Try(setup, shop, b, subs, op).Ok?
    ensures var i := FindPending(shop.payments, op.body.token);
            var subs' := Exec(setup, shop, b, subs, op).subs;
            if CallbackSettles(setup, shop, op.body, i) && Names(setup, shop, b, subs, op, shop.payments[i].sale) then
              var p := shop.payments[i];
              var s := shop.sales[p.sale];
              && p.tenant == s.tenant && s.status == OPEN && p.amount == s.total
              && subs' == AddStandingOrders(setup.catalog.packages, subs, s.tenant, s.customer.value, s.items,
                                            op.body.keva.value, p.amount, p.sale, op.ids, op.now)
            else subs' == subs
  {
    var i := FindPending(shop.payments, op.body.token);
    if CallbackSettles(setup, shop, op.body, i) {
      assert PaymentOk(shop, shop.payments[i]);
      assert SaleMatches(setup, shop, b.rows, shop.payments[i].sale);
    }
  }

  /** A call that names a standing order for the sale completes it and records one subscription per plan line; any
      other call leaves the sale's subscriptions alone. */
  lemma ExecOrders(setup: Setup, shop: Shop, b: Book, subs: Subs, op: Op, id: Id, package: Id)
    requires ShopInv(setup, shop, b.rows) && Linked(shop) && Allowed(shop, subs, op)
    ensures var subs' := Exec(setup, shop, b, subs, op).subs;
            && (forall k :: k in subs ==> k in subs' && subs'[k] == subs[k])
            && if Names(setup, shop, b, subs, op, id) then
                 && id in shop.sales
                 && |OrdersFor(subs', id, package)| == |OrdersFor(subs, id, package)|
                    + PlanLines(setup.catalog.packages, shop.sales[id].tenant, shop.sales[id].items, package)
                 && (NoOrders(subs, id) ==> OrdersOk(subs', id, shop.sales[id], op.body.keva.value))
               else
                 && OrdersFor(subs', id, package) == OrdersFor(subs, id, package)
                 && (forall k :: k in subs' && k !in subs ==> subs'[k].sale != Some(id))
  {
    if op.CallbackOp? && Try(setup, shop, b, subs, op).Ok? {
      CallbackSubs(setup, shop, b, subs, op);
      var i := FindPending(shop.payments, op.body.token);
      if CallbackSettles(setup, shop, op.body, i) && Names(setup, shop, b, subs, op, shop.payments[i].sale) {
        var p := shop.payments[i];
        var s := shop.sales[p.sale];
        OrdersAdded(setup.catalog.packages, subs, s, s.items, s.customer.value, op.body.keva.value, p.amount, p.sale,
                    op.ids, op.now, id, package);
      }
    }
  }

  /** After such a call the sale is completed. */
  lemma NamedIsCompleted(setup: Setup, shop: Shop, b: Book, subs: Subs, op: Op, id: Id)
    requires ShopInv(setup, shop, b.rows) && Linked(shop) && Allowed(shop, subs, op)
    requires Names(setup, shop, b, subs, op, id)
    ensures var shop' := Exec(setup, shop, b, subs, op).shop;
            id in shop.sales && id in shop'.sales && shop'.sales[id] == shop.sales[id].(status := COMPLETED)
  {
    CallbackKeeps(setup, shop, b, subs, op.body, op.ids, op.newId, op.now);
    CallbackKeepsTables(setup, shop, b, subs, op.body, op.ids, op.newId, op.now);
  }

  // ---- later calls of the other services ---------------------------------------------------------------

  /** Rows that keep their identity, and new rows for no sale, leave every sale's subscriptions as they are. */
  lemma KeptOrders(subs: Subs, subs': Subs, id: Id, package: Id)
    requires Subscriptions.SubsKept(subs, subs')
    requires forall k :: k in subs' && k !in subs ==> subs'[k].sale != Some(id)
    ensures OrdersFor(subs', id, package) == OrdersFor(subs, id, package)
    ensures NoOrders(subs, id) ==> NoOrders(subs', id)
    ensures forall s, keva :: OrdersOk(subs, id, s, keva) ==> OrdersOk(subs', id, s, keva)
  {
    forall k | k in subs
      ensures k in subs' && Subscriptions.SubKept(subs[k], subs'[k])
    {
    }
    forall s, keva | OrdersOk(subs, id, s, keva)
      ensures OrdersOk(subs', id, s, keva)
    {
      forall k | k in subs' && subs'[k].sale == Some(id)
        ensures OrderOk(subs'[k], s, keva)
      {
        assert k in subs && OrderOk(subs[k], s, keva);
      }
    }
  }

  /** The sale's subscriptions, their number and their standing order, are as they were. */
  ghost predicate SameOrders(subs: Subs, subs': Subs, id: Id, package: Id) {
    && OrdersFor(subs', id, package) == OrdersFor(subs, id, package)
    && (NoOrders(subs, id) ==> NoOrders(subs', id))
    && (forall s, keva :: OrdersOk(subs, id, s, keva) ==> OrdersOk(subs', id, s, keva))
  }

  lemma ExecKeepsOrders(setup: Setup, shop: Shop, b: Book, subs: Subs, op: Op, id: Id, package: Id)
    requires ShopInv(setup, shop, b.rows) && Linked(shop) && Allowed(shop, subs, op)
    requires !Names(setup, shop, b, subs, op, id)
    ensures SameOrders(subs, Exec(setup, shop, b, subs, op).subs, id, package)
  {
    ExecOrders(setup, shop, b, subs, op, id, package);
    KeptOrders(subs, Exec(setup, shop, b, subs, op).subs, id, package);
  }

  lemma SubscriptionCallKeepsOrders(packages: map<Id, Package>, customers: set<Id>, subs: Subs, b: Book,
                                    op: Subscriptions.Op, id: Id, package: Id)
    requires Subscriptions.Allowed(subs, op)
    requires op.SweepOp? ==> forall k :: k in op.order ==> k in subs
    ensures SameOrders(subs, Subscriptions.Exec(packages, customers, subs, b, op).0, id, package)
  {
    Subscriptions.ExecKeepsRows(packages, customers, subs, b, op);
    KeptOrders(subs, Subscriptions.Exec(packages, customers, subs, b, op).0, id, package);
  }
}
