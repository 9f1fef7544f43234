/** When preparing, settling and dev settling are accepted, and what a prepared sale is. */
module PaymentCalls {
  import opened Common
  import opened Ledger
  import opened Catalogue
  import opened Sales
  import opened SaleProofs
  import opened Payments
  import opened PaymentProofs
  import Carts

  /** The answer to a preparation of the cart: refused if the provider is not configured or the cart is; otherwise an
      open sale of the cart and one pending card payment of exactly its total, found by the token, and nothing else. */
  ghost predicate PreparedFrom(setup: Setup, shop: Shop, b: Book, user: Principal, configured: bool, dto: SaleInput,
                               id: Id, payment: Id, token: string, now: int, r: Result<Prepared>)
  {
    match r
    case Err(e) => if !configured then e == VALIDATION_FAILED else Carts.Reason(setup, shop, user, dto, None, now, e)
    case Ok(p) =>
      && configured && p.sale == id && p.book == b && Carts.Passed(setup, shop, user, dto, None, now)
      && id in p.shop.sales && p.shop.sales == shop.sales[id := p.shop.sales[id]]
      && Carts.IsSaleOf(setup, shop, user, dto, now, p.shop.sales[id]) && p.shop.sales[id].status == OPEN
      && |p.shop.payments| == |shop.payments| + 1 && p.shop.payments[..|shop.payments|] == shop.payments
      && IsAwaited(p.shop.payments[|shop.payments|], payment, user.tenant, id, p.shop.sales[id].total, token)
  }

  lemma PreparedIs(setup: Setup, shop: Shop, b: Book, user: Principal, configured: bool, branch: Id,
                   customer: Option<Id>, lines: seq<LineInput>, id: Id, payment: Id, token: string, now: int)
    requires Replays(b)
    ensures var dto := SaleInput(branch, customer, None, lines, None, None);
            PreparedFrom(setup, shop, b, user, configured, dto, id, payment, token, now,
                         Prepare(setup, shop, b, user, configured, branch, customer, lines, id, payment, token, now))
  {
    var dto := SaleInput(branch, customer, None, lines, None, None);
    if configured {
      if CreateSale(setup, shop, b, user, dto, None, id, payment, now).Ok? {
        Carts.AcceptedSale(setup, shop, b, user, dto, None, id, payment, now);
      } else {
        Carts.RefusedSale(setup, shop, b, user, dto, None, id, payment, now);
      }
    }
  }

  predicate IsAwaited(p: Payment, id: Id, tenant: Id, sale: Id, total: int, token: string) {
    && p.id == id && p.tenant == tenant && p.sale == sale && p.how == CARD && p.status == PENDING_PAYMENT
    && p.amount == total && p.pspToken == None && p.key == None && p.reference == Some(token)
  }

  /** A settlement is refused for another tenant's or no sale, and otherwise only if a package takes more than the
      balance has; a completed sale is left alone, an open one is completed. */
  lemma SettleAcceptedIff(setup: Setup, shop: Shop, b: Book, tenant: Id, actor: Id, id: Id, how: Method,
                          transaction: string, payment: Option<Id>, newId: Id)
    requires Replays(b)
    ensures match Settle(setup, shop, b, tenant, actor, id, how, transaction, payment, newId)
            case Err(e) =>
              if !(id in shop.sales && shop.sales[id].tenant == tenant) then e == NOT_FOUND
              else e == INSUFFICIENT_BALANCE && shop.sales[id].customer.Some? && shop.sales[id].status != COMPLETED
            case Ok((shop', b')) =>
              && id in shop.sales && shop.sales[id].tenant == tenant
              && if shop.sales[id].status == COMPLETED then shop' == shop && b' == b
                 else shop'.sales == shop.sales[id := shop.sales[id].(status := COMPLETED)]
                      && (shop.sales[id].customer == None ==>
                            b' == b && shop' == shop.(sales := shop'.sales, payments := shop'.payments))
  {
    if id in shop.sales && shop.sales[id].customer.Some? {
      Carts.ItemsFailOnlyNegative(b, shop.owned, Grant(tenant, actor, shop.sales[id].customer.value, id),
                                  Lookup(setup.catalog, tenant, shop.sales[id].items));
    }
  }

  /** Outside production, a payment of the tenant, and then as a settlement of its sale by card with that payment. */
  lemma DevSettleAcceptedIff(setup: Setup, shop: Shop, b: Book, user: Principal, production: bool, payment: Id,
                             transaction: string, newId: Id)
    requires forall i, j :: 0 <= i < j < |shop.payments| ==> shop.payments[i].id != shop.payments[j].id
    ensures var r := DevSettle(setup, shop, b, user, production, payment, transaction, newId);
            && (production ==> r == Err(FORBIDDEN))
            && (!production && (forall i :: 0 <= i < |shop.payments| ==>
                                  !(shop.payments[i].id == payment && shop.payments[i].tenant == user.tenant)) ==>
                  r == Err(NOT_FOUND))
            && (forall i :: 0 <= i < |shop.payments| && shop.payments[i].id == payment
                            && shop.payments[i].tenant == user.tenant && !production ==>
                  r == Settle(setup, shop, b, user.tenant, user.employee, shop.payments[i].sale, CARD, transaction,
                              Some(payment), newId))
  {
    var f := (p: Payment) => p.id == payment && p.tenant == user.tenant;
    var n := FindPayment(shop.payments, payment, user.tenant);
    forall i | 0 <= i < |shop.payments| && shop.payments[i].id == payment && shop.payments[i].tenant == user.tenant
      ensures i == n
    {
      assert f(shop.payments[i]);
    }
  }

  /** The package a stored line delivers: the tenant's, if it still exists. */
  lemma LookupFinds(cat: Catalog, tenant: Id, items: seq<Item>, i: nat)
    requires i < |items|
    ensures var l := Lookup(cat, tenant, items)[i];
            && l.item == items[i]
            && (l.pkg.Some? <==> items[i].ref.PackageRef? && items[i].ref.package in cat.packages
                                 && cat.packages[items[i].ref.package].tenant == tenant
                                 && !cat.packages[items[i].ref.package].deleted)
            && (l.pkg.Some? ==> l.pkg.value == cat.packages[items[i].ref.package])
  {
  }
}
