/** External card payments: prepare an open sale, then settle it from the provider's callback. */
module Payments {
  import opened Common
  import opened Ledger
  import opened Catalogue
  import opened Sales
  import Subscriptions

  type Subs = Subscriptions.Subs

  /** Number(body.Amount): text that is no number reads as NaN, and every comparison with NaN is false. */
  datatype JsNumber = NaN | Infinite | Finite(value: real)

  datatype CallbackBody = CallbackBody(token: string, transaction: Option<string>, keva: Option<string>,
                                       amount: JsNumber)

  /** The sale's id and its pending payment's id. */
  datatype Prepared = Prepared(shop: Shop, book: Book, sale: Id)

  function PrepareInput(branch: Id, customer: Option<Id>, lines: seq<LineInput>): SaleInput {
    SaleInput(branch, customer, None, lines, None, None)
  }

  /** `id`, `payment` and `token` are new ids. */
  function Prepare(setup: Setup, shop: Shop, b: Book, user: Principal, configured: bool, branch: Id,
                   customer: Option<Id>, lines: seq<LineInput>, id: Id, payment: Id, token: string, now: int)
    : Result<Prepared>
  {
    if !configured then Err(VALIDATION_FAILED) else
      var c :- CreateSale(setup, shop, b, user, PrepareInput(branch, customer, lines), None, id, payment, now);
      var total := if id in c.shop.sales then c.shop.sales[id].total else 0;
      var p := Payment(payment, user.tenant, id, CARD, PENDING_PAYMENT, total, None, None, Some(token));
      Ok(Prepared(c.shop.(payments := c.shop.payments + [p]), c.book, id))
  }

  function FindPending(payments: seq<Payment>, token: string): (i: nat)
    ensures i <= |payments|
    ensures i < |payments| ==> payments[i].reference == Some(token) && payments[i].status == PENDING_PAYMENT
    ensures forall j :: 0 <= j < i ==> !(payments[j].reference == Some(token)
                                         && payments[j].status == PENDING_PAYMENT)
  {
    FirstIndex(payments, (p: Payment) => p.reference == Some(token) && p.status == PENDING_PAYMENT)
  }

  /** Shekels against agorot: refused if they differ by more than an agora; text that is no number is not refused. */
  predicate Mismatch(setup: Setup, expected: int, amount: JsNumber) {
    match amount
    case NaN => false
    case Infinite => true
    case Finite(x) => setup.differs(expected, x)
  }

  function TransactionOf(body: CallbackBody): string {
    if body.transaction.Some? then body.transaction.value
    else if body.keva.Some? then body.keva.value else []
  }

  predicate IsPlanLine(packages: map<Id, Package>, tenant: Id, item: Item) {
    && item.ref.PackageRef? && item.ref.package in packages
    && packages[item.ref.package].tenant == tenant && packages[item.ref.package].kind == SUBSCRIPTION_PLAN
  }

  /** A standing order: one externally billed subscription per plan line; ids[i] is a new id for line i. */
  function AddStandingOrders(packages: map<Id, Package>, subs: Subs, tenant: Id, customer: Id, items: seq<Item>,
                             keva: string, price: nat, sale: Id, ids: seq<Id>, now: int): Subs
    requires |items| <= |ids|
  {
    if items == [] then subs else
      var n := |items| - 1;
      var subs' := AddStandingOrders(packages, subs, tenant, customer, items[..n], keva, price, sale, ids, now);
      if IsPlanLine(packages, tenant, items[n]) then
        subs'[ids[n] := Subscriptions.ExternalSub(packages, tenant, customer, items[n].ref.package, keva, price, sale,
                                                  now)]
      else subs'
  }

  datatype Settled = Settled(shop: Shop, book: Book, subs: Subs)

  /** The payments and sales that the callback relies on: each payment belongs to a sale, with a total to pay. */
  ghost predicate Linked(shop: Shop) {
    forall i :: 0 <= i < |shop.payments| ==> shop.payments[i].sale in shop.sales && shop.payments[i].amount >= 0
  }

  /** The callback answers OK to anything it cannot match, and then changes nothing. */
  function Callback(setup: Setup, shop: Shop, b: Book, subs: Subs, body: CallbackBody, ids: seq<Id>, newId: Id,
                    now: int): Result<Settled>
    requires Linked(shop)
    requires forall s :: s in shop.sales ==> |shop.sales[s].items| <= |ids|
  {
    var i := FindPending(shop.payments, body.token);
    if body.token == [] || TransactionOf(body) == [] || i == |shop.payments|
       || Mismatch(setup, shop.payments[i].amount, body.amount) then Ok(Settled(shop, b, subs))
    else
      var p := shop.payments[i];
      var sale := shop.sales[p.sale];
      var (shop', b') :- Settle(setup, shop, b, p.tenant, "system:nedarim", p.sale, CARD, TransactionOf(body),
                                Some(p.id), newId);
      if body.keva.None? || body.keva.value == [] || sale.customer.None? then Ok(Settled(shop', b', subs))
      else Ok(Settled(shop', b', AddStandingOrders(setup.catalog.packages, subs, p.tenant, sale.customer.value,
                                                   sale.items, body.keva.value, p.amount, p.sale, ids, now)))
  }

  function FindPayment(payments: seq<Payment>, id: Id, tenant: Id): (i: nat)
    ensures i <= |payments|
    ensures i < |payments| ==> payments[i].id == id && payments[i].tenant == tenant
  {
    FirstIndex(payments, (p: Payment) => p.id == id && p.tenant == tenant)
  }

  function DevSettle(setup: Setup, shop: Shop, b: Book, user: Principal, production: bool, payment: Id,
                     transaction: string, newId: Id): Result<(Shop, Book)>
  {
    var i := FindPayment(shop.payments, payment, user.tenant);
    if production then Err(FORBIDDEN)
    else if i == |shop.payments| then Err(NOT_FOUND)
    else Settle(setup, shop, b, user.tenant, user.employee, shop.payments[i].sale, CARD, transaction,
                Some(shop.payments[i].id), newId)
  }

  /** One call that touches the shop, with the new ids it draws. */
  datatype Op =
    | CreateOp(user: Principal, dto: SaleInput, key: Option<string>, id: Id, payment: Id, now: int)
    | PrepareOp(user: Principal, configured: bool, branch: Id, customer: Option<Id>, lines: seq<LineInput>, id: Id,
                payment: Id, token: string, now: int)
    | CallbackOp(body: CallbackBody, ids: seq<Id>, newId: Id, now: int)
    | DevSettleOp(user: Principal, production: bool, payment: Id, transaction: string, newId: Id, now: int)
    | RefundOp(user: Principal, mayRefund: bool, id: Id, amount: nat, now: int)

  function Try(setup: Setup, shop: Shop, b: Book, subs: Subs, op: Op): Result<Settled>
    requires Linked(shop)
    requires op.CallbackOp? ==> forall s :: s in shop.sales ==> |shop.sales[s].items| <= |op.ids|
  {
    match op
    case CreateOp(user, dto, key, id, payment, now) =>
      var c :- CreateSale(setup, shop, b, user, dto, key, id, payment, now);
      Ok(Settled(c.shop, c.book, subs))
    case PrepareOp(user, configured, branch, customer, lines, id, payment, token, now) =>
      var p :- Prepare(setup, shop, b, user, configured, branch, customer, lines, id, payment, token, now);
      Ok(Settled(p.shop, p.book, subs))
    case CallbackOp(body, ids, newId, now) => Callback(setup, shop, b, subs, body, ids, newId, now)
    case DevSettleOp(user, production, payment, transaction, newId, _) =>
      var (s, b') :- DevSettle(setup, shop, b, user, production, payment, transaction, newId);
      Ok(Settled(s, b', subs))
    case RefundOp(user, mayRefund, id, amount, _) =>
      var s :- RefundSale(shop, user, mayRefund, id, amount);
      Ok(Settled(s, b, subs))
  }

  function Exec(setup: Setup, shop: Shop, b: Book, subs: Subs, op: Op): Settled
    requires Linked(shop)
    requires op.CallbackOp? ==> forall s :: s in shop.sales ==> |shop.sales[s].items| <= |op.ids|
  {
    var r := Try(setup, shop, b, subs, op);
    if r.Ok? then r.value else Settled(shop, b, subs)
  }

  // ---- the service -----------------------------------------------------------------------------------------

  class PaymentsService {
    const sales: SalesService
    const subscriptions: Subscriptions.SubscriptionsService

    constructor (sales: SalesService, subscriptions: Subscriptions.SubscriptionsService)
      ensures this.sales == sales && this.subscriptions == subscriptions
    {
      this.sales, this.subscriptions := sales, subscriptions;
    }

    method PreparePayment(setup: Setup, user: Principal, configured: bool, branch: Id, customer: Option<Id>,
                          lines: seq<LineInput>, id: Id, payment: Id, token: string, now: int) returns (r: Result<Id>)
      modifies sales, sales.balances
      ensures match Prepare(setup, old(sales.Tables()), old(sales.balances.Contents()), user, configured, branch,
                            customer, lines, id, payment, token, now)
              case Ok(p) => r == Ok(p.sale) && sales.Tables() == p.shop && sales.balances.Contents() == p.book
              case Err(e) => r == Err(e) && sales.Tables() == old(sales.Tables())
                             && sales.balances.Contents() == old(sales.balances.Contents())
    {
      if !configured {
        return Err(VALIDATION_FAILED);
      }
      var sale :- sales.Create(setup, user, PrepareInput(branch, customer, lines), None, id, payment, now);
      var total := if id in sales.sales then sales.sales[id].total else 0;
      sales.payments := sales.payments
                        + [Payment(payment, user.tenant, id, CARD, PENDING_PAYMENT, total, None, None, Some(token))];
      r := Ok(sale);
    }

    method HandleCallback(setup: Setup, body: CallbackBody, ids: seq<Id>, newId: Id, now: int)
      returns (r: Result<()>)
      requires Linked(sales.Tables())
      requires forall s :: s in sales.sales ==> |sales.sales[s].items| <= |ids|
      modifies sales, sales.balances, subscriptions
      ensures match Callback(setup, old(sales.Tables()), old(sales.balances.Contents()), old(subscriptions.subs),
                             body, ids, newId, now)
              case Ok(s) => r == Ok(()) && sales.Tables() == s.shop && sales.balances.Contents() == s.book
                            && subscriptions.subs == s.subs
              case Err(e) => r == Err(e) && sales.Tables() == old(sales.Tables())
                             && sales.balances.Contents() == old(sales.balances.Contents())
                             && subscriptions.subs == old(subscriptions.subs)
    {
      var transaction := TransactionOf(body);
      if body.token == [] || transaction == [] {
        return Ok(());
      }
      var i := FindPending(sales.payments, body.token);
      if i == |sales.payments| {
        return Ok(());
      }
      var payment := sales.payments[i];
      if Mismatch(setup, payment.amount, body.amount) {
        return Ok(());
      }
      var sale := sales.sales[payment.sale];
      var _ :- sales.SettleSale(setup, payment.tenant, "system:nedarim", payment.sale, CARD, transaction,
                                Some(payment.id), newId);
      if body.keva.Some? && body.keva.value != [] && sale.customer.Some? {
        RecordStandingOrders(setup.catalog.packages, payment.tenant, sale.customer.value, sale.items, body.keva.value,
                             payment.amount, payment.sale, ids, now);
      }
      r := Ok(());
    }

    method RecordStandingOrders(packages: map<Id, Package>, tenant: Id, customer: Id, items: seq<Item>, keva: string,
                                price: nat, sale: Id, ids: seq<Id>, now: int)
      requires |items| <= |ids|
      modifies subscriptions
      ensures subscriptions.subs == AddStandingOrders(packages, old(subscriptions.subs), tenant,
                                                      customer, items, keva, price, sale, ids, now)
    {
      ghost var before := subscriptions.subs;
      for i := 0 to |items|
        invariant subscriptions.subs
                  == AddStandingOrders(packages, before, tenant, customer, items[..i], keva, price, sale, ids, now)
      {
        assert items[..i + 1][..i] == items[..i];
        if IsPlanLine(packages, tenant, items[i]) {
          subscriptions.CreateExternal(packages, tenant, customer, items[i].ref.package, keva, price, sale, ids[i],
                                       now);
        }
      }
      assert items[..|items|] == items;
    }

    method DevSettlePayment(setup: Setup, user: Principal, production: bool, payment: Id, transaction: string,
                            newId: Id) returns (r: Result<()>)
      modifies sales, sales.balances
      ensures match DevSettle(setup, old(sales.Tables()), old(sales.balances.Contents()), user, production,
                              payment, transaction, newId)
              case Ok((s, b)) => r == Ok(()) && sales.Tables() == s && sales.balances.Contents() == b
              case Err(e) => r == Err(e) && sales.Tables() == old(sales.Tables())
                             && sales.balances.Contents() == old(sales.balances.Contents())
    {
      if production {
        return Err(FORBIDDEN);
      }
      var i := FindPayment(sales.payments, payment, user.tenant);
      if i == |sales.payments| {
        return Err(NOT_FOUND);
      }
      r := sales.SettleSale(setup, user.tenant, user.employee, sales.payments[i].sale, CARD, transaction,
                            Some(sales.payments[i].id), newId);
    }
  }
}
