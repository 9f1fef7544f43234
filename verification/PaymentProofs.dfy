/** Exactly-once settlement, repeatable callbacks and keys, and the equality of the two payment paths. */
module PaymentProofs {
  import opened Common
  import opened Ledger
  import opened Catalogue
  import opened Sales
  import opened SaleProofs
  import opened Payments
  import Subscriptions

  // ---- exactly one completed payment ---------------------------------------------------------------------

  function PaidCount(payments: seq<Payment>, id: Id): nat {
    if payments == [] then 0 else
      var last := payments[|payments| - 1];
      PaidCount(payments[..|payments| - 1], id) + if last.sale == id && last.status == PAID then 1 else 0
  }

  lemma {:induction false} PaidCountZero(payments: seq<Payment>, id: Id)
    requires forall i :: 0 <= i < |payments| ==> !(payments[i].sale == id && payments[i].status == PAID)
    ensures PaidCount(payments, id) == 0
  {
    if payments == [] {
    } else {
      PaidCountZero(payments[..|payments| - 1], id);
    }
  }

  lemma {:induction false} PaidCountOne(payments: seq<Payment>, id: Id, i: nat)
    requires i < |payments| && payments[i].sale == id && payments[i].status == PAID
    requires forall j :: 0 <= j < |payments| && j != i ==> payments[j].sale != id
    ensures PaidCount(payments, id) == 1
  {
    var n := |payments| - 1;
    if i == n {
      PaidCountZero(payments[..n], id);
    } else {
      PaidCountOne(payments[..n], id, i);
    }
  }

  /** A sale is completed if and only if it has exactly one completed payment; otherwise it has none. */
  lemma CompletedIffPaidOnce(setup: Setup, shop: Shop, rows: seq<Row>, id: Id)
    requires ShopInv(setup, shop, rows) && id in shop.sales
    ensures shop.sales[id].status == COMPLETED <==> PaidCount(shop.payments, id) == 1
    ensures shop.sales[id].status == OPEN <==> PaidCount(shop.payments, id) == 0
  {
    assert SaleMatches(setup, shop, rows, id);
    if shop.sales[id].status == COMPLETED {
      assert HasPaid(shop, id);
      var i :| 0 <= i < |shop.payments| && shop.payments[i].sale == id && shop.payments[i].status == PAID;
      forall j | 0 <= j < |shop.payments| && j != i
        ensures shop.payments[j].sale != id
      {
        OnePaymentEach(shop, i, j);
      }
      PaidCountOne(shop.payments, id, i);
    } else {
      forall i | 0 <= i < |shop.payments|
        ensures !(shop.payments[i].sale == id && shop.payments[i].status == PAID)
      {
        assert PaymentOk(shop, shop.payments[i]);
      }
      PaidCountZero(shop.payments, id);
    }
  }

  // ---- prepare, callback, dev settle keep the invariant ----------------------------------------------------

  ghost predicate NewToken(shop: Shop, token: string) {
    forall i :: 0 <= i < |shop.payments| ==> shop.payments[i].reference != Some(token)
  }

  lemma PrepareKeeps(setup: Setup, shop: Shop, b: Book, user: Principal, configured: bool, branch: Id,
                     customer: Option<Id>, lines: seq<LineInput>, id: Id, payment: Id, token: string, now: int)
    requires ShopInv(setup, shop, b.rows) && id !in shop.sales && NewPaymentId(shop, payment) && NewToken(shop, token)
    requires Prepare(setup, shop, b, user, configured, branch, customer, lines, id, payment, token, now).Ok?
    ensures var p := Prepare(setup, shop, b, user, configured, branch, customer, lines, id, payment, token, now).value;
            && ShopInv(setup, p.shop, p.book.rows) && p.book == b
            && id in p.shop.sales && p.shop.sales[id].status == OPEN
  {
    var dto := PrepareInput(branch, customer, lines);
    var p := Prepare(setup, shop, b, user, configured, branch, customer, lines, id, payment, token, now).value;
    var c := CreateSale(setup, shop, b, user, dto, None, id, payment, now).value;
    CreateKeeps(setup, shop, b, user, dto, None, id, payment, now);
    assert SaleMatches(setup, c.shop, c.book.rows, id);
    AddPaymentKeeps(shop, p.shop, id, c.shop.sales[id], Some(p.shop.payments[|shop.payments|]));
    SamePaymentsElsewhere(setup, c.shop, p.shop, b.rows);
  }

  /** The rest of the invariant does not look at payments. */
  lemma SamePaymentsElsewhere(setup: Setup, shop: Shop, shop': Shop, rows: seq<Row>)
    requires ShopInv(setup, shop, rows) && PaymentsOk(shop')
    requires shop' == shop.(payments := shop'.payments, refunds := shop'.refunds)
    ensures ShopInv(setup, shop', rows)
  {
    forall id
      ensures SaleMatches(setup, shop', rows, id)
    {
      assert SaleMatches(setup, shop, rows, id);
    }
    forall c
      ensures LoyaltyOf(shop'.loyalty, c) == SumOver(shop'.sales.Keys, k => PointsFrom(shop', c, k))
    {
      SumOverSame(shop.sales.Keys, k => PointsFrom(shop, c, k), k => PointsFrom(shop', c, k));
    }
    forall c, p
      ensures OwnedCount(shop'.owned, c, p) == SumOver(shop'.sales.Keys, k => LinesFrom(setup, shop', c, p, k))
    {
      SumOverSame(shop.sales.Keys, k => LinesFrom(setup, shop, c, p, k), k => LinesFrom(setup, shop', c, p, k));
    }
  }

  lemma RefundKeeps(setup: Setup, shop: Shop, rows: seq<Row>, user: Principal, mayRefund: bool, id: Id, amount: nat)
    requires ShopInv(setup, shop, rows) && RefundSale(shop, user, mayRefund, id, amount).Ok?
    ensures ShopInv(setup, RefundSale(shop, user, mayRefund, id, amount).value, rows)
  {
    var shop' := RefundSale(shop, user, mayRefund, id, amount).value;
    forall k | k in shop'.sales && shop'.sales[k].status == COMPLETED
      ensures HasPaid(shop', k)
    {
      assert HasPaid(shop, k);
    }
    assert forall i :: 0 <= i < |shop.payments| && PaymentOk(shop, shop.payments[i])
                       ==> PaymentOk(shop', shop.payments[i]);
    SamePaymentsElsewhere(setup, shop, shop', rows);
  }

  /** The callback settles one open sale with its own pending payment, or changes nothing. */
  ghost predicate CallbackSettles(setup: Setup, shop: Shop, body: CallbackBody, i: nat) {
    && i < |shop.payments| && body.token != [] && TransactionOf(body) != []
    && shop.payments[i].reference == Some(body.token) && shop.payments[i].status == PENDING_PAYMENT
    && !Mismatch(setup, shop.payments[i].amount, body.amount)
  }

  lemma LinkedFromInv(setup: Setup, shop: Shop, rows: seq<Row>)
    requires ShopInv(setup, shop, rows)
    ensures Linked(shop)
  {
    forall i | 0 <= i < |shop.payments|
      ensures shop.payments[i].sale in shop.sales && shop.payments[i].amount >= 0
    {
      assert PaymentOk(shop, shop.payments[i]);
    }
  }

  lemma CallbackKeeps(setup: Setup, shop: Shop, b: Book, subs: Subs, body: CallbackBody, ids: seq<Id>, newId: Id,
                      now: int)
    requires ShopInv(setup, shop, b.rows) && NewPaymentId(shop, newId) && Linked(shop)
    requires forall s :: s in shop.sales ==> |shop.sales[s].items| <= |ids|
    requires Callback(setup, shop, b, subs, body, ids, newId, now).Ok?
    ensures var s := Callback(setup, shop, b, subs, body, ids, newId, now).value;
            var i := FindPending(shop.payments, body.token);
            && ShopInv(setup, s.shop, s.book.rows)
            && if CallbackSettles(setup, shop, body, i) then
                 && Continues(b, s.book, Sale, shop.payments[i].sale)
                 && shop.sales[shop.payments[i].sale].status == OPEN
                 && shop.payments[i].sale in s.shop.sales && s.shop.sales[shop.payments[i].sale].status == COMPLETED
               else s == Settled(shop, b, subs)
  {
    var i := FindPending(shop.payments, body.token);
    if CallbackSettles(setup, shop, body, i) {
      var p := shop.payments[i];
      assert PaymentOk(shop, p) && SaleMatches(setup, shop, b.rows, p.sale);
      SettleKeeps(setup, shop, b, p.tenant, "system:nedarim", p.sale, CARD, TransactionOf(body), Some(p.id), newId);
    }
  }

  lemma DevSettleKeeps(setup: Setup, shop: Shop, b: Book, user: Principal, production: bool, payment: Id,
                       transaction: string, newId: Id)
    requires ShopInv(setup, shop, b.rows) && NewPaymentId(shop, newId)
    requires DevSettle(setup, shop, b, user, production, payment, transaction, newId).Ok?
    ensures var (shop', b') := DevSettle(setup, shop, b, user, production, payment, transaction, newId).value;
            && ShopInv(setup, shop', b'.rows)
            && Continues(b, b', Sale, shop.payments[FindPayment(shop.payments, payment, user.tenant)].sale)
  {
    var p := shop.payments[FindPayment(shop.payments, payment, user.tenant)];
    SettleKeeps(setup, shop, b, user.tenant, user.employee, p.sale, CARD, transaction, Some(p.id), newId);
  }

  // ---- every call --------------------------------------------------------------------------------------------

  ghost predicate NewIds(subs: Subs, ids: seq<Id>) {
    && (forall i :: 0 <= i < |ids| ==> ids[i] !in subs)
    && (forall i, j :: 0 <= i < j < |ids| ==> ids[i] != ids[j])
  }

  /** New ids are new, and there are enough of them. */
  ghost predicate Allowed(shop: Shop, subs: Subs, op: Op) {
    match op
    case CreateOp(_, _, _, id, payment, _) => id !in shop.sales && NewPaymentId(shop, payment)
    case PrepareOp(_, _, _, _, _, id, payment, token, _) =>
      id !in shop.sales && NewPaymentId(shop, payment) && NewToken(shop, token)
    case CallbackOp(_, ids, newId, _) =>
      && NewPaymentId(shop, newId) && NewIds(subs, ids)
      && forall s :: s in shop.sales ==> |shop.sales[s].items| <= |ids|
    case DevSettleOp(_, _, _, _, newId, _) => NewPaymentId(shop, newId)
    case RefundOp(_, _, _, _, _) => true
  }

  lemma {:induction false} StandingOrdersKeep(packages: map<Id, Package>, subs: Subs, tenant: Id, customer: Id,
                                              items: seq<Item>, keva: string, price: nat, sale: Id, ids: seq<Id>,
                                              now: int, rows: seq<Row>)
    requires |items| <= |ids| && NewIds(subs, ids) && Subscriptions.SubInv(subs, rows)
    ensures var subs' := AddStandingOrders(packages, subs, tenant, customer, items, keva, price, sale, ids, now);
            && Subscriptions.SubInv(subs', rows)
            && forall k :: k in subs' && k !in subs ==> exists i :: 0 <= i < |items| && ids[i] == k
  {
    if items == [] {
    } else {
      var n := |items| - 1;
      StandingOrdersKeep(packages, subs, tenant, customer, items[..n], keva, price, sale, ids, now, rows);
      if IsPlanLine(packages, tenant, items[n]) {
        var before := AddStandingOrders(packages, subs, tenant, customer, items[..n], keva, price, sale, ids, now);
        assert ids[n] !in before;
        var added := Subscriptions.ExternalSub(packages, tenant, customer, items[n].ref.package, keva, price, sale,
                                               now);
        Subscriptions.PutSubKeeps(before, rows, ids[n], added);
        assert forall k :: k in before[ids[n] := added] ==> k in before || k == ids[n];
      }
    }
  }

  /** A callback changes subscriptions only together with the one completion of its sale. */
  lemma CallbackSubsKeep(setup: Setup, shop: Shop, b: Book, subs: Subs, body: CallbackBody, ids: seq<Id>, newId: Id,
                         now: int, rows: seq<Row>)
    requires Linked(shop) && NewIds(subs, ids) && Subscriptions.SubInv(subs, rows)
    requires forall s :: s in shop.sales ==> |shop.sales[s].items| <= |ids|
    requires Callback(setup, shop, b, subs, body, ids, newId, now).Ok?
    ensures Subscriptions.SubInv(Callback(setup, shop, b, subs, body, ids, newId, now).value.subs, rows)
  {
    var i := FindPending(shop.payments, body.token);
    if i < |shop.payments| && body.keva.Some? {
      var p := shop.payments[i];
      var sale := shop.sales[p.sale];
      if sale.customer.Some? {
        StandingOrdersKeep(setup.catalog.packages, subs, p.tenant, sale.customer.value, sale.items, body.keva.value,
                           p.amount, p.sale, ids, now, rows);
      }
    }
  }

  lemma ContinuesGrows(b: Book, b': Book, t: RefType, id: Id)
    requires Continues(b, b', t, id)
    ensures GrowsBy(b, b', t)
  {
  }

  lemma ExecKeepsShop(setup: Setup, shop: Shop, b: Book, subs: Subs, op: Op)
    requires ShopInv(setup, shop, b.rows) && Linked(shop) && Allowed(shop, subs, op)
    ensures var s := Exec(setup, shop, b, subs, op);
            ShopInv(setup, s.shop, s.book.rows) && GrowsBy(b, s.book, Sale)
  {
    var s := Exec(setup, shop, b, subs, op);
    if Try(setup, shop, b, subs, op).Ok? {
      match op
      case CreateOp(user, dto, key, id, payment, now) =>
        CreateKeeps(setup, shop, b, user, dto, key, id, payment, now);
        ContinuesGrows(b, s.book, Sale, id);
      case PrepareOp(user, configured, branch, customer, lines, id, payment, token, now) =>
        PrepareKeeps(setup, shop, b, user, configured, branch, customer, lines, id, payment, token, now);
      case CallbackOp(body, ids, newId, now) =>
        CallbackKeeps(setup, shop, b, subs, body, ids, newId, now);
        var i := FindPending(shop.payments, body.token);
        if CallbackSettles(setup, shop, body, i) {
          ContinuesGrows(b, s.book, Sale, shop.payments[i].sale);
        }
      case DevSettleOp(user, production, payment, transaction, newId, _) =>
        DevSettleKeeps(setup, shop, b, user, production, payment, transaction, newId);
        ContinuesGrows(b, s.book, Sale, shop.payments[FindPayment(shop.payments, payment, user.tenant)].sale);
      case RefundOp(user, mayRefund, id, amount, _) =>
        RefundKeeps(setup, shop, b.rows, user, mayRefund, id, amount);
    }
  }

  /** Every call keeps the invariants of the shop and of the subscriptions. */
  lemma ExecKeeps(setup: Setup, shop: Shop, b: Book, subs: Subs, op: Op)
    requires ShopInv(setup, shop, b.rows) && Linked(shop) && Allowed(shop, subs, op)
    requires Subscriptions.SubInv(subs, b.rows)
    ensures var s := Exec(setup, shop, b, subs, op);
            && ShopInv(setup, s.shop, s.book.rows) && GrowsBy(b, s.book, Sale)
            && Subscriptions.SubInv(s.subs, s.book.rows)
  {
    var s := Exec(setup, shop, b, subs, op);
    ExecKeepsShop(setup, shop, b, subs, op);
    if op.CallbackOp? && Try(setup, shop, b, subs, op).Ok? {
      CallbackSubsKeep(setup, shop, b, subs, op.body, op.ids, op.newId, op.now, b.rows);
    }
    Subscriptions.OtherServiceKeepsSubs(s.subs, b, s.book, Sale);
  }

  /** A sale that a call adds carries the percentage in force. */
  lemma NewSaleVat(setup: Setup, shop: Shop, b: Book, subs: Subs, op: Op, id: Id)
    requires ShopInv(setup, shop, b.rows) && Linked(shop) && Allowed(shop, subs, op) && id !in shop.sales
    requires id in Exec(setup, shop, b, subs, op).shop.sales
    ensures var s := Exec(setup, shop, b, subs, op).shop.sales[id]; s.vat == VatOf(setup, s.tenant)
  {
    match op
    case CreateOp(user, dto, key, newId, payment, now) =>
      NewSaleShape(setup, shop, b, user, dto, key, newId, payment, now);
    case PrepareOp(user, configured, branch, customer, lines, newId, payment, token, now) =>
      NewSaleShape(setup, shop, b, user, PrepareInput(branch, customer, lines), None, newId, payment, now);
    case _ => NoNewSale(setup, shop, b, subs, op);
  }

  lemma NoNewSale(setup: Setup, shop: Shop, b: Book, subs: Subs, op: Op)
    requires ShopInv(setup, shop, b.rows) && Linked(shop) && Allowed(shop, subs, op)
    requires !op.CreateOp? && !op.PrepareOp?
    ensures forall k :: k in Exec(setup, shop, b, subs, op).shop.sales ==> k in shop.sales
  {
    if op.CallbackOp? {
      var i := FindPending(shop.payments, op.body.token);
      assert i < |shop.payments| ==> PaymentOk(shop, shop.payments[i]);
    }
  }

  lemma NewSaleShape(setup: Setup, shop: Shop, b: Book, user: Principal, dto: SaleInput, key: Option<string>, id: Id,
                     payment: Id, now: int)
    requires id !in shop.sales && CreateSale(setup, shop, b, user, dto, key, id, payment, now).Ok?
    ensures var shop' := CreateSale(setup, shop, b, user, dto, key, id, payment, now).value.shop;
            && (forall k :: k in shop'.sales ==> k in shop.sales || k == id)
            && (id in shop'.sales ==> shop'.sales[id].tenant == user.tenant
                                      && shop'.sales[id].vat == VatOf(setup, user.tenant))
  {
    if !(key.Some? && key.value != [] && FindByKey(shop.payments, user.tenant, key) < |shop.payments|) {
      var resolved := ResolveAll(setup.catalog, user.tenant, dto.lines, now).value;
      var sale := NewSale(setup, shop, user, dto, resolved, now);
      NewSaleAmounts(setup, shop, user, dto, resolved, now);
      RecordShape(shop, b, dto, key, resolved, sale, id, payment);
    }
  }

  // ---- amounts ------------------------------------------------------------------------------------------------

  /** A callback that goes through changes the shop if and only if it names a pending payment and a transaction, and its
      amount is not refused; then the payment's open sale is completed. */
  lemma SettlesUnlessRefused(setup: Setup, shop: Shop, b: Book, subs: Subs, body: CallbackBody, ids: seq<Id>, newId: Id,
                             now: int)
    requires ShopInv(setup, shop, b.rows) && NewPaymentId(shop, newId) && Linked(shop)
    requires forall s :: s in shop.sales ==> |shop.sales[s].items| <= |ids|
    requires Callback(setup, shop, b, subs, body, ids, newId, now).Ok?
    ensures var shop' := Callback(setup, shop, b, subs, body, ids, newId, now).value.shop;
            var i := FindPending(shop.payments, body.token);
            && (shop' != shop <==>
                  && body.token != [] && TransactionOf(body) != [] && i < |shop.payments|
                  && !Mismatch(setup, shop.sales[shop.payments[i].sale].total, body.amount))
            && (shop' != shop ==>
                  var id := shop.payments[i].sale;
                  shop.sales[id].status == OPEN && id in shop'.sales && shop'.sales[id].status == COMPLETED)
  {
    var i := FindPending(shop.payments, body.token);
    assert i < |shop.payments| ==> PaymentOk(shop, shop.payments[i]);
    CallbackKeeps(setup, shop, b, subs, body, ids, newId, now);
  }

  /** How far an amount in shekels is from an expected one in agorot, in agorot. */
  function Gap(expected: int, amount: real): real {
    var d := expected as real - 100.0 * amount;
    if d < 0.0 then -d else d
  }

  /** Double precision compares amounts of 32 bits exactly, up to a thousandth of an agora around one agora. */
  ghost predicate ComparesClosely(setup: Setup) {
    forall e: int, x: real :: 0 <= e < 0x8000_0000 ==>
      && (Gap(e, x) <= 0.999 ==> !setup.differs(e, x))
      && (Gap(e, x) >= 1.001 ==> setup.differs(e, x))
  }

  /** What the comparison decides: less than an agora off is not refused, more is, and exactly an agora off the rounding
      of floating point decides. In whole agorot, only the exact amount and its two neighbours can pass. */
  lemma RefusedAmounts(setup: Setup, expected: int, x: real, n: int)
    requires ComparesClosely(setup) && 0 <= expected < 0x8000_0000
    ensures Mismatch(setup, expected, Finite(x)) ==> Gap(expected, x) > 0.999
    ensures !Mismatch(setup, expected, Finite(x)) ==> Gap(expected, x) < 1.001
    ensures x == n as real / 100.0 && n == expected ==> !Mismatch(setup, expected, Finite(x))
    ensures x == n as real / 100.0 && Abs(n - expected) > 1 ==> Mismatch(setup, expected, Finite(x))
  {
    if x == n as real / 100.0 {
      assert Gap(expected, x) == Abs(n - expected) as real;
    }
  }

  /** A settling callback's amount is within one agora of the sale's total, up to the rounding of floating point, if and
      only if it is a number; and every callback with the exact amount, or with no number, settles. */
  lemma SettlingAmount(setup: Setup, shop: Shop, b: Book, subs: Subs, body: CallbackBody, ids: seq<Id>, newId: Id,
                       now: int)
    requires ShopInv(setup, shop, b.rows) && NewPaymentId(shop, newId) && Linked(shop) && ComparesClosely(setup)
    requires forall s :: s in shop.sales ==> |shop.sales[s].items| <= |ids|
    requires Callback(setup, shop, b, subs, body, ids, newId, now).Ok?
    ensures var shop' := Callback(setup, shop, b, subs, body, ids, newId, now).value.shop;
            var i := FindPending(shop.payments, body.token);
            i < |shop.payments| && shop.sales[shop.payments[i].sale].total < 0x8000_0000 ==>
              var expected := shop.sales[shop.payments[i].sale].total;
              && (shop' != shop ==>
                    ((body.amount.Finite? && Gap(expected, body.amount.value) < 1.001) <==> !body.amount.NaN?))
              && (body.token != [] && TransactionOf(body) != []
                  && (body.amount.NaN? || (body.amount.Finite? && Gap(expected, body.amount.value) <= 0.999)) ==>
                    shop' != shop)
  {
    SettlesUnlessRefused(setup, shop, b, subs, body, ids, newId, now);
    var i := FindPending(shop.payments, body.token);
    if i < |shop.payments| {
      var expected := shop.sales[shop.payments[i].sale].total;
      assert PaymentOk(shop, shop.payments[i]);
      if expected < 0x8000_0000 && body.amount.Finite? {
        RefusedAmounts(setup, expected, body.amount.value, 0);
      }
    }
  }

  /** A cart with one line of fifty shekels, without a customer. */
  function FiftyShekels(): seq<LineInput> {
    [LineInput(CUSTOM_LINE, None, Some("x"), None, Some(5000))]
  }

  /** Nothing for sale, no coupons, no VAT setting, no customers. */
  function BareSetup(): Setup {
    Setup(Catalog(map[], map[]), map[], map[], map[], s => s,
          (e, x) => e as real / 100.0 - x > 0.01 || x - e as real / 100.0 > 0.01)
  }

  /** An input where an amount that is no number settles: fifty shekels prepared, and a callback without a number. */
  lemma NotANumberSettles(user: Principal, id: Id, payment: Id, token: string, transaction: string, newId: Id)
    requires user.branches == {} && token != [] && transaction != []
    ensures var prepared := Prepare(BareSetup(), EMPTY_SHOP, EMPTY_BOOK, user, true, "", None, FiftyShekels(), id,
                                    payment, token, 0);
            && prepared.Ok? && Linked(prepared.value.shop)
            && prepared.value.shop.sales.Keys == {id} && prepared.value.shop.sales[id].status == OPEN
            && prepared.value.shop.sales[id].total == 5000 && |prepared.value.shop.sales[id].items| == 1
            && var body := CallbackBody(token, Some(transaction), None, NaN);
               var settled := Callback(BareSetup(), prepared.value.shop, EMPTY_BOOK, map[], body, [""], newId, 0);
               settled.Ok? && id in settled.value.shop.sales && settled.value.shop.sales[id].status == COMPLETED
  {
    var line := FiftyShekels()[0];
    var item := Item("x", 1, 5000, 5000, NoRef, NoSnapshot);
    var resolved := [Resolved(item, None)];
    assert FiftyShekels()[..0] == [] && [] + [resolved[0]] == resolved;
    assert ResolveAll(BareSetup().catalog, user.tenant, FiftyShekels()[..0], 0) == Ok([]);
    assert ResolveItem(BareSetup().catalog, user.tenant, line, 0) == Ok(resolved[0]);
    assert ResolveAll(BareSetup().catalog, user.tenant, FiftyShekels(), 0) == Ok(resolved);
    assert ItemsOf(resolved) == [item];
    assert Subtotal([item]) == 5000;
    var prepared := Prepare(BareSetup(), EMPTY_SHOP, EMPTY_BOOK, user, true, "", None, FiftyShekels(), id, payment,
                            token, 0).value;
    assert FindPending(prepared.shop.payments, token) == 0;
  }

  // ---- repetition -----------------------------------------------------------------------------------------------

  /** Payments are only appended, and change at most from pending to paid. */
  ghost predicate PaymentsKept(shop: Shop, shop': Shop) {
    && |shop.payments| <= |shop'.payments|
    && forall i :: 0 <= i < |shop.payments| ==> PaymentKept(shop.payments[i], shop'.payments[i])
  }

  predicate PaymentKept(p: Payment, q: Payment) {
    && q == p.(status := q.status, pspToken := q.pspToken)
    && (q.status == p.status || q.status == PAID)
  }

  lemma PaymentsKeptTwice(s1: Shop, s2: Shop, s3: Shop)
    requires PaymentsKept(s1, s2) && PaymentsKept(s2, s3)
    ensures PaymentsKept(s1, s3)
  {
    forall i | 0 <= i < |s1.payments|
      ensures PaymentKept(s1.payments[i], s3.payments[i])
    {
      assert PaymentKept(s1.payments[i], s2.payments[i]) && PaymentKept(s2.payments[i], s3.payments[i]);
    }
  }

  /** Sales are never deleted; a stored row changes at most once, from open to completed. */
  ghost predicate SalesKept(shop: Shop, shop': Shop) {
    forall id :: id in shop.sales ==> id in shop'.sales && SaleKept(shop.sales[id], shop'.sales[id])
  }

  predicate SaleKept(s: SaleRow, t: SaleRow) {
    t == s || (s.status == OPEN && t == s.(status := COMPLETED))
  }

  lemma CreateKeepsTables(setup: Setup, shop: Shop, b: Book, user: Principal, dto: SaleInput, key: Option<string>,
                          id: Id, payment: Id, now: int)
    requires id !in shop.sales && CreateSale(setup, shop, b, user, dto, key, id, payment, now).Ok?
    ensures var shop' := CreateSale(setup, shop, b, user, dto, key, id, payment, now).value.shop;
            PaymentsKept(shop, shop') && SalesKept(shop, shop')
  {
    if !(key.Some? && key.value != [] && FindByKey(shop.payments, user.tenant, key) < |shop.payments|) {
      var resolved := ResolveAll(setup.catalog, user.tenant, dto.lines, now).value;
      RecordShape(shop, b, dto, key, resolved, NewSale(setup, shop, user, dto, resolved, now), id, payment);
    }
  }

  lemma SettleKeepsTables(setup: Setup, shop: Shop, b: Book, tenant: Id, actor: Id, id: Id, how: Method,
                          transaction: string, payment: Option<Id>, newId: Id)
    requires Settle(setup, shop, b, tenant, actor, id, how, transaction, payment, newId).Ok?
    requires shop.sales[id].status == OPEN || shop.sales[id].status == COMPLETED
    ensures var shop' := Settle(setup, shop, b, tenant, actor, id, how, transaction, payment, newId).value.0;
            PaymentsKept(shop, shop') && SalesKept(shop, shop')
  {
  }

  lemma CallbackKeepsTables(setup: Setup, shop: Shop, b: Book, subs: Subs, body: CallbackBody, ids: seq<Id>, newId: Id,
                            now: int)
    requires ShopInv(setup, shop, b.rows) && Linked(shop)
    requires forall s :: s in shop.sales ==> |shop.sales[s].items| <= |ids|
    requires Callback(setup, shop, b, subs, body, ids, newId, now).Ok?
    ensures var shop' := Callback(setup, shop, b, subs, body, ids, newId, now).value.shop;
            PaymentsKept(shop, shop') && SalesKept(shop, shop')
  {
    var i := FindPending(shop.payments, body.token);
    if CallbackSettles(setup, shop, body, i) {
      var p := shop.payments[i];
      assert SaleMatches(setup, shop, b.rows, p.sale);
      SettleKeepsTables(setup, shop, b, p.tenant, "system:nedarim", p.sale, CARD, TransactionOf(body), Some(p.id),
                        newId);
    }
  }

  lemma DevSettleKeepsTables(setup: Setup, shop: Shop, b: Book, user: Principal, production: bool, payment: Id,
                             transaction: string, newId: Id)
    requires ShopInv(setup, shop, b.rows)
    requires DevSettle(setup, shop, b, user, production, payment, transaction, newId).Ok?
    ensures var shop' := DevSettle(setup, shop, b, user, production, payment, transaction, newId).value.0;
            PaymentsKept(shop, shop') && SalesKept(shop, shop')
  {
    var p := shop.payments[FindPayment(shop.payments, payment, user.tenant)];
    assert SaleMatches(setup, shop, b.rows, p.sale);
    SettleKeepsTables(setup, shop, b, user.tenant, user.employee, p.sale, CARD, transaction, Some(p.id), newId);
  }

  lemma PrepareKeepsTables(setup: Setup, shop: Shop, b: Book, user: Principal, configured: bool, branch: Id,
                           customer: Option<Id>, lines: seq<LineInput>, id: Id, payment: Id, token: string, now: int)
    requires id !in shop.sales
    requires Prepare(setup, shop, b, user, configured, branch, customer, lines, id, payment, token, now).Ok?
    ensures var shop' := Prepare(setup, shop, b, user, configured, branch, customer, lines, id, payment, token,
                                 now).value.shop;
            PaymentsKept(shop, shop') && SalesKept(shop, shop')
  {
    CreateKeepsTables(setup, shop, b, user, PrepareInput(branch, customer, lines), None, id, payment, now);
  }

  /** Every call keeps the payments and the sales in this sense. */
  lemma ExecKeepsTables(setup: Setup, shop: Shop, b: Book, subs: Subs, op: Op)
    requires ShopInv(setup, shop, b.rows) && Linked(shop) && Allowed(shop, subs, op)
    ensures var shop' := Exec(setup, shop, b, subs, op).shop;
            PaymentsKept(shop, shop') && SalesKept(shop, shop')
  {
    if Try(setup, shop, b, subs, op).Ok? {
      match op
      case CreateOp(user, dto, key, id, payment, now) =>
        CreateKeepsTables(setup, shop, b, user, dto, key, id, payment, now);
      case PrepareOp(user, configured, branch, customer, lines, id, payment, token, now) =>
        PrepareKeepsTables(setup, shop, b, user, configured, branch, customer, lines, id, payment, token, now);
      case CallbackOp(body, ids, newId, now) =>
        CallbackKeepsTables(setup, shop, b, subs, body, ids, newId, now);
      case DevSettleOp(user, production, payment, transaction, newId, _) =>
        DevSettleKeepsTables(setup, shop, b, user, production, payment, transaction, newId);
      case RefundOp(_, _, _, _, _) =>
    }
  }

  /** Once a token's payment is paid, no callback with that token does anything, in any later state. */
  lemma RepeatedCallbackIsNoOp(setup: Setup, shop: Shop, later: Shop, rows: seq<Row>, b: Book, subs: Subs,
                               body: CallbackBody, i: nat, ids: seq<Id>, newId: Id, now: int)
    requires i < |shop.payments| && shop.payments[i].reference == Some(body.token) && shop.payments[i].status == PAID
    requires PaymentsKept(shop, later) && ShopInv(setup, later, rows) && Linked(later)
    requires forall s :: s in later.sales ==> |later.sales[s].items| <= |ids|
    ensures Callback(setup, later, b, subs, body, ids, newId, now) == Ok(Settled(later, b, subs))
  {
    assert PaymentKept(shop.payments[i], later.payments[i]);
    var j := FindPending(later.payments, body.token);
    if j < |later.payments| {
      assert j != i;
      OnePaymentEach(later, i, j);
      assert false;
    }
  }

  /** Settling an already completed sale changes nothing, whoever asks and with whatever payment. */
  lemma SettleTwiceIsOnce(setup: Setup, shop: Shop, b: Book, tenant: Id, actor: Id, actor2: Id, id: Id, how: Method,
                          how2: Method, t: string, t2: string, payment: Option<Id>, payment2: Option<Id>, newId: Id,
                          newId2: Id)
    requires Settle(setup, shop, b, tenant, actor, id, how, t, payment, newId).Ok?
    ensures var (s, b') := Settle(setup, shop, b, tenant, actor, id, how, t, payment, newId).value;
            Settle(setup, s, b', tenant, actor2, id, how2, t2, payment2, newId2) == Ok((s, b'))
  {
  }

  /** A paid sale with a non-empty key: the same key, in any later state and with any cart, returns that sale. */
  lemma KeyedReplay(setup: Setup, shop: Shop, b: Book, user: Principal, dto: SaleInput, key: string, id: Id,
                    payment: Id, now: int, setup2: Setup, later: Shop, b2: Book, user2: Principal, dto2: SaleInput,
                    id2: Id, payment2: Id, now2: int)
    requires key != [] && dto.payment.Some? && id !in shop.sales
    requires CreateSale(setup, shop, b, user, dto, Some(key), id, payment, now).Ok?
    requires PaymentsKept(CreateSale(setup, shop, b, user, dto, Some(key), id, payment, now).value.shop, later)
    requires user2.tenant == user.tenant && InScope(user2, dto2.branch)
    ensures var first := CreateSale(setup, shop, b, user, dto, Some(key), id, payment, now).value.sale;
            CreateSale(setup2, later, b2, user2, dto2, Some(key), id2, payment2, now2) == Ok(Created(later, b2, first))
  {
    var c := CreateSale(setup, shop, b, user, dto, Some(key), id, payment, now).value;
    KeyFound(setup, shop, b, user, dto, key, id, payment, now);
    var i := FindByKey(c.shop.payments, user.tenant, Some(key));
    SameKeyFound(c.shop, later, user.tenant, Some(key), i);
  }

  /** After a keyed, paid sale the key finds a payment of the sale that was returned. */
  lemma KeyFound(setup: Setup, shop: Shop, b: Book, user: Principal, dto: SaleInput, key: string, id: Id, payment: Id,
                 now: int)
    requires key != [] && dto.payment.Some?
    requires CreateSale(setup, shop, b, user, dto, Some(key), id, payment, now).Ok?
    ensures var c := CreateSale(setup, shop, b, user, dto, Some(key), id, payment, now).value;
            var i := FindByKey(c.shop.payments, user.tenant, Some(key));
            i < |c.shop.payments| && c.shop.payments[i].sale == c.sale
  {
    var c := CreateSale(setup, shop, b, user, dto, Some(key), id, payment, now).value;
    if FindByKey(shop.payments, user.tenant, Some(key)) == |shop.payments| {
      var resolved := ResolveAll(setup.catalog, user.tenant, dto.lines, now).value;
      RecordShape(shop, b, dto, Some(key), resolved, NewSale(setup, shop, user, dto, resolved, now), id, payment);
      assert c.shop.payments[|shop.payments|].key == Some(key);
    }
  }

  lemma SameKeyFound(shop: Shop, later: Shop, tenant: Id, key: Option<string>, i: nat)
    requires PaymentsKept(shop, later) && i == FindByKey(shop.payments, tenant, key) < |shop.payments|
    ensures FindByKey(later.payments, tenant, key) == i && later.payments[i].sale == shop.payments[i].sale
  {
    assert PaymentKept(shop.payments[i], later.payments[i]);
    assert forall j :: 0 <= j < i ==> PaymentKept(shop.payments[j], later.payments[j]);
  }

  /** At most one payment per tenant and key, empty keys included. */
  lemma OnePaymentPerKey(setup: Setup, shop: Shop, rows: seq<Row>, i: nat, j: nat)
    requires ShopInv(setup, shop, rows) && i < |shop.payments| && j < |shop.payments|
    requires shop.payments[i].tenant == shop.payments[j].tenant
    requires shop.payments[i].key.Some? && shop.payments[i].key == shop.payments[j].key
    ensures i == j
  {
    if i != j {
      OnePaymentEach(shop, i, j);
      assert false;
    }
  }

  // ---- paying now equals paying later -----------------------------------------------------------------------------

  ghost predicate SameUpToActor(b: Book, c: Book) {
    && b.balances == c.balances && |b.rows| == |c.rows|
    && forall i :: 0 <= i < |b.rows| ==> b.rows[i] == c.rows[i].(actor := b.rows[i].actor)
  }

  lemma {:induction false} CreditsActorFree(b: Book, c: Book, g: Grant, h: Grant, credits: seq<(Unit, int)>)
    requires SameUpToActor(b, c) && h == g.(actor := h.actor)
    ensures ApplyCredits(b, g, credits).Ok? <==> ApplyCredits(c, h, credits).Ok?
    ensures ApplyCredits(b, g, credits).Ok? ==>
              SameUpToActor(ApplyCredits(b, g, credits).value, ApplyCredits(c, h, credits).value)
  {
    if credits == [] {
    } else {
      CreditsActorFree(b, c, g, h, credits[..|credits| - 1]);
    }
  }

  lemma {:induction false} ItemsActorFree(b: Book, owned: seq<Owned>, g: Grant, h: Grant, lines: seq<Resolved>)
    requires h == g.(actor := h.actor)
    ensures ApplyItems(b, owned, g, lines).Ok? <==> ApplyItems(b, owned, h, lines).Ok?
    ensures ApplyItems(b, owned, g, lines).Ok? ==>
              && SameUpToActor(ApplyItems(b, owned, g, lines).value.0, ApplyItems(b, owned, h, lines).value.0)
              && ApplyItems(b, owned, g, lines).value.1 == ApplyItems(b, owned, h, lines).value.1
  {
    if lines == [] {
    } else {
      var n := |lines| - 1;
      ItemsActorFree(b, owned, g, h, lines[..n]);
      if ApplyItems(b, owned, g, lines[..n]).Ok? && lines[n].pkg.Some? {
        CreditsActorFree(ApplyItems(b, owned, g, lines[..n]).value.0, ApplyItems(b, owned, h, lines[..n]).value.0, g, h,
                         Credits(lines[n].pkg.value));
      }
    }
  }

  /** The same delivery by two actors, on tables that differ at most in their payments. */
  ghost predicate SameOutcome(r: Result<(Shop, Book)>, q: Result<(Shop, Book)>) {
    && (r.Ok? <==> q.Ok?)
    && (r.Ok? ==> SameUpToActor(r.value.1, q.value.1) && q.value.0 == r.value.0.(payments := q.value.0.payments))
  }

  lemma DeliverActorFree(s: Shop, s2: Shop, b: Book, g: Grant, h: Grant, lines: seq<Resolved>, total: int)
    requires h == g.(actor := h.actor) && s2 == s.(payments := s2.payments)
    ensures SameOutcome(Deliver(s, b, g, lines, total), Deliver(s2, b, h, lines, total))
  {
    ItemsActorFree(b, s.owned, g, h, lines);
  }

  lemma PaidTotalNew(payments: seq<Payment>, p: Payment)
    requires p.status == PAID && forall i :: 0 <= i < |payments| ==> payments[i].sale != p.sale
    ensures PaidTotal(payments + [p], p.sale) == p.amount
  {
    NothingPaid(payments, p.sale);
    assert (payments + [p])[..|payments|] == payments;
  }

  /** The tenant has not used the key. */
  predicate Unused(shop: Shop, tenant: Id, key: Option<string>) {
    key.Some? ==> FindByKey(shop.payments, tenant, key) == |shop.payments|
  }

  /** Recording a paid sale, against recording it open and settling it. */
  lemma RecordThenSettle(setup: Setup, shop: Shop, b: Book, dto: SaleInput, resolved: seq<Resolved>, sale: SaleRow,
                         how: Method, actor: Id, id: Id, payment: Id, transaction: string, key: Option<string>,
                         openKey: Option<string>)
    requires PaymentsOk(shop) && id !in shop.sales && dto.payment.None? && sale.status == OPEN && sale.total >= 0
    requires Lookup(setup.catalog, sale.tenant, sale.items) == resolved && Unused(shop, sale.tenant, key)
    ensures var open := Record(shop, b, dto, openKey, resolved, sale, id, payment);
            var pay := dto.(payment := Some(PaymentInput(how, sale.total)));
            var paid := Record(shop, b, pay, key, resolved, sale.(status := COMPLETED), id, payment);
            open.Ok?
            && var (open', b') := open.value;
               var settled := Settle(setup, open', b', sale.tenant, actor, id, how, transaction, None, payment);
               && SameOutcome(paid, settled)
               && (paid.Ok? ==>
                     && PaidTotal(settled.value.0.payments, id) == PaidTotal(paid.value.0.payments, id) == sale.total
                     && paid.value.0.sales == shop.sales[id := sale.(status := COMPLETED)])
  {
    var open' := Record(shop, b, dto, openKey, resolved, sale, id, payment).value.0;
    var pay := dto.(payment := Some(PaymentInput(how, sale.total)));
    var paid := Record(shop, b, pay, key, resolved, sale.(status := COMPLETED), id, payment);
    var settled := Settle(setup, open', b, sale.tenant, actor, id, how, transaction, None, payment);
    forall i | 0 <= i < |shop.payments|
      ensures shop.payments[i].sale != id
    {
      assert PaymentOk(shop, shop.payments[i]);
    }
    SettleShape(setup, shop, open', b, sale, resolved, how, actor, id, payment, transaction);
    if sale.customer.Some? {
      DeliverActorFree(StagedPaid(shop, sale, how, id, payment, None, key),
                       StagedPaid(shop, sale, how, id, payment, Some(transaction), None), b,
                       Grant(sale.tenant, sale.employee, sale.customer.value, id),
                       Grant(sale.tenant, actor, sale.customer.value, id), resolved, sale.total);
    }
    PaidTotalNew(shop.payments, Payment(payment, sale.tenant, id, how, PAID, sale.total, None, key, None));
    PaidTotalNew(shop.payments,
                 Payment(payment, sale.tenant, id, how, PAID, sale.total, Some(transaction), None, None));
  }

  /** The tables once the sale is stored as completed and paid, before anything is delivered. */
  function StagedPaid(shop: Shop, sale: SaleRow, how: Method, id: Id, payment: Id, transaction: Option<string>,
                      key: Option<string>): Shop
  {
    var done := sale.(status := COMPLETED);
    var p := Payment(payment, sale.tenant, id, how, PAID, sale.total, transaction, key, None);
    Redeem(shop.(sales := shop.sales[id := done], payments := shop.payments + [p]), id, done)
  }

  lemma SettleShape(setup: Setup, shop: Shop, open': Shop, b: Book, sale: SaleRow, resolved: seq<Resolved>, how: Method,
                    actor: Id, id: Id, payment: Id, transaction: string)
    requires forall i :: 0 <= i < |shop.payments| ==> shop.payments[i].sale != id
    requires id !in shop.sales && sale.status == OPEN
    requires open' == Redeem(shop.(sales := shop.sales[id := sale]), id, sale)
    requires Lookup(setup.catalog, sale.tenant, sale.items) == resolved
    ensures Settle(setup, open', b, sale.tenant, actor, id, how, transaction, None, payment)
            == var staged := StagedPaid(shop, sale, how, id, payment, Some(transaction), None);
               if sale.customer.None? then Ok((staged, b))
               else Deliver(staged, b, Grant(sale.tenant, actor, sale.customer.value, id), resolved, sale.total)
  {
    var done := sale.(status := COMPLETED);
    assert open'.sales[id := done] == shop.sales[id := done];
  }

  function AsCreated(r: Result<(Shop, Book)>, id: Id): Result<Created> {
    match r
    case Ok((s, b)) => Ok(Created(s, b, id))
    case Err(e) => Err(e)
  }

  /** The checks before a sale is recorded. */
  predicate Passes(setup: Setup, user: Principal, dto: SaleInput, resolved: seq<Resolved>) {
    && InScope(user, dto.branch)
    && (HasPackage(resolved) ==> dto.customer.Some?)
    && (dto.customer.Some? ==> dto.customer.value in setup.customers)
  }

  lemma OpenPasses(setup: Setup, shop: Shop, b: Book, user: Principal, dto: SaleInput, key: Option<string>, id: Id,
                   payment: Id, now: int)
    requires Unused(shop, user.tenant, key) && CreateSale(setup, shop, b, user, dto, key, id, payment, now).Ok?
    ensures ResolveAll(setup.catalog, user.tenant, dto.lines, now).Ok?
            && Passes(setup, user, dto, ResolveAll(setup.catalog, user.tenant, dto.lines, now).value)
  {
  }

  lemma PassedIsRecorded(setup: Setup, shop: Shop, b: Book, user: Principal, dto: SaleInput, key: Option<string>,
                         id: Id, payment: Id, now: int, resolved: seq<Resolved>, sale: SaleRow)
    requires Unused(shop, user.tenant, key) && ResolveAll(setup.catalog, user.tenant, dto.lines, now) == Ok(resolved)
    requires Passes(setup, user, dto, resolved) && sale == NewSale(setup, shop, user, dto, resolved, now)
    requires dto.payment.Some? ==> dto.payment.value.amount >= sale.total
    ensures CreateSale(setup, shop, b, user, dto, key, id, payment, now)
            == AsCreated(Record(shop, b, dto, key, resolved, sale, id, payment), id)
  {
  }

  /** A cart that passes all checks unpaid passes them paid in full too: then both calls are only recorded. */
  lemma CreateRecords(setup: Setup, shop: Shop, b: Book, user: Principal, dto: SaleInput, how: Method, id: Id,
                      payment: Id, now: int, key: Option<string>, openKey: Option<string>)
    requires Unused(shop, user.tenant, key) && Unused(shop, user.tenant, openKey) && dto.payment.None?
    requires CreateSale(setup, shop, b, user, dto, openKey, id, payment, now).Ok?
    ensures ResolveAll(setup.catalog, user.tenant, dto.lines, now).Ok?
            && var resolved := ResolveAll(setup.catalog, user.tenant, dto.lines, now).value;
               var sale := NewSale(setup, shop, user, dto, resolved, now);
               && sale.total >= 0 && sale.status == OPEN && sale.tenant == user.tenant
               && Lookup(setup.catalog, sale.tenant, sale.items) == resolved
               && CreateSale(setup, shop, b, user, dto, openKey, id, payment, now)
                  == AsCreated(Record(shop, b, dto, openKey, resolved, sale, id, payment), id)
               && var pay := dto.(payment := Some(PaymentInput(how, sale.total)));
                  CreateSale(setup, shop, b, user, pay, key, id, payment, now)
                  == AsCreated(Record(shop, b, pay, key, resolved, sale.(status := COMPLETED), id, payment), id)
  {
    var resolved := ResolveAll(setup.catalog, user.tenant, dto.lines, now).value;
    var sale := NewSale(setup, shop, user, dto, resolved, now);
    NewSaleAmounts(setup, shop, user, dto, resolved, now);
    ResolvedIsLookup(setup.catalog, user.tenant, dto.lines, now);
    var pay := dto.(payment := Some(PaymentInput(how, Max(0, sale.total))));
    OpenPasses(setup, shop, b, user, dto, openKey, id, payment, now);
    PassedIsRecorded(setup, shop, b, user, dto, openKey, id, payment, now, resolved, sale);
    PassedIsRecorded(setup, shop, b, user, pay, key, id, payment, now, resolved, sale.(status := COMPLETED));
  }

  /** An open sale and its completion, against the same cart paid at once with the exact total; each call with any key
      that the tenant has not used, or none. */
  lemma PayNowEqualsPayLater(setup: Setup, shop: Shop, b: Book, user: Principal, dto: SaleInput, how: Method, actor: Id,
                             id: Id, payment: Id, transaction: string, now: int, key: Option<string>,
                             openKey: Option<string>)
    requires PaymentsOk(shop) && id !in shop.sales && dto.payment.None?
    requires Unused(shop, user.tenant, key) && Unused(shop, user.tenant, openKey)
    requires CreateSale(setup, shop, b, user, dto, openKey, id, payment, now).Ok?
    ensures var open := CreateSale(setup, shop, b, user, dto, openKey, id, payment, now).value;
            && id in open.shop.sales && open.shop.sales[id].total >= 0
            && var pay := Some(PaymentInput(how, open.shop.sales[id].total));
               var paid := CreateSale(setup, shop, b, user, dto.(payment := pay), key, id, payment, now);
               var settled := Settle(setup, open.shop, open.book, user.tenant, actor, id, how, transaction, None,
                                     payment);
               && (paid.Ok? <==> settled.Ok?)
               && (paid.Ok? ==>
                     && SameUpToActor(paid.value.book, settled.value.1)
                     && settled.value.0 == paid.value.shop.(payments := settled.value.0.payments)
                     && paid.value.shop.sales[id].status == COMPLETED
                     && PaidTotal(settled.value.0.payments, id) == PaidTotal(paid.value.shop.payments, id)
                        == paid.value.shop.sales[id].total)
  {
    var resolved := ResolveAll(setup.catalog, user.tenant, dto.lines, now).value;
    var sale := NewSale(setup, shop, user, dto, resolved, now);
    CreateRecords(setup, shop, b, user, dto, how, id, payment, now, key, openKey);
    RecordThenSettle(setup, shop, b, dto, resolved, sale, how, actor, id, payment, transaction, key, openKey);
  }

  /** What a settlement does beyond payments does not depend on the actor, the method, or the payment it completes. */
  lemma SettleAnyWay(setup: Setup, shop: Shop, shop2: Shop, b: Book, tenant: Id, actor: Id, actor2: Id, id: Id,
                     how: Method, how2: Method, t: string, t2: string, payment: Option<Id>, payment2: Option<Id>,
                     newId: Id, newId2: Id)
    requires shop2 == shop.(payments := shop2.payments)
    ensures SameOutcome(Settle(setup, shop, b, tenant, actor, id, how, t, payment, newId),
                        Settle(setup, shop2, b, tenant, actor2, id, how2, t2, payment2, newId2))
  {
    if id in shop.sales && shop.sales[id].customer.Some? {
      var s := shop.sales[id];
      var done := shop.sales[id := s.(status := COMPLETED)];
      var p1 := SettlePayment(shop.payments, tenant, id, s.total, how, t, payment, newId);
      var p2 := SettlePayment(shop2.payments, tenant, id, s.total, how2, t2, payment2, newId2);
      DeliverActorFree(shop.(payments := p1, sales := done), shop2.(payments := p2, sales := done),
                       b, Grant(tenant, actor, s.customer.value, id), Grant(tenant, actor2, s.customer.value, id),
                       Lookup(setup.catalog, tenant, s.items), s.total);
    }
  }

  /** The whole external path ends with the same tables beyond payments. */
  lemma PreparedSameTables(setup: Setup, shop: Shop, b: Book, user: Principal, branch: Id, customer: Option<Id>,
                           lines: seq<LineInput>, how: Method, actor: Id, id: Id, payment: Id, token: string,
                           transaction: string, newId: Id, now: int, key: Option<string>)
    requires PaymentsOk(shop) && id !in shop.sales && Unused(shop, user.tenant, key)
    requires Prepare(setup, shop, b, user, true, branch, customer, lines, id, payment, token, now).Ok?
    ensures var prepared := Prepare(setup, shop, b, user, true, branch, customer, lines, id, payment, token, now).value;
            && id in prepared.shop.sales && prepared.shop.sales[id].total >= 0
            && var pay := Some(PaymentInput(how, prepared.shop.sales[id].total));
               var paid := CreateSale(setup, shop, b, user, PrepareInput(branch, customer, lines).(payment := pay),
                                      key, id, payment, now);
               var settled := Settle(setup, prepared.shop, prepared.book, user.tenant, actor, id, CARD, transaction,
                                     Some(payment), newId);
               && (paid.Ok? <==> settled.Ok?)
               && (paid.Ok? ==>
                     && SameUpToActor(paid.value.book, settled.value.1)
                     && settled.value.0 == paid.value.shop.(payments := settled.value.0.payments)
                     && PaidTotal(paid.value.shop.payments, id) == prepared.shop.sales[id].total
                     && paid.value.shop.sales[id].total == prepared.shop.sales[id].total)
  {
    var dto := PrepareInput(branch, customer, lines);
    var open := CreateSale(setup, shop, b, user, dto, None, id, payment, now).value;
    var prepared := Prepare(setup, shop, b, user, true, branch, customer, lines, id, payment, token, now).value;
    PayNowEqualsPayLater(setup, shop, b, user, dto, how, actor, id, payment, transaction, now, key, None);
    SettleAnyWay(setup, open.shop, prepared.shop, open.book, user.tenant, actor, actor, id, how, CARD, transaction,
                 transaction, None, Some(payment), payment, newId);
  }

  /** Settling a prepared sale leaves a completed payment of exactly its total. */
  lemma PreparedSettlesInFull(setup: Setup, shop: Shop, b: Book, user: Principal, branch: Id, customer: Option<Id>,
                              lines: seq<LineInput>, actor: Id, id: Id, payment: Id, token: string,
                              transaction: string, newId: Id, now: int)
    requires PaymentsOk(shop) && id !in shop.sales && NewPaymentId(shop, payment)
    requires Prepare(setup, shop, b, user, true, branch, customer, lines, id, payment, token, now).Ok?
    ensures var prepared := Prepare(setup, shop, b, user, true, branch, customer, lines, id, payment, token, now).value;
            && id in prepared.shop.sales
            && var settled := Settle(setup, prepared.shop, prepared.book, user.tenant, actor, id, CARD, transaction,
                                     Some(payment), newId);
               settled.Ok? ==> PaidTotal(settled.value.0.payments, id) == prepared.shop.sales[id].total
  {
    var prepared := Prepare(setup, shop, b, user, true, branch, customer, lines, id, payment, token, now).value;
    PreparedShape(setup, shop, b, user, branch, customer, lines, id, payment, token, now);
    PreparedPaid(shop, prepared.shop, user.tenant, id, payment, prepared.shop.sales[id].total, token, transaction,
                 newId);
    SettledPayments(setup, prepared.shop, prepared.book, user.tenant, actor, id, transaction, payment, newId);
  }

  /** The whole external path, prepare and then its callback's settlement, against paying the same cart at once. */
  lemma PayNowEqualsPrepareAndSettle(setup: Setup, shop: Shop, b: Book, user: Principal, branch: Id,
                                     customer: Option<Id>, lines: seq<LineInput>, how: Method, actor: Id, id: Id,
                                     payment: Id, token: string, transaction: string, newId: Id, now: int,
                                     key: Option<string>)
    requires PaymentsOk(shop) && id !in shop.sales && Unused(shop, user.tenant, key) && NewPaymentId(shop, payment)
    requires Prepare(setup, shop, b, user, true, branch, customer, lines, id, payment, token, now).Ok?
    ensures var prepared := Prepare(setup, shop, b, user, true, branch, customer, lines, id, payment, token, now).value;
            && id in prepared.shop.sales && prepared.shop.sales[id].total >= 0
            && var pay := Some(PaymentInput(how, prepared.shop.sales[id].total));
               var paid := CreateSale(setup, shop, b, user, PrepareInput(branch, customer, lines).(payment := pay),
                                      key, id, payment, now);
               var settled := Settle(setup, prepared.shop, prepared.book, user.tenant, actor, id, CARD, transaction,
                                     Some(payment), newId);
               && (paid.Ok? <==> settled.Ok?)
               && (paid.Ok? ==>
                     && SameUpToActor(paid.value.book, settled.value.1)
                     && settled.value.0 == paid.value.shop.(payments := settled.value.0.payments)
                     && PaidTotal(settled.value.0.payments, id) == PaidTotal(paid.value.shop.payments, id)
                        == paid.value.shop.sales[id].total)
  {
    PreparedSameTables(setup, shop, b, user, branch, customer, lines, how, actor, id, payment, token, transaction,
                       newId, now, key);
    PreparedSettlesInFull(setup, shop, b, user, branch, customer, lines, actor, id, payment, token, transaction, newId,
                          now);
  }

  /** The prepared tables: the open sale's, and its pending payment. */
  lemma PreparedShape(setup: Setup, shop: Shop, b: Book, user: Principal, branch: Id, customer: Option<Id>,
                      lines: seq<LineInput>, id: Id, payment: Id, token: string, now: int)
    requires id !in shop.sales
    requires Prepare(setup, shop, b, user, true, branch, customer, lines, id, payment, token, now).Ok?
    ensures var p := Prepare(setup, shop, b, user, true, branch, customer, lines, id, payment, token, now).value.shop;
            && id in p.sales && p.sales[id].status == OPEN
            && p.payments
               == shop.payments + [Payment(payment, user.tenant, id, CARD, PENDING_PAYMENT, p.sales[id].total, None,
                                           None, Some(token))]
  {
    var dto := PrepareInput(branch, customer, lines);
    var resolved := ResolveAll(setup.catalog, user.tenant, lines, now).value;
    RecordShape(shop, b, dto, None, resolved, NewSale(setup, shop, user, dto, resolved, now), id, payment);
  }

  lemma SettledPayments(setup: Setup, shop: Shop, b: Book, tenant: Id, actor: Id, id: Id, transaction: string,
                        payment: Id, newId: Id)
    requires id in shop.sales && shop.sales[id].status == OPEN
    ensures var r := Settle(setup, shop, b, tenant, actor, id, CARD, transaction, Some(payment), newId);
            r.Ok? ==> r.value.0.payments
                      == SettlePayment(shop.payments, tenant, id, shop.sales[id].total, CARD, transaction,
                                       Some(payment), newId)
  {
  }

  /** Settling a prepared sale by its own payment completes a payment of exactly the prepared amount. */
  lemma PreparedPaid(shop: Shop, prepared: Shop, tenant: Id, id: Id, payment: Id, total: int, token: string,
                     transaction: string, newId: Id)
    requires PaymentsOk(shop) && id !in shop.sales && NewPaymentId(shop, payment)
    requires prepared.payments
             == shop.payments + [Payment(payment, tenant, id, CARD, PENDING_PAYMENT, total, None, None, Some(token))]
    ensures PaidTotal(SettlePayment(prepared.payments, tenant, id, total, CARD, transaction, Some(payment), newId), id)
            == total
  {
    var n := |shop.payments|;
    forall i | 0 <= i < n
      ensures shop.payments[i].sale != id
    {
      assert PaymentOk(shop, shop.payments[i]);
    }
    assert prepared.payments[n].id == payment;
    var settled := SettlePayment(prepared.payments, tenant, id, total, CARD, transaction, Some(payment), newId);
    PaidTotalNew(shop.payments, settled[n]);
    assert settled == shop.payments + [settled[n]];
  }
}
