/** How sales, settlements and refunds move the expected cash of a shift. */
module Drawer {
  import opened Common
  import opened Ledger
  import opened Sales
  import opened SaleProofs
  import opened Payments
  import PaymentProofs
  import opened Cash

  /** Refunds belong to sales, and every payment still pending is by card. */
  ghost predicate CashLinked(shop: Shop) {
    && (forall i :: 0 <= i < |shop.refunds| ==> shop.refunds[i].sale in shop.sales)
    && (forall i :: 0 <= i < |shop.payments| && shop.payments[i].status == PENDING_PAYMENT ==>
          shop.payments[i].how == CARD)
  }

  predicate PaysCash(dto: SaleInput) {
    dto.payment.Some? && dto.payment.value.how == CASH
  }

  /** What an accepted sale or refund puts into the drawer of one shift; settlements by card put in nothing. */
  function ShopDelta(setup: Setup, shop: Shop, b: Book, op: Payments.Op, shift: Id): int {
    match op
    case CreateOp(user, dto, key, id, payment, now) =>
      var r := CreateSale(setup, shop, b, user, dto, key, id, payment, now);
      if r.Ok? && id in r.value.shop.sales && dto.shift == Some(shift) && PaysCash(dto) then dto.payment.value.amount
      else 0
    case RefundOp(user, mayRefund, id, amount, _) =>
      if RefundSale(shop, user, mayRefund, id, amount).Ok? && shop.sales[id].shift == Some(shift) then 0 - amount else 0
    case _ => 0
  }

  /** A new sale brings its own cash payment and moves no other sale's cash. */
  lemma NewSaleMoves(till: Till, shop: Shop, shop': Shop, id: Id, s: SaleRow, p: Option<Payment>, shift: Id)
    requires id !in shop.sales && shop'.sales == shop.sales[id := s] && shop'.refunds == shop.refunds
    requires shop'.payments == if p.Some? then shop.payments + [p.value] else shop.payments
    requires p.Some? ==> p.value.sale == id
    requires Payments.Linked(shop) && CashLinked(shop)
    ensures Expected(till, shop', shift) == Expected(till, shop, shift)
            + if p.Some? && p.value.status == PAID && p.value.how == CASH && s.shift == Some(shift) then p.value.amount
              else 0
  {
    forall k
      ensures SaleCash(shop', k) == SaleCash(shop, k)
              + if p.Some? && k == id && p.value.status == PAID && p.value.how == CASH then p.value.amount else 0
    {
      if p.Some? {
        PaidCashAppend(shop.payments, p.value, k);
      }
    }
    NoPaidCash(shop.payments, id);
    NotRefunded(shop.refunds, id);
    OneSaleCash(till, shop, shop', id, shift);
  }

  lemma StaysLinked(shop: Shop, shop': Shop, id: Id, s: SaleRow, p: Option<Payment>)
    requires CashLinked(shop) && shop'.sales == shop.sales[id := s] && shop'.refunds == shop.refunds
    requires shop'.payments == if p.Some? then shop.payments + [p.value] else shop.payments
    requires p.Some? && p.value.status == PENDING_PAYMENT ==> p.value.how == CARD
    ensures CashLinked(shop')
  {
  }

  lemma SettledPayments(payments: seq<Payment>, tenant: Id, id: Id, total: int, transaction: string,
                        payment: Option<Id>, newId: Id, k: Id)
    requires var i := PaymentToSettle(payments, id, payment); i < |payments| ==> payments[i].how != CASH
    ensures PaidCash(SettlePayment(payments, tenant, id, total, CARD, transaction, payment, newId), k)
            == PaidCash(payments, k)
  {
    var i := PaymentToSettle(payments, id, payment);
    if i < |payments| {
      CardUpdate(payments, i, payments[i].(status := PAID, pspToken := Some(transaction)), k);
    } else {
      PaidCashAppend(payments, Payment(newId, tenant, id, CARD, PAID, total, Some(transaction), None, None), k);
    }
  }

  lemma SettleMovesNothing(setup: Setup, shop: Shop, b: Book, tenant: Id, actor: Id, id: Id, transaction: string,
                           payment: Option<Id>, newId: Id, till: Till, shift: Id)
    requires PaymentsOk(shop) && CashLinked(shop)
    requires id in shop.sales ==> shop.sales[id].status == OPEN || shop.sales[id].status == COMPLETED
    requires Settle(setup, shop, b, tenant, actor, id, CARD, transaction, payment, newId).Ok?
    ensures var shop' := Settle(setup, shop, b, tenant, actor, id, CARD, transaction, payment, newId).value.0;
            Expected(till, shop', shift) == Expected(till, shop, shift) && CashLinked(shop')
  {
    var shop' := Settle(setup, shop, b, tenant, actor, id, CARD, transaction, payment, newId).value.0;
    if shop.sales[id].status == OPEN {
      SettleTables(setup, shop, b, tenant, actor, id, CARD, transaction, payment, newId);
      var i := PaymentToSettle(shop.payments, id, payment);
      if i < |shop.payments| {
        assert PaymentOk(shop, shop.payments[i]);
      }
      forall k
        ensures SaleCash(shop', k) == SaleCash(shop, k)
      {
        SettledPayments(shop.payments, tenant, id, shop.sales[id].total, transaction, payment, newId, k);
      }
      assert shop'.sales.Keys == shop.sales.Keys;
      OneSaleCash(till, shop, shop', id, shift);
    }
  }

  lemma RefundMoves(shop: Shop, user: Principal, mayRefund: bool, id: Id, amount: nat, till: Till, shift: Id)
    requires RefundSale(shop, user, mayRefund, id, amount).Ok? && CashLinked(shop)
    ensures var shop' := RefundSale(shop, user, mayRefund, id, amount).value;
            && CashLinked(shop')
            && Expected(till, shop', shift) == Expected(till, shop, shift)
                                               - if shop.sales[id].shift == Some(shift) then amount else 0
  {
    var shop' := RefundSale(shop, user, mayRefund, id, amount).value;
    forall k
      ensures Refunded(shop'.refunds, k) == Refunded(shop.refunds, k) + if k == id then amount else 0
    {
      RefundedAppend(shop.refunds, Refund(id, amount), k);
    }
    OneSaleCash(till, shop, shop', id, shift);
  }

  lemma CreateMoves(setup: Setup, shop: Shop, b: Book, user: Principal, dto: SaleInput, key: Option<string>, id: Id,
                    payment: Id, now: int, till: Till, shift: Id)
    requires id !in shop.sales && Payments.Linked(shop) && CashLinked(shop)
    requires CreateSale(setup, shop, b, user, dto, key, id, payment, now).Ok?
    ensures var shop' := CreateSale(setup, shop, b, user, dto, key, id, payment, now).value.shop;
            && CashLinked(shop')
            && Expected(till, shop', shift) == Expected(till, shop, shift)
               + if id in shop'.sales && dto.shift == Some(shift) && PaysCash(dto) then dto.payment.value.amount else 0
  {
    var shop' := CreateSale(setup, shop, b, user, dto, key, id, payment, now).value.shop;
    CreateShape(setup, shop, b, user, dto, key, id, payment, now);
    if id in shop'.sales {
      NewSaleMoves(till, shop, shop', id, shop'.sales[id], PaymentOf(dto, user.tenant, key, id, payment), shift);
      StaysLinked(shop, shop', id, shop'.sales[id], PaymentOf(dto, user.tenant, key, id, payment));
    }
  }

  lemma CreateShape(setup: Setup, shop: Shop, b: Book, user: Principal, dto: SaleInput, key: Option<string>, id: Id,
                    payment: Id, now: int)
    requires id !in shop.sales
    requires CreateSale(setup, shop, b, user, dto, key, id, payment, now).Ok?
    ensures var shop' := CreateSale(setup, shop, b, user, dto, key, id, payment, now).value.shop;
            var p := PaymentOf(dto, user.tenant, key, id, payment);
            if id !in shop'.sales then shop' == shop
            else shop'.sales == shop.sales[id := shop'.sales[id]] && shop'.sales[id].shift == dto.shift
                 && shop'.refunds == shop.refunds
                 && shop'.payments == if p.Some? then shop.payments + [p.value] else shop.payments
  {
    if !(key.Some? && key.value != [] && FindByKey(shop.payments, user.tenant, key) < |shop.payments|) {
      var resolved := ResolveAll(setup.catalog, user.tenant, dto.lines, now).value;
      RecordShape(shop, b, dto, key, resolved, NewSale(setup, shop, user, dto, resolved, now), id, payment);
    }
  }

  lemma PrepareMoves(setup: Setup, shop: Shop, b: Book, user: Principal, configured: bool, branch: Id,
                     customer: Option<Id>, lines: seq<LineInput>, id: Id, payment: Id, token: string, now: int,
                     till: Till, shift: Id)
    requires id !in shop.sales && Payments.Linked(shop) && CashLinked(shop)
    requires Prepare(setup, shop, b, user, configured, branch, customer, lines, id, payment, token, now).Ok?
    ensures var shop' := Prepare(setup, shop, b, user, configured, branch, customer, lines, id, payment, token,
                                 now).value.shop;
            CashLinked(shop') && Expected(till, shop', shift) == Expected(till, shop, shift)
  {
    var shop' := Prepare(setup, shop, b, user, configured, branch, customer, lines, id, payment, token, now).value.shop;
    var p := Some(shop'.payments[|shop.payments|]);
    NewSaleMoves(till, shop, shop', id, shop'.sales[id], p, shift);
    StaysLinked(shop, shop', id, shop'.sales[id], p);
  }

  lemma CallbackMovesNothing(setup: Setup, shop: Shop, b: Book, subs: Subs, body: CallbackBody, ids: seq<Id>, newId: Id,
                             now: int, till: Till, shift: Id)
    requires ShopInv(setup, shop, b.rows) && Payments.Linked(shop) && CashLinked(shop)
    requires forall s :: s in shop.sales ==> |shop.sales[s].items| <= |ids|
    requires Callback(setup, shop, b, subs, body, ids, newId, now).Ok?
    ensures var shop' := Callback(setup, shop, b, subs, body, ids, newId, now).value.shop;
            CashLinked(shop') && Expected(till, shop', shift) == Expected(till, shop, shift)
  {
    var i := FindPending(shop.payments, body.token);
    if PaymentProofs.CallbackSettles(setup, shop, body, i) {
      var p := shop.payments[i];
      assert SaleMatches(setup, shop, b.rows, p.sale);
      SettleMovesNothing(setup, shop, b, p.tenant, "system:nedarim", p.sale, TransactionOf(body), Some(p.id), newId,
                         till, shift);
    }
  }

  lemma DevSettleMovesNothing(setup: Setup, shop: Shop, b: Book, user: Principal, production: bool, payment: Id,
                              transaction: string, newId: Id, till: Till, shift: Id)
    requires ShopInv(setup, shop, b.rows) && CashLinked(shop)
    requires DevSettle(setup, shop, b, user, production, payment, transaction, newId).Ok?
    ensures var shop' := DevSettle(setup, shop, b, user, production, payment, transaction, newId).value.0;
            CashLinked(shop') && Expected(till, shop', shift) == Expected(till, shop, shift)
  {
    var p := shop.payments[FindPayment(shop.payments, payment, user.tenant)];
    assert SaleMatches(setup, shop, b.rows, p.sale);
    SettleMovesNothing(setup, shop, b, user.tenant, user.employee, p.sale, transaction, Some(p.id), newId, till, shift);
  }

  /** Every call of the shop moves the expected cash by its delta. */
  lemma ExecMovesCash(setup: Setup, shop: Shop, b: Book, subs: Subs, op: Payments.Op, till: Till, shift: Id)
    requires ShopInv(setup, shop, b.rows) && Payments.Linked(shop) && CashLinked(shop)
    requires PaymentProofs.Allowed(shop, subs, op)
    ensures var shop' := Payments.Exec(setup, shop, b, subs, op).shop;
            && CashLinked(shop')
            && Expected(till, shop', shift) == Expected(till, shop, shift) + ShopDelta(setup, shop, b, op, shift)
  {
    if Payments.Try(setup, shop, b, subs, op).Ok? {
      match op
      case CreateOp(user, dto, key, id, payment, now) =>
        CreateMoves(setup, shop, b, user, dto, key, id, payment, now, till, shift);
      case PrepareOp(user, configured, branch, customer, lines, id, payment, token, now) =>
        PrepareMoves(setup, shop, b, user, configured, branch, customer, lines, id, payment, token, now, till, shift);
      case CallbackOp(body, ids, newId, now) =>
        CallbackMovesNothing(setup, shop, b, subs, body, ids, newId, now, till, shift);
      case DevSettleOp(user, production, payment, transaction, newId, _) =>
        DevSettleMovesNothing(setup, shop, b, user, production, payment, transaction, newId, till, shift);
      case RefundOp(user, mayRefund, id, amount, _) =>
        RefundMoves(shop, user, mayRefund, id, amount, till, shift);
    }
  }
}
