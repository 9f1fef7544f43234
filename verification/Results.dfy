/** The results about every reachable state of the whole system, and about every continuation. */
module Results {
  import opened Common
  import opened Ledger
  import Money
  import Sessions
  import SessionProofs
  import Sales
  import SaleProofs
  import Orders
  import Payments
  import PaymentProofs
  import Subscriptions
  import Printing
  import Cash
  import Drawer
  import opened World

  // ---- the ledger ---------------------------------------------------------------------------------------

  /** Every cached balance is the replay of the ledger and the last snapshot, and was never negative. */
  lemma LedgerAlwaysReplays(w: State, c: Id, u: Unit, i: nat)
    requires Reachable(w)
    ensures Cached(w.book, c, u) == Total(w.book.rows, c, u) == LastSnapshot(w.book.rows, c, u) >= 0
    ensures i < |w.book.rows| ==>
              var r := w.book.rows[i];
              r.balanceAfter == Total(w.book.rows[..i + 1], r.customer, r.unit) && r.balanceAfter >= 0
  {
    ReachableKeeps(w);
    assert Holds(LedgerPart, w);
    Reconstructable(w.book, w.book, c, u);
  }

  // ---- sessions -------------------------------------------------------------------------------------------

  /** One live session per computer and per customer of a tenant, and IN_USE marks exactly the occupied computers. */
  lemma SessionsAlwaysExclusive(w: State, i: Id, j: Id, c: Id)
    requires Reachable(w)
    ensures i in w.floor.sessions && j in w.floor.sessions && i != j
            && Sessions.Live(w.floor.sessions[i]) && Sessions.Live(w.floor.sessions[j]) ==>
              var s, t := w.floor.sessions[i], w.floor.sessions[j];
              s.computer != t.computer && (s.tenant == t.tenant && s.customer.Some? ==> s.customer != t.customer)
    ensures c in w.floor.computers ==>
              (w.floor.computers[c].status == Sessions.IN_USE <==> Sessions.Busy(w.floor, c))
  {
    ReachableKeeps(w);
    assert Holds(FloorPart, w);
  }

  /** Elapsed, billed and paused time agree to within 999 ms a checkpoint; billed time is time spent ACTIVE. */
  lemma TimeAlwaysAccounted(w: State, id: Id)
    requires Reachable(w) && id in w.floor.sessions
    ensures var s := w.floor.sessions[id];
            Sessions.Live(s) ==>
              0 <= s.billedThroughAt - s.startedAt - 1000 * (s.secondsBilled + s.pausedSeconds)
              <= 999 * SessionProofs.Checkpoints(s.events)
    ensures var s := w.floor.sessions[id];
            !SessionProofs.MovedWhilePaused(s.events) ==>
              1000 * s.secondsBilled <= SessionProofs.ActiveMs(s.events, w.clock)
    ensures var s := w.floor.sessions[id];
            s.status == Sessions.ENDED ==>
              SessionProofs.ActiveMs(s.events, w.clock) - 1000 * s.secondsBilled <= 999 * |s.segments|
  {
    ReachableKeeps(w);
    assert Holds(FloorPart, w);
    SessionProofs.BilledWithinActive(w.floor.sessions[id], w.clock);
  }

  /** An ended session's amount is the bill of its segments, and its one ledger row, if any, is for that amount. */
  lemma EndedSessionsAreBilled(w: State, id: Id)
    requires Reachable(w) && id in w.floor.sessions && w.floor.sessions[id].status == Sessions.ENDED
    ensures var s := w.floor.sessions[id];
            && s.segments != [] && s.amount == SessionProofs.Bill(s.source, s.segments)
            && SessionProofs.MustCost(s.amount, s.source, s.segments)
            && s.secondsBilled == SessionProofs.Seconds(s.segments)
            && SessionProofs.ChargedOnce(s, RowsOf(w.book.rows, UsageSession, id))
  {
    ReachableKeeps(w);
    assert Holds(FloorPart, w);
    assert SessionProofs.RowsMatch(w.floor, w.book.rows, id);
    assert SessionProofs.SessionOk(w.floor.sessions[id], w.clock);
    SessionProofs.BillIsRight(w.floor.sessions[id].source, w.floor.sessions[id].segments);
  }

  // ---- the price of a session over a run -------------------------------------------------------------------

  ghost predicate BillsAt(w: State, s: Step, id: Id)
    requires WorldInv(w)
  {
    assert Holds(FloorPart, w);
    s.SessionStep? && SessionProofs.Bills(w.floor, w.book, s.session, id)
  }

  /** The price in force at the session's computer. */
  ghost function PriceAt(w: State, id: Id): Sessions.Pricing
    requires WorldInv(w) && id in w.floor.sessions
  {
    assert Holds(FloorPart, w);
    SessionProofs.PriceNow(w.floor, id)
  }

  ghost function GroupAt(w: State, id: Id): Option<Id>
    requires WorldInv(w) && id in w.floor.sessions
  {
    assert Holds(FloorPart, w);
    SessionProofs.GroupOf(w.floor, id)
  }

  /** Every billing call of the session finds this price. */
  ghost predicate PricedAt(w: State, steps: seq<Step>, id: Id, p: Sessions.Pricing)
    requires WorldInv(w) && Runs(w, steps)
    decreases steps
  {
    steps == [] || ((BillsAt(w, steps[0], id) ==> PriceAt(w, id) == p)
                    && (ExecKeeps(w, steps[0]); PricedAt(Exec(w, steps[0]), steps[1..], id, p)))
  }

  ghost function BillingCalls(w: State, steps: seq<Step>, id: Id): nat
    requires WorldInv(w) && Runs(w, steps)
    decreases steps
  {
    if steps == [] then 0
    else ExecKeeps(w, steps[0]);
         (if BillsAt(w, steps[0], id) then 1 else 0)
         + BillingCalls(Exec(w, steps[0]), steps[1..], id)
  }

  /** A step adds a segment at the live price to the session if it bills it, and otherwise none. */
  lemma StepSegments(w: State, s: Step, id: Id)
    requires WorldInv(w) && Allowed(w, s) && id in w.floor.sessions
    ensures var f' := Exec(w, s).floor;
            && id in f'.sessions
            && var before, after := w.floor.sessions[id].segments, f'.sessions[id].segments;
               if BillsAt(w, s, id) then
                 after == before + [after[|after| - 1]]
                 && after[|after| - 1].pricing == PriceAt(w, id)
               else after == before
  {
    if s.SessionStep? {
      assert Holds(FloorPart, w);
      SessionProofs.SegmentsAtOwnPrice(w.floor, w.book, s.session, id);
    }
  }

  /** Over a run a session's segments only grow, by one for each billing call. */
  lemma {:induction false} RunSegments(w: State, steps: seq<Step>, id: Id)
    requires WorldInv(w) && Runs(w, steps) && id in w.floor.sessions
    ensures var f' := End(w, steps).floor;
            && id in f'.sessions && w.floor.sessions[id].segments <= f'.sessions[id].segments
            && |f'.sessions[id].segments| == |w.floor.sessions[id].segments| + BillingCalls(w, steps, id)
    decreases steps
  {
    if steps == [] {
    } else {
      ExecKeeps(w, steps[0]);
      StepSegments(w, steps[0], id);
      RunSegments(Exec(w, steps[0]), steps[1..], id);
    }
  }

  /** A session billed at one price so far stays at it exactly when every later billing call finds it. */
  lemma {:induction false} RunKeepsPriceIff(w: State, steps: seq<Step>, id: Id, p: Sessions.Pricing)
    requires WorldInv(w) && Runs(w, steps) && id in w.floor.sessions
    requires SessionProofs.AllAt(w.floor.sessions[id].segments, p)
    ensures var f' := End(w, steps).floor;
            id in f'.sessions
            && (SessionProofs.AllAt(f'.sessions[id].segments, p) <==> PricedAt(w, steps, id, p))
    decreases steps
  {
    if steps == [] {
    } else {
      var w1 := Exec(w, steps[0]);
      ExecKeeps(w, steps[0]);
      StepSegments(w, steps[0], id);
      RunSegments(w1, steps[1..], id);
      var segs := w1.floor.sessions[id].segments;
      if BillsAt(w, steps[0], id) && PriceAt(w, id) != p {
        assert segs[|segs| - 1] == End(w1, steps[1..]).floor.sessions[id].segments[|segs| - 1];
      } else {
        RunKeepsPriceIff(w1, steps[1..], id, p);
      }
    }
  }

  /** An accepted opening of the session. */
  ghost predicate Opens(w: State, first: Step, id: Id)
    requires WorldInv(w)
  {
    assert Holds(FloorPart, w);
    && Allowed(w, first) && first.SessionStep? && first.session.OpenOp? && first.session.id == id
    && Sessions.Try(w.floor, w.book, first.session).Ok?
  }

  lemma OpenedAtPrice(w: State, first: Step, id: Id)
    requires WorldInv(w) && Opens(w, first, id) && WorldInv(Exec(w, first))
    ensures var f, f' := w.floor, Exec(w, first).floor;
            && first.session.computer in f.computers && id in f'.sessions && f'.sessions[id].segments == []
            && f'.sessions[id].computer == first.session.computer
            && PriceAt(Exec(w, first), id) == Sessions.PricingOf(f, f.computers[first.session.computer])
            && GroupAt(Exec(w, first), id) == f.computers[first.session.computer].group
  {
    assert Holds(FloorPart, w);
  }

  /** Prices are documented as frozen at opening: a session is billed at its opening price throughout if and only if
      every billing call finds that price still in force. */
  lemma FrozenPriceIff(w: State, first: Step, steps: seq<Step>, id: Id)
    requires WorldInv(w) && Opens(w, first, id)
    requires WorldInv(Exec(w, first)) && Runs(Exec(w, first), steps)
    ensures var w1 := Exec(w, first);
            var f' := End(w1, steps).floor;
            && first.session.computer in w.floor.computers && id in f'.sessions
            && var p := Sessions.PricingOf(w.floor, w.floor.computers[first.session.computer]);
               SessionProofs.AllAt(f'.sessions[id].segments, p) <==> PricedAt(w1, steps, id, p)
  {
    OpenedAtPrice(w, first, id);
    RunKeepsPriceIff(Exec(w, first), steps, id,
                     Sessions.PricingOf(w.floor, w.floor.computers[first.session.computer]));
  }

  /** No step moves the session, puts that computer into another group, or edits that group. */
  ghost predicate OnOneComputer(steps: seq<Step>, id: Id, computer: Id, group: Option<Id>) {
    forall i :: 0 <= i < |steps| && steps[i].SessionStep? ==>
      SessionProofs.Steady(steps[i].session, id, computer, group)
  }

  /** The other services change at most the customers' table that sessions refer to. */
  lemma OtherStepsKeepFloor(w: State, s: Step)
    requires WorldInv(w) && Allowed(w, s) && !s.SessionStep?
    ensures Exec(w, s).floor == w.floor.(customers := Exec(w, s).floor.customers)
  {
  }

  lemma StepKeepsPrice(w: State, s: Step, id: Id)
    requires WorldInv(w) && Allowed(w, s) && id in w.floor.sessions && WorldInv(Exec(w, s))
    requires s.SessionStep? ==>
               SessionProofs.Steady(s.session, id, w.floor.sessions[id].computer, GroupAt(w, id))
    ensures id in Exec(w, s).floor.sessions
            && Exec(w, s).floor.sessions[id].computer == w.floor.sessions[id].computer
    ensures GroupAt(Exec(w, s), id) == GroupAt(w, id)
    ensures PriceAt(Exec(w, s), id) == PriceAt(w, id)
  {
    assert Holds(FloorPart, w) && Holds(FloorPart, Exec(w, s));
    if s.SessionStep? {
      SessionProofs.SteadyKeepsPrice(w.floor, w.book, s.session, id);
    } else {
      OtherStepsKeepFloor(w, s);
      SessionProofs.SamePrice(w.floor, Exec(w, s).floor, id);
    }
  }

  /** On one computer that stays in one unedited group, every billing call finds the price of the start. */
  lemma {:induction false} OneComputerOnePrice(w: State, steps: seq<Step>, id: Id)
    requires WorldInv(w) && Runs(w, steps) && id in w.floor.sessions
    requires OnOneComputer(steps, id, w.floor.sessions[id].computer, GroupAt(w, id))
    ensures PricedAt(w, steps, id, PriceAt(w, id))
    decreases steps
  {
    if steps == [] {
    } else {
      var w1 := Exec(w, steps[0]);
      ExecKeeps(w, steps[0]);
      StepKeepsPrice(w, steps[0], id);
      assert forall i :: 0 <= i < |steps| - 1 ==> steps[1..][i] == steps[i + 1];
      OneComputerOnePrice(w1, steps[1..], id);
    }
  }

  /** The price of all billed seconds in one stretch. */
  function AsOneStretch(s: Sessions.Session, p: Sessions.Pricing): int {
    Money.ComputeSessionCharge(s.secondsBilled, p.pricePerMinute, p.ratio, p.minCharge, 0, p.rounding)
  }

  /** The bound on what pausing changes, for an ended session that is not free and a price without minimum time. */
  ghost predicate CostsAsOneStretch(s: Sessions.Session, p: Sessions.Pricing) {
    s.status == Sessions.ENDED && s.source != Sessions.FREE && p.minMinutes == 0 ==>
      var k := SessionProofs.BilledSegments(s.segments);
      && (p.rounding == Money.NONE ==> 2 * Abs(s.amount - AsOneStretch(s, p)) <= k + 1)
      && Abs(s.amount - AsOneStretch(s, p)) <= Money.RoundMinor((k + 1) / 2, Money.UP)
  }

  lemma OnePriceCostsAsOneStretch(w: State, id: Id, p: Sessions.Pricing)
    requires WorldInv(w) && id in w.floor.sessions
    requires SessionProofs.AllAt(w.floor.sessions[id].segments, p)
    ensures SessionProofs.BilledSegments(w.floor.sessions[id].segments) <= |w.floor.sessions[id].segments|
    ensures CostsAsOneStretch(w.floor.sessions[id], p)
  {
    var s := w.floor.sessions[id];
    assert Holds(FloorPart, w);
    assert SessionProofs.SessionOk(s, w.clock);
    SessionProofs.BilledAtMostAll(s.segments);
    if s.status == Sessions.ENDED && s.source != Sessions.FREE && p.minMinutes == 0 {
      SessionProofs.PausingBarelyChangesThePrice(s.segments, p, s.source);
    }
  }

  /** Pausing barely changes the price. Whatever else happens between its opening and its end, a session that stays on
      one computer, which stays in one unedited group without minimum time, costs what one stretch of the billed seconds
      costs, to within (k + 1) / 2 for k billed segments, or that rounded up to a whole unit. */
  lemma EndedSessionsCostAsOneStretch(w: State, first: Step, steps: seq<Step>, id: Id)
    requires WorldInv(w) && Opens(w, first, id)
    requires WorldInv(Exec(w, first)) && Runs(Exec(w, first), steps)
    requires first.session.computer in w.floor.computers
    requires OnOneComputer(steps, id, first.session.computer, w.floor.computers[first.session.computer].group)
    ensures var w1 := Exec(w, first);
            var f' := End(w1, steps).floor;
            && id in f'.sessions
            && SessionProofs.BilledSegments(f'.sessions[id].segments) <= BillingCalls(w1, steps, id)
            && CostsAsOneStretch(f'.sessions[id],
                                 Sessions.PricingOf(w.floor, w.floor.computers[first.session.computer]))
  {
    var w1 := Exec(w, first);
    OpenedAtPrice(w, first, id);
    OneComputerOnePrice(w1, steps, id);
    FrozenPriceIff(w, first, steps, id);
    RunSegments(w1, steps, id);
    RunKeeps(w1, steps);
    OnePriceCostsAsOneStretch(End(w1, steps), id,
                              Sessions.PricingOf(w.floor, w.floor.computers[first.session.computer]));
  }

  /** What a customer's sessions took from the money ledger is what the customer's ended money sessions cost. */
  lemma SessionMoneyConserved(w: State, c: Id)
    requires Reachable(w)
    ensures Referencing(w.book.rows, UsageSession, c, MONEY)
            == -SumOver(w.floor.sessions.Keys, id => SessionProofs.MoneyEnded(w.floor, c, id))
  {
    ReachableKeeps(w);
    assert Holds(FloorPart, w);
    var f := id => SessionProofs.MoneyEnded(w.floor, c, id);
    SumOverSame(w.floor.sessions.Keys, f, id => SessionProofs.MoneyEnded(w.floor, c, id));
  }

  /** Ended sessions, completed sales and closed shifts stay as they are for ever, and ledger rows are never changed. */
  lemma TheEndIsFinal(w: State, steps: seq<Step>)
    requires Reachable(w)
    requires WorldInv(w) && Runs(w, steps)
    ensures var w' := End(w, steps);
            && w.book.rows <= w'.book.rows
            && (forall id :: id in w.floor.sessions && w.floor.sessions[id].status == Sessions.ENDED ==>
                  id in w'.floor.sessions && w'.floor.sessions[id] == w.floor.sessions[id])
            && (forall id :: id in w.shop.sales && w.shop.sales[id].status == Sales.COMPLETED ==>
                  id in w'.shop.sales && w'.shop.sales[id] == w.shop.sales[id])
            && (forall s :: s in w.till.shifts && !w.till.shifts[s].open ==>
                  s in w'.till.shifts && w'.till.shifts[s] == w.till.shifts[s])
  {
    RunKeeps(w, steps);
    forall id | id in w.shop.sales
      ensures PaymentProofs.SaleKept(w.shop.sales[id], End(w, steps).shop.sales[id])
    {
    }
  }

  // ---- sales and payments -----------------------------------------------------------------------------------

  /** Settlement is exactly once: payment, ledger rows, loyalty points and purchased packages. */
  lemma SalesSettledExactlyOnce(w: State, id: Id, c: Id, p: Id)
    requires Reachable(w)
    ensures id in w.shop.sales ==>
              var s := w.shop.sales[id];
              var credits := SaleProofs.CreditsOf(RowsOf(w.book.rows, Sale, id));
              && (s.status == Sales.COMPLETED <==> PaymentProofs.PaidCount(w.shop.payments, id) == 1)
              && (s.status == Sales.OPEN <==> PaymentProofs.PaidCount(w.shop.payments, id) == 0)
              && (s.status == Sales.OPEN ==> credits == [])
              && (s.status == Sales.COMPLETED && s.customer.Some? ==>
                    credits == SaleProofs.LineCredits(s.customer.value,
                                                      Sales.Lookup(w.setup.catalog, s.tenant, s.items)))
    ensures Sales.LoyaltyOf(w.shop.loyalty, c)
            == SumOver(w.shop.sales.Keys, k => SaleProofs.PointsFrom(w.shop, c, k))
    ensures SaleProofs.OwnedCount(w.shop.owned, c, p)
            == SumOver(w.shop.sales.Keys, k => SaleProofs.LinesFrom(w.setup, w.shop, c, p, k))
  {
    ReachableKeeps(w);
    assert Holds(ShopPart, w);
    if id in w.shop.sales {
      assert SaleProofs.SaleMatches(w.setup, w.shop, w.book.rows, id);
      PaymentProofs.CompletedIffPaidOnce(w.setup, w.shop, w.book.rows, id);
    }
    SumOverSame(w.shop.sales.Keys, k => SaleProofs.PointsFrom(w.shop, c, k), k => SaleProofs.PointsFrom(w.shop, c, k));
    SumOverSame(w.shop.sales.Keys, k => SaleProofs.LinesFrom(w.setup, w.shop, c, p, k),
                k => SaleProofs.LinesFrom(w.setup, w.shop, c, p, k));
  }

  lemma StoredAmounts(w: State, id: Id)
    requires WorldInv(w) && id in w.shop.sales
    ensures AmountsRight(w.shop.sales[id])
  {
    assert Holds(ShopPart, w);
    assert SaleProofs.SaleMatches(w.setup, w.shop, w.book.rows, id);
    AmountsFit(w.setup, w.shop.sales[id]);
  }

  lemma AmountsFit(setup: Sales.Setup, s: Sales.SaleRow)
    requires SaleProofs.RowOk(setup, s)
    ensures AmountsRight(s)
  {
    SaleProofs.TaxIsNearest(s.total, s.vat);
  }

  ghost predicate AmountsRight(s: Sales.SaleRow) {
    && (forall i :: 0 <= i < |s.items| ==> s.items[i].total == s.items[i].unitPrice * s.items[i].quantity)
    && s.subtotal == Sales.Subtotal(s.items)
    && 0 <= s.discount <= s.subtotal && s.total == s.subtotal - s.discount && 0 <= s.tax <= s.total
    && IsVatShare(s.tax, s.total, s.vat)
  }

  /** Every stored sale's amounts; the VAT is that of the percentage in force when the sale was made. */
  lemma AmountsAlwaysRight(w: State, id: Id)
    requires Reachable(w) && id in w.shop.sales
    ensures AmountsRight(w.shop.sales[id])
  {
    ReachableKeeps(w);
    StoredAmounts(w, id);
  }

  /** Every payment covers its sale, and one that is still pending is for exactly its total. */
  lemma PaymentsAlwaysCover(w: State, i: nat)
    requires Reachable(w) && i < |w.shop.payments|
    ensures var p := w.shop.payments[i];
            && p.sale in w.shop.sales && p.amount >= w.shop.sales[p.sale].total
            && (p.status == Sales.PENDING_PAYMENT ==> p.amount == w.shop.sales[p.sale].total)
  {
    ReachableKeeps(w);
    assert Holds(ShopPart, w);
    assert SaleProofs.PaymentOk(w.shop, w.shop.payments[i]);
  }

  /** A step that makes a sale. */
  ghost predicate Makes(w: State, s: Step, id: Id)
    requires WorldInv(w)
  {
    Allowed(w, s) && id !in w.shop.sales && id in Exec(w, s).shop.sales
  }

  lemma MadeAtVat(w: State, s: Step, id: Id)
    requires WorldInv(w) && Makes(w, s, id)
    ensures var sale := Exec(w, s).shop.sales[id]; sale.vat == Sales.VatOf(w.setup, sale.tenant)
  {
    assert Holds(ShopPart, w);
    PaymentProofs.NewSaleVat(w.setup, w.shop, w.book, w.subs, s.sale, id);
  }

  /** Whatever edits of the percentage follow, a sale's tax remains the share at the one in force when it was made. */
  lemma TaxIsOfItsTime(w: State, s: Step, steps: seq<Step>, id: Id)
    requires WorldInv(w) && Makes(w, s, id) && WorldInv(Exec(w, s)) && Runs(Exec(w, s), steps)
    ensures var w' := End(Exec(w, s), steps);
            && id in w'.shop.sales
            && var sale := w'.shop.sales[id];
               AmountsRight(sale) && sale.vat == Sales.VatOf(w.setup, sale.tenant)
  {
    var w1 := Exec(w, s);
    MadeAtVat(w, s, id);
    RunKeeps(w1, steps);
    assert PaymentProofs.SaleKept(w1.shop.sales[id], End(w1, steps).shop.sales[id]);
    StoredAmounts(End(w1, steps), id);
  }

  /** After an edit it need not be the share at the new one: 117 shekels sold at 17%, then 18%. */
  lemma EditedVatExample()
    ensures Sales.EmbeddedTax(11700, 17) == 1700
    ensures IsVatShare(1700, 11700, 17) && !IsVatShare(1700, 11700, 18)
  {
    SaleProofs.TaxIsNearest(11700, 17);
  }

  /** The nearest minor unit to the VAT embedded in a total. */
  predicate IsVatShare(tax: int, total: int, vat: nat) {
    2 * Abs(tax * (100 + vat) - total * vat) <= 100 + vat
  }

  /** Every redemption is its sale's discount, and every coupon limit holds. */
  lemma RedemptionsAlwaysRight(w: State, i: nat, k: Sales.CouponKey)
    requires Reachable(w)
    ensures i < |w.shop.redemptions| ==>
              var r := w.shop.redemptions[i];
              r.sale in w.shop.sales && r.amount == w.shop.sales[r.sale].discount
    ensures k in w.setup.coupons && w.setup.coupons[k].totalLimit.Some? && w.setup.coupons[k].totalLimit.value > 0
            ==> Sales.Redeemed(w.shop.redemptions, k) <= w.setup.coupons[k].totalLimit.value
  {
    ReachableKeeps(w);
    assert Holds(ShopPart, w);
    if k in w.setup.coupons {
      assert SaleProofs.WithinLimit(w.setup.coupons[k], Sales.Redeemed(w.shop.redemptions, k));
    }
  }

  /** Once a token's payment is paid, every later callback with that token changes nothing at all. */
  lemma CallbacksAreOnce(w: State, i: nat, steps: seq<Step>, s: Step)
    requires Reachable(w) && WorldInv(w) && Runs(w, steps)
    requires i < |w.shop.payments| && w.shop.payments[i].status == Sales.PAID
    requires s.ShopStep? && s.sale.CallbackOp? && w.shop.payments[i].reference == Some(s.sale.body.token)
    requires WorldInv(End(w, steps)) && Allowed(End(w, steps), s)
    ensures var later := End(w, steps);
            Exec(later, s) == later.(clock := s.Now())
  {
    RunKeeps(w, steps);
    var later := End(w, steps);
    assert Holds(ShopPart, later);
    PaymentProofs.RepeatedCallbackIsNoOp(later.setup, w.shop, later.shop, later.book.rows, later.book, later.subs,
                                         s.sale.body, i, s.sale.ids, s.sale.newId, s.sale.now);
  }

  /** An accepted sale that is keyed and paid at once. */
  ghost predicate SellsKeyed(w: State, s: Step)
    requires WorldInv(w)
  {
    assert Holds(ShopPart, w);
    && Allowed(w, s) && s.ShopStep? && s.sale.CreateOp? && s.sale.key.Some? && s.sale.key.value != []
    && s.sale.dto.payment.Some? && Payments.Try(w.setup, w.shop, w.book, w.subs, s.sale).Ok?
  }

  /** A keyed, paid sale: the same key returns it for ever, and changes nothing. */
  lemma KeysAreOnce(w: State, first: Step, steps: seq<Step>, again: Step)
    requires WorldInv(w) && SellsKeyed(w, first)
    requires WorldInv(Exec(w, first)) && Runs(Exec(w, first), steps)
    requires again.ShopStep? && again.sale.CreateOp? && again.sale.key == first.sale.key
    requires again.sale.user.tenant == first.sale.user.tenant && InScope(again.sale.user, again.sale.dto.branch)
    ensures var later := End(Exec(w, first), steps);
            WorldInv(later) && (Allowed(later, again) ==> Exec(later, again) == later.(clock := again.Now()))
  {
    var w1 := Exec(w, first);
    RunKeeps(w1, steps);
    var later := End(w1, steps);
    var a, b := first.sale, again.sale;
    PaymentProofs.KeyedReplay(w.setup, w.shop, w.book, a.user, a.dto, a.key.value, a.id, a.payment, a.now,
                              later.setup, later.shop, later.book, b.user, b.dto, b.id, b.payment, b.now);
  }

  // ---- subscriptions, prints, drawers --------------------------------------------------------------------------

  function Debited(rows: seq<Row>): int {
    if rows == [] then 0 else Debited(rows[..|rows| - 1]) - rows[|rows| - 1].amount
  }

  lemma {:induction false} DebitedIs(rows: seq<Row>, price: nat)
    requires forall i :: 0 <= i < |rows| ==> rows[i].amount == 0 - price
    ensures Debited(rows) == |rows| * price
  {
    if rows == [] {
    } else {
      DebitedIs(rows[..|rows| - 1], price);
      assert |rows| * price == (|rows| - 1) * price + price;
    }
  }

  lemma SubExact(s: Subscriptions.Sub, rows: seq<Row>)
    requires Subscriptions.SubOk(s, rows)
    ensures IsExact(s, rows)
  {
    DebitedIs(rows, s.price);
  }

  ghost predicate IsExact(s: Subscriptions.Sub, rows: seq<Row>) {
    && Debited(rows) == |rows| * s.price
    && s.periodEnd == Subscriptions.AdvanceTimes(s.createdAt, s.interval, |rows| + 1)
    && (s.externalRef.Some? ==> rows == [])
  }

  /** n ledger rows: n times the price debited, and the period end is creation advanced n + 1 times. */
  lemma SubscriptionsAreExact(w: State, id: Id)
    requires Reachable(w) && id in w.subs
    ensures IsExact(w.subs[id], RowsOf(w.book.rows, Subscription, id))
  {
    ReachableKeeps(w);
    assert Holds(SubsPart, w);
    assert Subscriptions.SubMatches(w.subs, w.book.rows, id);
    SubExact(w.subs[id], RowsOf(w.book.rows, Subscription, id));
  }

  /** The standing order that a callback of the run names for the sale, if any does. */
  ghost function StandingOrder(w: State, steps: seq<Step>, id: Id): Option<string>
    requires WorldInv(w) && Runs(w, steps)
    decreases steps
  {
    if steps == [] then None
    else if NamesAt(w, steps[0], id) then steps[0].sale.body.keva
    else ExecKeeps(w, steps[0]); StandingOrder(Exec(w, steps[0]), steps[1..], id)
  }

  ghost predicate NamesAt(w: State, s: Step, id: Id)
    requires WorldInv(w) && Allowed(w, s)
  {
    assert Holds(ShopPart, w);
    s.ShopStep? && Orders.Names(w.setup, w.shop, w.book, w.subs, s.sale, id)
  }

  /** A step that names no standing order for the sale leaves the subscriptions recorded for it as they are. */
  lemma StepKeepsOrders(w: State, s: Step, id: Id, package: Id)
    requires WorldInv(w) && Allowed(w, s) && !NamesAt(w, s, id)
    ensures Orders.SameOrders(w.subs, Exec(w, s).subs, id, package)
  {
    match s
    case ShopStep(op) =>
      assert Holds(ShopPart, w);
      Orders.ExecKeepsOrders(w.setup, w.shop, w.book, w.subs, op, id, package);
    case SubStep(op) =>
      SweepListed(w, op);
      Orders.SubscriptionCallKeepsOrders(w.setup.catalog.packages, w.setup.customers.Keys, w.subs, w.book, op, id,
                                         package);
    case _ =>
  }

  lemma StepRecordsOrders(w: State, s: Step, id: Id, package: Id)
    requires WorldInv(w) && Allowed(w, s) && NamesAt(w, s, id) && Orders.NoOrders(w.subs, id)
    ensures var w' := Exec(w, s);
            && id in w'.shop.sales && w'.shop.sales[id].status == Sales.COMPLETED && w'.shop.sales[id].customer.Some?
            && |Orders.OrdersFor(w'.subs, id, package)|
               == Orders.PlanLines(w'.setup.catalog.packages, w'.shop.sales[id].tenant, w'.shop.sales[id].items,
                                   package)
            && Orders.OrdersOk(w'.subs, id, w'.shop.sales[id], s.sale.body.keva.value)
  {
    assert Holds(ShopPart, w);
    Orders.ExecOrders(w.setup, w.shop, w.book, w.subs, s.sale, id, package);
    Orders.NamedIsCompleted(w.setup, w.shop, w.book, w.subs, s.sale, id);
    assert Orders.OrdersFor(w.subs, id, package) == {};
    forall k | k in Exec(w, s).subs && Exec(w, s).subs[k].sale == Some(id)
      ensures Orders.OrderOk(Exec(w, s).subs[k], Exec(w, s).shop.sales[id], s.sale.body.keva.value)
    {
      assert Orders.OrderOk(Exec(w, s).subs[k], w.shop.sales[id], s.sale.body.keva.value);
    }
  }

  /** Once the sale is completed, no later step records anything for it. */
  lemma {:induction false} CompletedKeepsOrders(w: State, steps: seq<Step>, id: Id, package: Id,
                                                row: Sales.SaleRow, keva: string)
    requires WorldInv(w) && Runs(w, steps)
    requires id in w.shop.sales && w.shop.sales[id].status == Sales.COMPLETED
    ensures Orders.OrdersFor(End(w, steps).subs, id, package) == Orders.OrdersFor(w.subs, id, package)
    ensures Orders.OrdersOk(w.subs, id, row, keva) ==> Orders.OrdersOk(End(w, steps).subs, id, row, keva)
    decreases steps
  {
    if steps == [] {
    } else {
      var s := steps[0];
      ExecKeeps(w, s);
      if s.ShopStep? {
        assert Holds(ShopPart, w);
        Orders.CompletedNamesNothing(w.setup, w.shop, w.book, w.subs, s.sale, id);
      }
      StepKeepsOrders(w, s, id, package);
      StepKeepsPast(w, s);
      assert PaymentProofs.SaleKept(w.shop.sales[id], Exec(w, s).shop.sales[id]);
      CompletedKeepsOrders(Exec(w, s), steps[1..], id, package, row, keva);
    }
  }

  /** A completed sale has the same row, and the same plan lines, in every later state. */
  lemma SameLinesLater(w: State, w': State, id: Id, package: Id)
    requires WorldInv(w) && Kept(w, w') && id in w.shop.sales && w.shop.sales[id].status == Sales.COMPLETED
    ensures id in w'.shop.sales && w'.shop.sales[id] == w.shop.sales[id]
    ensures var s := w.shop.sales[id];
            Orders.PlanLines(w'.setup.catalog.packages, s.tenant, s.items, package)
            == Orders.PlanLines(w.setup.catalog.packages, s.tenant, s.items, package)
  {
    assert Holds(ShopPart, w);
    assert SaleProofs.SaleMatches(w.setup, w.shop, w.book.rows, id);
    assert PaymentProofs.SaleKept(w.shop.sales[id], w'.shop.sales[id]);
    Orders.PlanLinesLater(w.setup.catalog.packages, w'.setup.catalog.packages, w.shop.sales[id].tenant,
                          w.shop.sales[id].items, package);
  }

  /** Standing orders exactly once: a sale has one externally billed subscription per plan line if the callback that
      settled it named a standing order and it has a customer, all with that order's number, and none otherwise. */
  lemma {:induction false} StandingOrdersOnce(w: State, steps: seq<Step>, id: Id, package: Id)
    requires WorldInv(w) && Runs(w, steps) && Orders.NoOrders(w.subs, id)
    ensures var w' := End(w, steps);
            match StandingOrder(w, steps, id)
            case None => Orders.OrdersFor(w'.subs, id, package) == {}
            case Some(keva) =>
              && id in w'.shop.sales && w'.shop.sales[id].status == Sales.COMPLETED
              && Orders.OrdersOk(w'.subs, id, w'.shop.sales[id], keva)
              && |Orders.OrdersFor(w'.subs, id, package)|
                 == Orders.PlanLines(w'.setup.catalog.packages, w'.shop.sales[id].tenant, w'.shop.sales[id].items,
                                     package)
    decreases steps
  {
    if steps == [] {
    } else {
      var s := steps[0];
      var w1 := Exec(w, s);
      ExecKeeps(w, s);
      if NamesAt(w, s, id) {
        StepRecordsOrders(w, s, id, package);
        CompletedKeepsOrders(w1, steps[1..], id, package, w1.shop.sales[id], s.sale.body.keva.value);
        RunKeeps(w1, steps[1..]);
        SameLinesLater(w1, End(w1, steps[1..]), id, package);
      } else {
        StepKeepsOrders(w, s, id, package);
        StandingOrdersOnce(w1, steps[1..], id, package);
      }
    }
  }

  /** At most one row a job, for the whole job; nothing while it is pending. */
  lemma JobsChargedOnce(w: State, id: Id)
    requires Reachable(w) && id in w.jobs
    ensures Printing.JobOk(w.jobs[id], RowsOf(w.book.rows, PrintJob, id))
  {
    ReachableKeeps(w);
    assert Holds(JobsPart, w);
    assert Printing.JobMatches(w.jobs, w.book.rows, id);
  }

  /** One open shift a register; a closed shift's variance is counted less expected. */
  lemma ShiftsAlwaysRight(w: State, s: Id, t: Id)
    requires Reachable(w) && s in w.till.shifts && t in w.till.shifts
    ensures w.till.shifts[s].open && w.till.shifts[t].open && w.till.shifts[s].register == w.till.shifts[t].register
            ==> s == t
    ensures !w.till.shifts[s].open ==> Cash.ShiftOk(w.till.shifts[s])
  {
    ReachableKeeps(w);
    assert Holds(TillPart, w);
    assert Cash.SameOpen(w.till.shifts[s], w.till.shifts[t]) ==> s == t;
  }

  /** What one step puts into the drawer of a shift. */
  ghost function StepDelta(w: State, s: Step, shift: Id): int
    requires WorldInv(w) && Allowed(w, s)
  {
    match s
    case ShopStep(op) => Drawer.ShopDelta(w.setup, w.shop, w.book, op, shift)
    case TillStep(op) => Cash.TillDelta(w.till, w.shop, op, shift)
    case _ => 0
  }

  /** A counter kept beside the run. */
  ghost function Counter(w: State, steps: seq<Step>, shift: Id): int
    requires WorldInv(w) && Runs(w, steps)
    decreases steps
  {
    if steps == [] then 0
    else ExecKeeps(w, steps[0]);
         StepDelta(w, steps[0], shift) + Counter(Exec(w, steps[0]), steps[1..], shift)
  }

  lemma StepMovesCash(w: State, s: Step, shift: Id)
    requires WorldInv(w) && Allowed(w, s)
    ensures Cash.Expected(Exec(w, s).till, Exec(w, s).shop, shift)
            == Cash.Expected(w.till, w.shop, shift) + StepDelta(w, s, shift)
  {
    match s
    case ShopStep(op) =>
      assert Holds(ShopPart, w);
      Drawer.ExecMovesCash(w.setup, w.shop, w.book, w.subs, op, w.till, shift);
    case TillStep(op) => Cash.ExecMovesCash(w.till, w.shop, op, shift);
    case _ =>
  }

  /** The cash expected in a drawer is what the counter says, after every run. */
  lemma {:induction false} DrawerIsCounter(w: State, steps: seq<Step>, shift: Id)
    requires WorldInv(w) && Runs(w, steps)
    ensures var w' := End(w, steps);
            Cash.Expected(w'.till, w'.shop, shift)
            == Cash.Expected(w.till, w.shop, shift) + Counter(w, steps, shift)
    decreases steps
  {
    if steps == [] {
    } else {
      ExecKeeps(w, steps[0]);
      StepMovesCash(w, steps[0], shift);
      DrawerIsCounter(Exec(w, steps[0]), steps[1..], shift);
    }
  }
}
