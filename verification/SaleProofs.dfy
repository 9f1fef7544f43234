/** What every run of sales, prepares, callbacks and dev settles keeps. */
module SaleProofs {
  import opened Common
  import opened Money
  import opened Ledger
  import opened Catalogue
  import opened Sales

  // ---- arithmetic ----------------------------------------------------------------------------------

  /** 0 <= discount <= subtotal for every coupon and every subtotal. */
  lemma DiscountWithinSubtotal(c: Coupon, subtotal: nat)
    ensures 0 <= CouponDiscount(c, subtotal) <= subtotal
  {
    if c.kind == PERCENT {
      assert subtotal * c.value >= 0;
      JsRoundMonotone(0.0, (subtotal * c.value) as real / 100.0);
    }
  }

  /** Nothing below the minimum purchase; a fixed sum or the nearest percentage, but never more than the subtotal. */
  lemma DiscountIs(c: Coupon, subtotal: nat)
    ensures var d := CouponDiscount(c, subtotal);
            && (c.minPurchase.Some? && subtotal < c.minPurchase.value ==> d == 0)
            && (c.minPurchase.None? || c.minPurchase.value <= subtotal ==>
                  && (c.kind == FIXED ==> d <= c.value && (d < c.value ==> d == subtotal))
                  && (c.kind == PERCENT && c.value <= 100 ==> 2 * Abs(100 * d - subtotal * c.value) <= 100)
                  && (c.kind == PERCENT && c.value >= 100 ==> d == subtotal)
                  && (c.kind == BONUS_TIME || c.kind == BONUS_PRINT ==> d == 0))
  {
    if c.kind == PERCENT {
      HundredthsCapped(subtotal * c.value, subtotal);
      ShareBounds(subtotal, c.value);
    }
  }

  lemma ShareBounds(subtotal: nat, percent: nat)
    ensures 0 <= subtotal * percent
    ensures percent <= 100 ==> subtotal * percent <= 100 * subtotal
    ensures percent >= 100 ==> subtotal * percent >= 100 * subtotal
  {
  }

  lemma HundredthsCapped(n: nat, cap: nat)
    ensures var d := Min(JsRound(n as real / 100.0), cap);
            && (n <= 100 * cap ==> 2 * Abs(100 * d - n) <= 100)
            && (n >= 100 * cap ==> d == cap)
  {
    var r := JsRound(n as real / 100.0);
    assert RoundMinor(n, NEAREST) == r * 100;
    RoundNearestIsClosest(n, 0);
  }

  lemma TaxIsShare(total: int, vat: nat)
    ensures (total as real - total as real / (1.0 + vat as real / 100.0)) * (100 + vat) as real
            == (total * vat) as real
  {
    var t, h := total as real, 100.0 + vat as real;
    var d := 1.0 + vat as real / 100.0;
    assert h == 100.0 * d && d > 0.0;
    var q := t / d;
    assert q * d == t;
    calc {
      (t - q) * h;
      t * h - q * h;
      { assert q * h == 100.0 * (q * d); }
      t * h - 100.0 * t;
      t * (h - 100.0);
      t * vat as real;
      (total * vat) as real;
    }
  }

  lemma ScaledRounding(x: real, h: real, y: real)
    requires h > 0.0 && x * h == y
    ensures -h <= 2.0 * (JsRound(x) as real * h - y) <= h
  {
    var r := JsRound(x) as real;
    JsRoundNearest(x);
    assert (r - x) * h == r * h - y;
    ProductMonotone(0.0, 0.5 - (r - x), 0.0, h);
    ProductMonotone(0.0, r - x + 0.5, 0.0, h);
    assert (r - x + 0.5) * h == (r - x) * h + 0.5 * h;
    assert (0.5 - (r - x)) * h == 0.5 * h - (r - x) * h;
  }

  lemma ShareBetween(x: real, h: real, t: real)
    requires h > 0.0 && 0.0 <= x * h <= t * h
    ensures 0.0 <= x <= t
  {
  }

  /** The tax is total * vat / (100 + vat) rounded to the nearest minor unit, so it lies between 0 and the total. */
  lemma TaxIsNearest(total: nat, vat: nat)
    ensures 2 * Abs(EmbeddedTax(total, vat) * (100 + vat) - total * vat) <= 100 + vat
    ensures 0 <= EmbeddedTax(total, vat) <= total
  {
    var x := total as real - total as real / (1.0 + vat as real / 100.0);
    var tax := EmbeddedTax(total, vat);
    TaxIsShare(total, vat);
    ScaledRounding(x, (100 + vat) as real, (total * vat) as real);
    assert (tax * (100 + vat)) as real == tax as real * (100 + vat) as real;
    assert total * vat >= 0 && total * (100 + vat) == 100 * total + total * vat;
    assert (total * (100 + vat)) as real == total as real * (100 + vat) as real;
    ShareBetween(x, (100 + vat) as real, total as real);
    JsRoundMonotone(0.0, x);
    JsRoundMonotone(x, total as real);
  }

  lemma TaxMonotone(total: int, total': int, vat: nat)
    requires total <= total'
    ensures EmbeddedTax(total, vat) <= EmbeddedTax(total', vat)
  {
    var h := (100 + vat) as real;
    var x := total as real - total as real / (1.0 + vat as real / 100.0);
    var x' := total' as real - total' as real / (1.0 + vat as real / 100.0);
    TaxIsShare(total, vat);
    TaxIsShare(total', vat);
    assert total * vat <= total' * vat;
    assert (x' - x) * h == x' * h - x * h >= 0.0;
    JsRoundMonotone(x, x');
  }

  /** A stored sale's amounts follow from its lines, its coupon and the tenant's VAT. */
  ghost predicate AmountsOk(s: SaleRow) {
    && s.subtotal == Subtotal(s.items)
    && 0 <= s.discount <= s.subtotal && s.total == s.subtotal - s.discount
    && 0 <= s.tax <= s.total && s.tax == EmbeddedTax(s.total, s.vat)
    && (s.coupon.None? ==> s.discount == 0)
  }

  /** The catalogue has every package that a line was sold from. */
  ghost predicate RefsKnown(packages: map<Id, Package>, items: seq<Item>) {
    forall i :: 0 <= i < |items| && items[i].ref.PackageRef? ==> items[i].ref.package in packages
  }

  /** Each line costs its unit price times its quantity. */
  ghost predicate Multiplied(items: seq<Item>) {
    forall i :: 0 <= i < |items| ==> items[i].total == items[i].unitPrice * items[i].quantity
  }

  ghost predicate RowOk(setup: Setup, s: SaleRow) {
    AmountsOk(s) && Multiplied(s.items) && RefsKnown(setup.catalog.packages, s.items)
  }

  lemma NewSaleAmounts(setup: Setup, shop: Shop, user: Principal, dto: SaleInput, resolved: seq<Resolved>, now: int)
    ensures var s := NewSale(setup, shop, user, dto, resolved, now);
            AmountsOk(s) && s.vat == VatOf(setup, user.tenant)
  {
    var s := NewSale(setup, shop, user, dto, resolved, now);
    if s.coupon.Some? {
      DiscountWithinSubtotal(setup.coupons[s.coupon.value], s.subtotal);
    }
    TaxIsNearest(s.total, VatOf(setup, user.tenant));
  }

  /** Loyalty: one point for each whole ten shekels, for that customer only; splitting a sale never earns more. */
  lemma PointsPerTenShekels(loyalty: map<Id, int>, c: Id, total: nat, k: Id, rest: nat)
    ensures var earned := LoyaltyOf(Accrue(loyalty, c, total), k) - LoyaltyOf(loyalty, k);
            if k == c then 1000 * earned <= total < 1000 * (earned + 1) else earned == 0
    ensures Points(total) + Points(rest) <= Points(total + rest) <= Points(total) + Points(rest) + 1
  {
  }

  // ---- what a delivery does ----------------------------------------------------------------------------

  /** Customer, unit and amount of each row. */
  function CreditsOf(rows: seq<Row>): seq<(Id, Unit, int)> {
    if rows == [] then [] else
      var r := rows[|rows| - 1];
      CreditsOf(rows[..|rows| - 1]) + [(r.customer, r.unit, r.amount)]
  }

  function For(c: Id, credits: seq<(Unit, int)>): seq<(Id, Unit, int)> {
    if credits == [] then [] else
      For(c, credits[..|credits| - 1]) + [(c, credits[|credits| - 1].0, credits[|credits| - 1].1)]
  }

  /** The credits a customer should get for the package lines of a sale. */
  function LineCredits(c: Id, lines: seq<Resolved>): seq<(Id, Unit, int)> {
    if lines == [] then [] else
      var last := lines[|lines| - 1];
      LineCredits(c, lines[..|lines| - 1])
      + if last.item.ref.PackageRef? && last.pkg.Some? then For(c, Credits(last.pkg.value)) else []
  }

  /** How many lines sell the given package. */
  function PackageLines(lines: seq<Resolved>, package: Id): nat {
    if lines == [] then 0 else
      var last := lines[|lines| - 1];
      PackageLines(lines[..|lines| - 1], package)
      + if last.item.ref == PackageRef(package) && last.pkg.Some? then 1 else 0
  }

  function OwnedCount(owned: seq<Owned>, c: Id, package: Id): nat {
    if owned == [] then 0 else
      var last := owned[|owned| - 1];
      OwnedCount(owned[..|owned| - 1], c, package) + if last.customer == c && last.package == package then 1 else 0
  }

  /** Unit by unit, what one package line credits. */
  lemma CreditsByUnit(pkg: Package)
    ensures CreditFor(Credits(pkg), TIME_SECONDS)
            == if pkg.kind == TIME then 60 * pkg.config.minutes + 60 * pkg.bonus.time else 0
    ensures CreditFor(Credits(pkg), MONEY)
            == if pkg.kind == MONEY_VALUE then pkg.config.moneyValue + pkg.bonus.money else 0
    ensures CreditFor(Credits(pkg), PRINT_BW) == if pkg.kind == PRINT_PAGES then pkg.config.bwPages else 0
    ensures CreditFor(Credits(pkg), PRINT_COLOR) == if pkg.kind == PRINT_PAGES then pkg.config.colorPages else 0
    ensures forall i, j :: 0 <= i < j < |Credits(pkg)| ==> Credits(pkg)[i].0 != Credits(pkg)[j].0
  {
    if pkg.kind == PRINT_PAGES {
      var bw, color := pkg.config.bwPages, pkg.config.colorPages;
      if bw != 0 && color != 0 {
        assert Credits(pkg) == [(PRINT_BW, bw), (PRINT_COLOR, color)];
        var rest := Credits(pkg)[1..];
        assert rest == [(PRINT_COLOR, color)] && rest[1..] == [];
        assert CreditFor(rest, TIME_SECONDS) == CreditFor(rest, MONEY) == 0;
      } else if bw != 0 {
        assert Credits(pkg) == [(PRINT_BW, bw)] && Credits(pkg)[1..] == [];
      } else if color != 0 {
        assert Credits(pkg) == [(PRINT_COLOR, color)] && Credits(pkg)[1..] == [];
      }
    } else if Credits(pkg) != [] {
      assert Credits(pkg)[1..] == [];
    }
  }

  lemma CreditsOfAppend(rows: seq<Row>, r: Row)
    ensures CreditsOf(rows + [r]) == CreditsOf(rows) + [(r.customer, r.unit, r.amount)]
  {
    assert (rows + [r])[..|rows|] == rows;
  }

  lemma OneCredit(b: Book, g: Grant, credit: (Unit, int))
    requires Apply(b, CreditDelta(g, credit)).Ok?
    ensures var b' := Apply(b, CreditDelta(g, credit)).value;
            && Continues(b, b', Sale, g.sale)
            && CreditsOf(RowsOf(b'.rows, Sale, g.sale))
               == CreditsOf(RowsOf(b.rows, Sale, g.sale)) + [(g.customer, credit.0, credit.1)]
  {
    var b' := Apply(b, CreditDelta(g, credit)).value;
    ApplyContinues(b, CreditDelta(g, credit));
    RowsOfAppend(b.rows, b'.rows[|b.rows|], Sale, g.sale);
    CreditsOfAppend(RowsOf(b.rows, Sale, g.sale), b'.rows[|b.rows|]);
  }

  lemma {:induction false} CreditsApplied(b: Book, g: Grant, credits: seq<(Unit, int)>)
    requires ApplyCredits(b, g, credits).Ok?
    ensures Continues(b, ApplyCredits(b, g, credits).value, Sale, g.sale)
    ensures CreditsOf(RowsOf(ApplyCredits(b, g, credits).value.rows, Sale, g.sale))
            == CreditsOf(RowsOf(b.rows, Sale, g.sale)) + For(g.customer, credits)
  {
    if credits == [] {
    } else {
      var n := |credits| - 1;
      var b1 := ApplyCredits(b, g, credits[..n]).value;
      var b' := Apply(b1, CreditDelta(g, credits[n])).value;
      CreditsApplied(b, g, credits[..n]);
      OneCredit(b1, g, credits[n]);
      ContinuesTwice(b, b1, b', Sale, g.sale);
      Associative(CreditsOf(RowsOf(b.rows, Sale, g.sale)), For(g.customer, credits[..n]),
                  [(g.customer, credits[n].0, credits[n].1)]);
    }
  }

  lemma CreditedTwice(b: Book, b1: Book, g: Grant, before: seq<(Id, Unit, int)>, credits: seq<(Unit, int)>)
    requires ApplyCredits(b1, g, credits).Ok? && Continues(b, b1, Sale, g.sale)
    requires CreditsOf(RowsOf(b1.rows, Sale, g.sale)) == CreditsOf(RowsOf(b.rows, Sale, g.sale)) + before
    ensures var b' := ApplyCredits(b1, g, credits).value;
            && Continues(b, b', Sale, g.sale)
            && CreditsOf(RowsOf(b'.rows, Sale, g.sale))
               == CreditsOf(RowsOf(b.rows, Sale, g.sale)) + (before + For(g.customer, credits))
  {
    var b' := ApplyCredits(b1, g, credits).value;
    CreditsApplied(b1, g, credits);
    ContinuesTwice(b, b1, b', Sale, g.sale);
    Associative(CreditsOf(RowsOf(b.rows, Sale, g.sale)), before, For(g.customer, credits));
  }

  lemma Associative<T>(x: seq<T>, y: seq<T>, z: seq<T>)
    ensures (x + y) + z == x + (y + z)
  {
  }

  predicate SellsPackage(line: Resolved) {
    line.item.ref.PackageRef? && line.pkg.Some?
  }

  lemma ItemsUnfold(b: Book, owned: seq<Owned>, g: Grant, lines: seq<Resolved>)
    requires lines != [] && ApplyItems(b, owned, g, lines).Ok?
    ensures var n := |lines| - 1;
            && ApplyItems(b, owned, g, lines[..n]).Ok?
            && var (b1, owned1) := ApplyItems(b, owned, g, lines[..n]).value;
               var (b', owned') := ApplyItems(b, owned, g, lines).value;
               if SellsPackage(lines[n]) then
                 ApplyCredits(b1, g, Credits(lines[n].pkg.value)) == Ok(b')
                 && owned' == owned1 + [OwnedFor(g, lines[n].item, lines[n].item.ref.package, lines[n].pkg.value)]
               else b' == b1 && owned' == owned1
  {
  }

  /** Each package line credits its package's values once, whatever its quantity. */
  lemma {:induction false} ItemsCredited(b: Book, owned: seq<Owned>, g: Grant, lines: seq<Resolved>)
    requires ApplyItems(b, owned, g, lines).Ok?
    ensures var (b', _) := ApplyItems(b, owned, g, lines).value;
            && Continues(b, b', Sale, g.sale)
            && CreditsOf(RowsOf(b'.rows, Sale, g.sale))
               == CreditsOf(RowsOf(b.rows, Sale, g.sale)) + LineCredits(g.customer, lines)
  {
    if lines == [] {
    } else {
      var n := |lines| - 1;
      ItemsUnfold(b, owned, g, lines);
      ItemsCredited(b, owned, g, lines[..n]);
      if SellsPackage(lines[n]) {
        CreditedTwice(b, ApplyItems(b, owned, g, lines[..n]).value.0, g, LineCredits(g.customer, lines[..n]),
                      Credits(lines[n].pkg.value));
      }
    }
  }

  lemma OwnedAppend(owned: seq<Owned>, o: Owned, c: Id, p: Id)
    ensures OwnedCount(owned + [o], c, p)
            == OwnedCount(owned, c, p) + if o.customer == c && o.package == p then 1 else 0
  {
    assert (owned + [o])[..|owned|] == owned;
  }

  /** Each package line adds one purchased package. */
  lemma {:induction false} ItemsOwned(b: Book, owned: seq<Owned>, g: Grant, lines: seq<Resolved>, c: Id, p: Id)
    requires ApplyItems(b, owned, g, lines).Ok?
    ensures OwnedCount(ApplyItems(b, owned, g, lines).value.1, c, p)
            == OwnedCount(owned, c, p) + if c == g.customer then PackageLines(lines, p) else 0
  {
    if lines == [] {
    } else {
      var n := |lines| - 1;
      ItemsUnfold(b, owned, g, lines);
      ItemsOwned(b, owned, g, lines[..n], c, p);
      if SellsPackage(lines[n]) {
        OwnedAppend(ApplyItems(b, owned, g, lines[..n]).value.1,
                    OwnedFor(g, lines[n].item, lines[n].item.ref.package, lines[n].pkg.value), c, p);
      }
    }
  }

  // ---- the invariant -------------------------------------------------------------------------------------

  /** Every payment belongs to one sale and covers it, every sale has at most one payment, and only open sales await
      payment, of exactly their total. */
  ghost predicate PaymentsOk(shop: Shop) {
    && (forall i :: 0 <= i < |shop.payments| ==> PaymentOk(shop, shop.payments[i]))
    && (forall i, j :: 0 <= i < j < |shop.payments| ==> Distinct(shop.payments[i], shop.payments[j]))
    && (forall id :: id in shop.sales && shop.sales[id].status == COMPLETED ==> HasPaid(shop, id))
  }

  ghost predicate PaymentOk(shop: Shop, p: Payment) {
    && p.sale in shop.sales && p.tenant == shop.sales[p.sale].tenant && p.amount >= 0
    && p.amount >= shop.sales[p.sale].total
    && (p.status == PENDING_PAYMENT ==> p.amount == shop.sales[p.sale].total)
    && (shop.sales[p.sale].status == COMPLETED ==> p.status == PAID)
    && (shop.sales[p.sale].status == OPEN ==> p.status == PENDING_PAYMENT)
  }

  ghost predicate Distinct(p: Payment, q: Payment) {
    && p.id != q.id && p.sale != q.sale
    && !(p.tenant == q.tenant && p.key.Some? && p.key == q.key)
    && !(p.reference.Some? && p.reference == q.reference)
  }

  ghost predicate HasPaid(shop: Shop, id: Id) {
    exists i :: 0 <= i < |shop.payments| && shop.payments[i].sale == id && shop.payments[i].status == PAID
  }

  /** An open sale has no ledger row; a completed one has exactly the rows of its package lines. */
  ghost predicate SaleMatches(setup: Setup, shop: Shop, rows: seq<Row>, id: Id) {
    if id in shop.sales then
      var s := shop.sales[id];
      && (s.status == OPEN || s.status == COMPLETED)
      && RowOk(setup, s)
      && CreditsOf(RowsOf(rows, Sale, id))
         == if s.status == COMPLETED && s.customer.Some?
            then LineCredits(s.customer.value, Lookup(setup.catalog, s.tenant, s.items)) else []
    else CreditsOf(RowsOf(rows, Sale, id)) == []
  }

  function PointsFrom(shop: Shop, c: Id, id: Id): int {
    if id in shop.sales && shop.sales[id].status == COMPLETED && shop.sales[id].customer == Some(c)
    then Points(shop.sales[id].total) else 0
  }

  function LinesFrom(setup: Setup, shop: Shop, c: Id, package: Id, id: Id): int {
    if id in shop.sales && shop.sales[id].status == COMPLETED && shop.sales[id].customer == Some(c)
    then PackageLines(Lookup(setup.catalog, shop.sales[id].tenant, shop.sales[id].items), package) else 0
  }

  /** Loyalty points are those of the customer's completed sales, each counted once. */
  ghost predicate LoyaltyOk(shop: Shop) {
    forall c :: LoyaltyOf(shop.loyalty, c) == SumOver(shop.sales.Keys, id => PointsFrom(shop, c, id))
  }

  /** Purchased packages are those of the customer's completed sales, one per package line. */
  ghost predicate OwnedOk(setup: Setup, shop: Shop) {
    forall c, p :: OwnedCount(shop.owned, c, p) == SumOver(shop.sales.Keys, id => LinesFrom(setup, shop, c, p, id))
  }

  /** Redemptions match their sales one to one, and a limited coupon is within its limit. */
  ghost predicate RedemptionsOk(setup: Setup, shop: Shop) {
    && (forall i :: 0 <= i < |shop.redemptions| ==>
          var r := shop.redemptions[i];
          && r.coupon in setup.coupons
          && r.sale in shop.sales && shop.sales[r.sale].coupon == Some(r.coupon)
          && r.amount == shop.sales[r.sale].discount)
    && (forall i, j :: 0 <= i < j < |shop.redemptions| ==> shop.redemptions[i].sale != shop.redemptions[j].sale)
    && (forall id :: id in shop.sales && shop.sales[id].coupon.Some? ==>
          exists i :: 0 <= i < |shop.redemptions| && shop.redemptions[i].sale == id)
    && (forall k :: k in setup.coupons ==> WithinLimit(setup.coupons[k], Redeemed(shop.redemptions, k)))
  }

  predicate WithinLimit(c: Coupon, redeemed: nat) {
    c.totalLimit.Some? && c.totalLimit.value != 0 ==> redeemed <= Max(0, c.totalLimit.value)
  }

  ghost predicate ShopInv(setup: Setup, shop: Shop, rows: seq<Row>) {
    && PaymentsOk(shop) && LoyaltyOk(shop) && OwnedOk(setup, shop) && RedemptionsOk(setup, shop)
    && forall id :: SaleMatches(setup, shop, rows, id)
  }

  /** Rows that other services write do not matter here. */
  lemma OtherServiceKeepsShop(setup: Setup, shop: Shop, b: Book, b': Book, t: RefType)
    requires ShopInv(setup, shop, b.rows) && t != Sale && GrowsBy(b, b', t)
    ensures ShopInv(setup, shop, b'.rows)
  {
    forall k
      ensures SaleMatches(setup, shop, b'.rows, k)
    {
      OtherTypesUnchanged(b.rows, b'.rows, t, Sale, k);
      assert SaleMatches(setup, shop, b.rows, k);
    }
  }

  // ---- steps that touch one sale -----------------------------------------------------------------------------

  /** The tables and ledger after a step that adds an open or paid sale, or completes an open one. */
  ghost predicate OneSale(setup: Setup, shop: Shop, shop': Shop, b: Book, b': Book, id: Id) {
    && id in shop'.sales && shop'.sales == shop.sales[id := shop'.sales[id]]
    && (id in shop.sales ==> shop.sales[id].status == OPEN
                             && shop'.sales[id] == shop.sales[id].(status := shop'.sales[id].status))
    && Continues(b, b', Sale, id)
    && (forall c :: LoyaltyOf(shop'.loyalty, c) == LoyaltyOf(shop.loyalty, c) + PointsFrom(shop', c, id))
    && (forall c, p ::
          OwnedCount(shop'.owned, c, p) == OwnedCount(shop.owned, c, p) + LinesFrom(setup, shop', c, p, id))
  }

  lemma OneSaleSums(setup: Setup, shop: Shop, shop': Shop, b: Book, b': Book, id: Id)
    requires LoyaltyOk(shop) && OwnedOk(setup, shop) && OneSale(setup, shop, shop', b, b', id)
    ensures LoyaltyOk(shop') && OwnedOk(setup, shop')
  {
    forall c
      ensures LoyaltyOf(shop'.loyalty, c) == SumOver(shop'.sales.Keys, k => PointsFrom(shop', c, k))
    {
      SumOverChange(shop.sales.Keys, shop'.sales.Keys, id, k => PointsFrom(shop, c, k), k => PointsFrom(shop', c, k));
    }
    forall c, p
      ensures OwnedCount(shop'.owned, c, p) == SumOver(shop'.sales.Keys, k => LinesFrom(setup, shop', c, p, k))
    {
      SumOverChange(shop.sales.Keys, shop'.sales.Keys, id, k => LinesFrom(setup, shop, c, p, k),
                    k => LinesFrom(setup, shop', c, p, k));
    }
  }

  lemma OneSaleMatches(setup: Setup, shop: Shop, shop': Shop, b: Book, b': Book, id: Id)
    requires forall k :: SaleMatches(setup, shop, b.rows, k)
    requires OneSale(setup, shop, shop', b, b', id) && SaleMatches(setup, shop', b'.rows, id)
    ensures forall k :: SaleMatches(setup, shop', b'.rows, k)
  {
    forall k
      ensures SaleMatches(setup, shop', b'.rows, k)
    {
      if k != id {
        OthersUnchanged(b.rows, b'.rows, Sale, id, Sale, k);
        assert SaleMatches(setup, shop, b.rows, k);
      }
    }
  }

  /** Delivery to the customer of sale id is one such step. */
  lemma DeliverIsOneSale(setup: Setup, shop: Shop, staged: Shop, b: Book, g: Grant, id: Id)
    requires staged.owned == shop.owned && staged.loyalty == shop.loyalty
    requires id in staged.sales && staged.sales == shop.sales[id := staged.sales[id]]
    requires id in shop.sales ==>
               shop.sales[id].status == OPEN && staged.sales[id] == shop.sales[id].(status := COMPLETED)
    requires staged.sales[id].status == COMPLETED
    requires g.sale == id && staged.sales[id].customer == Some(g.customer) && staged.sales[id].tenant == g.tenant
    requires CreditsOf(RowsOf(b.rows, Sale, id)) == [] && RowOk(setup, staged.sales[id])
    requires var lines := Lookup(setup.catalog, g.tenant, staged.sales[id].items);
             Deliver(staged, b, g, lines, staged.sales[id].total).Ok?
    ensures var lines := Lookup(setup.catalog, g.tenant, staged.sales[id].items);
            var (shop', b') := Deliver(staged, b, g, lines, staged.sales[id].total).value;
            OneSale(setup, shop, shop', b, b', id) && SaleMatches(setup, shop', b'.rows, id)
  {
    var s := staged.sales[id];
    var lines := Lookup(setup.catalog, g.tenant, s.items);
    var (shop', b') := Deliver(staged, b, g, lines, s.total).value;
    ItemsCredited(b, staged.owned, g, lines);
    forall c, p
      ensures OwnedCount(shop'.owned, c, p) == OwnedCount(shop.owned, c, p) + LinesFrom(setup, shop', c, p, id)
    {
      ItemsOwned(b, staged.owned, g, lines, c, p);
    }
  }

  lemma NothingDelivered(setup: Setup, shop: Shop, shop': Shop, b: Book, id: Id)
    requires id in shop'.sales && shop'.sales == shop.sales[id := shop'.sales[id]]
    requires shop'.owned == shop.owned && shop'.loyalty == shop.loyalty
    requires id in shop.sales ==> shop.sales[id].status == OPEN
                                  && shop'.sales[id] == shop.sales[id].(status := shop'.sales[id].status)
    requires shop'.sales[id].status == OPEN || (shop'.sales[id].status == COMPLETED && shop'.sales[id].customer.None?)
    requires CreditsOf(RowsOf(b.rows, Sale, id)) == [] && RowOk(setup, shop'.sales[id])
    ensures OneSale(setup, shop, shop', b, b, id) && SaleMatches(setup, shop', b.rows, id)
  {
  }

  // ---- creating ------------------------------------------------------------------------------------------------

  /** The line's own package is the one a later lookup finds, because the catalogue never edits a package. */
  lemma {:induction false} ResolvedIsLookup(cat: Catalog, tenant: Id, lines: seq<LineInput>, now: int)
    requires ResolveAll(cat, tenant, lines, now).Ok?
    ensures var resolved := ResolveAll(cat, tenant, lines, now).value;
            Lookup(cat, tenant, ItemsOf(resolved)) == resolved && RefsKnown(cat.packages, ItemsOf(resolved))
            && Multiplied(ItemsOf(resolved))
  {
    if lines == [] {
    } else {
      var n := |lines| - 1;
      ResolvedIsLookup(cat, tenant, lines[..n], now);
      var init := ResolveAll(cat, tenant, lines[..n], now).value;
      var resolved := ResolveAll(cat, tenant, lines, now).value;
      forall i | 0 <= i < |resolved|
        ensures Lookup(cat, tenant, ItemsOf(resolved))[i] == resolved[i]
        ensures resolved[i].item.ref.PackageRef? ==> resolved[i].item.ref.package in cat.packages
        ensures resolved[i].item.total == resolved[i].item.unitPrice * resolved[i].item.quantity
      {
        if i < n {
          assert resolved[i] == init[i] == Lookup(cat, tenant, ItemsOf(init))[i];
          assert ItemsOf(init)[i] == init[i].item;
        }
      }
    }
  }

  lemma RedeemedAppend(rs: seq<Redemption>, r: Redemption, k: CouponKey)
    ensures Redeemed(rs + [r], k) == Redeemed(rs, k) + if r.coupon == k then 1 else 0
  {
    assert (rs + [r])[..|rs|] == rs;
  }

  lemma LimitKept(c: Coupon, rs: seq<Redemption>, k: CouponKey, r: Redemption, now: int)
    requires WithinLimit(c, Redeemed(rs, k)) && (r.coupon == k ==> Usable(c, Redeemed(rs, k), now))
    ensures WithinLimit(c, Redeemed(rs + [r], k))
  {
    RedeemedAppend(rs, r, k);
  }

  /** A new sale redeems its coupon, if it has one, exactly once and within the limit. */
  lemma RedeemKeeps(setup: Setup, shop: Shop, shop': Shop, id: Id, s: SaleRow, now: int)
    requires RedemptionsOk(setup, shop) && id !in shop.sales && s.coupon.Some?
    requires shop'.sales == shop.sales[id := s]
    requires shop'.redemptions == shop.redemptions + [Redemption(s.coupon.value, s.customer, id, s.discount)]
    requires s.coupon.value in setup.coupons
             && Usable(setup.coupons[s.coupon.value], Redeemed(shop.redemptions, s.coupon.value), now)
    ensures RedemptionsOk(setup, shop')
  {
    var r := Redemption(s.coupon.value, s.customer, id, s.discount);
    forall k | k in setup.coupons
      ensures WithinLimit(setup.coupons[k], Redeemed(shop'.redemptions, k))
    {
      LimitKept(setup.coupons[k], shop.redemptions, k, r, now);
    }
    forall k | k in shop'.sales && shop'.sales[k].coupon.Some?
      ensures exists i :: 0 <= i < |shop'.redemptions| && shop'.redemptions[i].sale == k
    {
      if k == id {
        assert shop'.redemptions[|shop.redemptions|].sale == id;
      } else {
        var i :| 0 <= i < |shop.redemptions| && shop.redemptions[i].sale == k;
        assert shop'.redemptions[i].sale == k;
      }
    }
  }

  lemma NoCouponKeeps(setup: Setup, shop: Shop, shop': Shop, id: Id, s: SaleRow)
    requires RedemptionsOk(setup, shop) && id !in shop.sales && s.coupon.None?
    requires shop'.sales == shop.sales[id := s] && shop'.redemptions == shop.redemptions
    ensures RedemptionsOk(setup, shop')
  {
  }

  ghost predicate NewPaymentId(shop: Shop, payment: Id) {
    forall i :: 0 <= i < |shop.payments| ==> shop.payments[i].id != payment
  }

  /** A new sale with at most one payment: paid if the sale is completed, pending if it is open. */
  lemma AddPaymentKeeps(shop: Shop, shop': Shop, id: Id, s: SaleRow, p: Option<Payment>)
    requires PaymentsOk(shop) && id !in shop.sales && shop'.sales == shop.sales[id := s]
    requires s.status == OPEN || s.status == COMPLETED
    requires s.status == COMPLETED ==> p.Some?
    requires shop'.payments == if p.Some? then shop.payments + [p.value] else shop.payments
    requires p.Some? ==>
               && p.value.sale == id && p.value.tenant == s.tenant && p.value.amount >= 0
               && p.value.amount >= s.total && (s.status == OPEN ==> p.value.amount == s.total)
               && p.value.status == (if s.status == COMPLETED then PAID else PENDING_PAYMENT)
               && NewPaymentId(shop, p.value.id)
               && forall i :: 0 <= i < |shop.payments| ==>
                    && !(shop.payments[i].tenant == s.tenant && p.value.key.Some?
                         && shop.payments[i].key == p.value.key)
                    && !(p.value.reference.Some? && shop.payments[i].reference == p.value.reference)
    ensures PaymentsOk(shop')
  {
    forall i | 0 <= i < |shop'.payments|
      ensures PaymentOk(shop', shop'.payments[i])
    {
      if i < |shop.payments| {
        assert PaymentOk(shop, shop.payments[i]);
      }
    }
    forall i, j | 0 <= i < j < |shop'.payments|
      ensures Distinct(shop'.payments[i], shop'.payments[j])
    {
      if j < |shop.payments| {
        assert Distinct(shop.payments[i], shop.payments[j]);
      } else {
        assert PaymentOk(shop, shop.payments[i]);
      }
    }
    forall k | k in shop'.sales && shop'.sales[k].status == COMPLETED
      ensures HasPaid(shop', k)
    {
      if k == id {
        assert shop'.payments[|shop.payments|].sale == id;
      } else {
        assert HasPaid(shop, k);
        var i :| 0 <= i < |shop.payments| && shop.payments[i].sale == k && shop.payments[i].status == PAID;
        assert shop'.payments[i] == shop.payments[i];
      }
    }
  }

  lemma {:induction false} NothingPaid(payments: seq<Payment>, id: Id)
    requires forall i :: 0 <= i < |payments| ==> payments[i].sale != id
    ensures PaidTotal(payments, id) == 0
  {
    if payments == [] {
    } else {
      NothingPaid(payments[..|payments| - 1], id);
    }
  }

  /** The tables a checked sale leaves behind: its row, its payment, its redemption; the rest is delivery. */
  lemma RecordShape(shop: Shop, b: Book, dto: SaleInput, key: Option<string>, resolved: seq<Resolved>, s: SaleRow,
                    id: Id, payment: Id)
    requires Record(shop, b, dto, key, resolved, s, id, payment).Ok?
    ensures var shop' := Record(shop, b, dto, key, resolved, s, id, payment).value.0;
            var p := PaymentOf(dto, s.tenant, key, id, payment);
            && shop'.sales == shop.sales[id := s] && shop'.refunds == shop.refunds
            && shop'.payments == (if p.Some? then shop.payments + [p.value] else shop.payments)
            && shop'.redemptions == Redeem(shop, id, s).redemptions
            && (p.Some? && key.Some? ==> forall i :: 0 <= i < |shop.payments| ==>
                  !(shop.payments[i].tenant == s.tenant && shop.payments[i].key == key))
  {
  }

  /** The payment row of a sale paid at once. */
  function PaymentOf(dto: SaleInput, tenant: Id, key: Option<string>, id: Id, payment: Id): Option<Payment> {
    if dto.payment.None? then None
    else Some(Payment(payment, tenant, id, dto.payment.value.how, PAID, dto.payment.value.amount, None, key, None))
  }

  lemma RecordIsOneSale(setup: Setup, shop: Shop, b: Book, dto: SaleInput, key: Option<string>, resolved: seq<Resolved>,
                        s: SaleRow, id: Id, payment: Id)
    requires SaleMatches(setup, shop, b.rows, id) && id !in shop.sales && RowOk(setup, s)
    requires s.status == if dto.payment.Some? then COMPLETED else OPEN
    requires Lookup(setup.catalog, s.tenant, s.items) == resolved
    requires Record(shop, b, dto, key, resolved, s, id, payment).Ok?
    ensures var (shop', b') := Record(shop, b, dto, key, resolved, s, id, payment).value;
            OneSale(setup, shop, shop', b, b', id) && SaleMatches(setup, shop', b'.rows, id)
  {
    var (shop', b') := Record(shop, b, dto, key, resolved, s, id, payment).value;
    RecordShape(shop, b, dto, key, resolved, s, id, payment);
    if dto.payment.None? || s.customer.None? {
      NothingDelivered(setup, shop, shop', b, id);
    } else {
      var p := PaymentOf(dto, s.tenant, key, id, payment).value;
      var staged := Redeem(shop.(sales := shop.sales[id := s], payments := shop.payments + [p]), id, s);
      DeliverIsOneSale(setup, shop, staged, b, Grant(s.tenant, s.employee, s.customer.value, id), id);
    }
  }

  /** Recording a checked sale keeps the invariant. */
  lemma RecordKeeps(setup: Setup, shop: Shop, b: Book, user: Principal, dto: SaleInput, key: Option<string>,
                    resolved: seq<Resolved>, id: Id, payment: Id, now: int)
    requires ShopInv(setup, shop, b.rows) && id !in shop.sales && NewPaymentId(shop, payment)
    requires ResolveAll(setup.catalog, user.tenant, dto.lines, now) == Ok(resolved)
    requires dto.payment.Some? ==> dto.payment.value.amount >= NewSale(setup, shop, user, dto, resolved, now).total
    requires Record(shop, b, dto, key, resolved, NewSale(setup, shop, user, dto, resolved, now), id, payment).Ok?
    ensures var (shop', b') := Record(shop, b, dto, key, resolved, NewSale(setup, shop, user, dto, resolved, now), id,
                                      payment).value;
            ShopInv(setup, shop', b'.rows) && Continues(b, b', Sale, id)
  {
    var s := NewSale(setup, shop, user, dto, resolved, now);
    var (shop', b') := Record(shop, b, dto, key, resolved, s, id, payment).value;
    NewSaleAmounts(setup, shop, user, dto, resolved, now);
    ResolvedIsLookup(setup.catalog, user.tenant, dto.lines, now);
    assert SaleMatches(setup, shop, b.rows, id);
    RecordShape(shop, b, dto, key, resolved, s, id, payment);
    RecordIsOneSale(setup, shop, b, dto, key, resolved, s, id, payment);
    RecordStep(setup, shop, shop', b, b', s, id, PaymentOf(dto, s.tenant, key, id, payment), now);
  }

  /** Any step with the shape of a recorded sale keeps the invariant. */
  lemma RecordStep(setup: Setup, shop: Shop, shop': Shop, b: Book, b': Book, s: SaleRow, id: Id, p: Option<Payment>,
                   now: int)
    requires ShopInv(setup, shop, b.rows) && id !in shop.sales
    requires OneSale(setup, shop, shop', b, b', id) && SaleMatches(setup, shop', b'.rows, id) && shop'.sales[id] == s
    requires p.Some? <==> s.status == COMPLETED
    requires shop'.payments == if p.Some? then shop.payments + [p.value] else shop.payments
    requires p.Some? ==>
               && p.value.sale == id && p.value.tenant == s.tenant && p.value.amount >= 0
               && p.value.amount >= s.total && p.value.status == PAID
               && NewPaymentId(shop, p.value.id) && p.value.reference.None?
               && (p.value.key.Some? ==> forall i :: 0 <= i < |shop.payments| ==>
                     !(shop.payments[i].tenant == s.tenant && shop.payments[i].key == p.value.key))
    requires shop'.redemptions == Redeem(shop, id, s).redemptions
    requires s.coupon.Some? ==> s.coupon.value in setup.coupons
                                && Usable(setup.coupons[s.coupon.value],
                                          Redeemed(shop.redemptions, s.coupon.value), now)
    ensures ShopInv(setup, shop', b'.rows)
  {
    if s.coupon.Some? {
      RedeemKeeps(setup, shop, shop', id, s, now);
    } else {
      NoCouponKeeps(setup, shop, shop', id, s);
    }
    AddPaymentKeeps(shop, shop', id, s, p);
    OneSaleSums(setup, shop, shop', b, b', id);
    OneSaleMatches(setup, shop, shop', b, b', id);
  }

  lemma CreateKeeps(setup: Setup, shop: Shop, b: Book, user: Principal, dto: SaleInput, key: Option<string>, id: Id,
                    payment: Id, now: int)
    requires ShopInv(setup, shop, b.rows) && id !in shop.sales && NewPaymentId(shop, payment)
    requires CreateSale(setup, shop, b, user, dto, key, id, payment, now).Ok?
    ensures var c := CreateSale(setup, shop, b, user, dto, key, id, payment, now).value;
            ShopInv(setup, c.shop, c.book.rows) && Continues(b, c.book, Sale, id)
  {
    if !(key.Some? && key.value != [] && FindByKey(shop.payments, user.tenant, key) < |shop.payments|) {
      var resolved := ResolveAll(setup.catalog, user.tenant, dto.lines, now).value;
      RecordKeeps(setup, shop, b, user, dto, key, resolved, id, payment, now);
    }
  }

  // ---- settling ---------------------------------------------------------------------------------------------------

  /** The payment named at settlement is one of the sale's own, as it is for every caller. */
  ghost predicate OwnPayment(shop: Shop, id: Id, payment: Option<Id>) {
    payment.None? || exists i :: 0 <= i < |shop.payments| && shop.payments[i].id == payment.value
                                 && shop.payments[i].sale == id
  }

  lemma OnePaymentEach(shop: Shop, i: nat, j: nat)
    requires PaymentsOk(shop) && i < |shop.payments| && j < |shop.payments| && i != j
    ensures Distinct(shop.payments[i], shop.payments[j]) && Distinct(shop.payments[j], shop.payments[i])
  {
    if i < j {
      assert Distinct(shop.payments[i], shop.payments[j]);
    } else {
      assert Distinct(shop.payments[j], shop.payments[i]);
    }
  }

  /** The sale's payment, if it has one, is the one to settle. */
  lemma TheOnePayment(shop: Shop, id: Id, payment: Option<Id>, i: nat)
    requires PaymentsOk(shop) && id in shop.sales && shop.sales[id].status == OPEN && OwnPayment(shop, id, payment)
    requires i < |shop.payments| && shop.payments[i].sale == id
    ensures PaymentToSettle(shop.payments, id, payment) == i
  {
    assert PaymentOk(shop, shop.payments[i]);
    var n := PaymentToSettle(shop.payments, id, payment);
    if n < |shop.payments| && n != i {
      OnePaymentEach(shop, i, n);
      assert false;
    }
  }

  lemma SettlePaymentKeeps(shop: Shop, shop': Shop, id: Id, how: Method, transaction: string, payment: Option<Id>,
                           newId: Id)
    requires PaymentsOk(shop) && id in shop.sales && shop.sales[id].status == OPEN && shop.sales[id].total >= 0
    requires OwnPayment(shop, id, payment) && NewPaymentId(shop, newId)
    requires shop'.sales == shop.sales[id := shop.sales[id].(status := COMPLETED)]
    requires shop'.payments == SettlePayment(shop.payments, shop.sales[id].tenant, id, shop.sales[id].total, how,
                                             transaction, payment, newId)
    ensures PaymentsOk(shop')
  {
    var n := PaymentToSettle(shop.payments, id, payment);
    forall i | 0 <= i < |shop.payments| && shop.payments[i].sale == id
      ensures i == n
    {
      TheOnePayment(shop, id, payment, i);
    }
    assert shop'.payments[n].sale == id && shop'.payments[n].status == PAID;
    forall i | 0 <= i < |shop'.payments|
      ensures PaymentOk(shop', shop'.payments[i])
    {
      if i < |shop.payments| {
        assert PaymentOk(shop, shop.payments[i]);
      }
    }
    forall i, j | 0 <= i < j < |shop'.payments|
      ensures Distinct(shop'.payments[i], shop'.payments[j])
    {
      if j < |shop.payments| {
        OnePaymentEach(shop, i, j);
      }
    }
    OthersStillPaid(shop, shop', id, n);
  }

  lemma OthersStillPaid(shop: Shop, shop': Shop, id: Id, n: nat)
    requires PaymentsOk(shop) && id in shop.sales && shop.sales[id].status == OPEN
    requires shop'.sales == shop.sales[id := shop.sales[id].(status := COMPLETED)]
    requires n < |shop'.payments| && shop'.payments[n].sale == id && shop'.payments[n].status == PAID
    requires forall i :: 0 <= i < |shop.payments| && i != n ==>
               i < |shop'.payments| && shop'.payments[i] == shop.payments[i]
    requires forall i :: 0 <= i < |shop.payments| && shop.payments[i].sale == id ==> i == n
    requires n < |shop.payments| ==> shop.payments[n].sale == id
    ensures forall k :: k in shop'.sales && shop'.sales[k].status == COMPLETED ==> HasPaid(shop', k)
  {
    forall k | k in shop'.sales && shop'.sales[k].status == COMPLETED
      ensures HasPaid(shop', k)
    {
      if k != id {
        assert HasPaid(shop, k);
        var i :| 0 <= i < |shop.payments| && shop.payments[i].sale == k && shop.payments[i].status == PAID;
        assert shop'.payments[i] == shop.payments[i];
      }
    }
  }

  lemma CompletingKeepsRedemptions(setup: Setup, shop: Shop, shop': Shop, id: Id)
    requires RedemptionsOk(setup, shop) && id in shop.sales && shop'.redemptions == shop.redemptions
    requires shop'.sales == shop.sales[id := shop.sales[id].(status := COMPLETED)]
    ensures RedemptionsOk(setup, shop')
  {
  }

  lemma SettleIsOneSale(setup: Setup, shop: Shop, b: Book, tenant: Id, actor: Id, id: Id, how: Method,
                        transaction: string, payment: Option<Id>, newId: Id)
    requires SaleMatches(setup, shop, b.rows, id) && id in shop.sales && shop.sales[id].status == OPEN
    requires Settle(setup, shop, b, tenant, actor, id, how, transaction, payment, newId).Ok?
    ensures var (shop', b') := Settle(setup, shop, b, tenant, actor, id, how, transaction, payment, newId).value;
            OneSale(setup, shop, shop', b, b', id) && SaleMatches(setup, shop', b'.rows, id)
  {
    var s := shop.sales[id];
    var (shop', b') := Settle(setup, shop, b, tenant, actor, id, how, transaction, payment, newId).value;
    if s.customer.None? {
      NothingDelivered(setup, shop, shop', b, id);
    } else {
      var staged := shop.(payments := shop'.payments, sales := shop'.sales);
      DeliverIsOneSale(setup, shop, staged, b, Grant(tenant, actor, s.customer.value, id), id);
    }
  }

  /** What a settlement does to sales, payments, redemptions and refunds. */
  lemma SettleTables(setup: Setup, shop: Shop, b: Book, tenant: Id, actor: Id, id: Id, how: Method, transaction: string,
                     payment: Option<Id>, newId: Id)
    requires Settle(setup, shop, b, tenant, actor, id, how, transaction, payment, newId).Ok?
    requires shop.sales[id].status == OPEN
    ensures var shop' := Settle(setup, shop, b, tenant, actor, id, how, transaction, payment, newId).value.0;
            && shop'.sales == shop.sales[id := shop.sales[id].(status := COMPLETED)]
            && shop'.refunds == shop.refunds && shop'.redemptions == shop.redemptions
            && shop'.payments == SettlePayment(shop.payments, tenant, id, shop.sales[id].total, how, transaction,
                                               payment, newId)
  {
  }

  lemma SettleKeeps(setup: Setup, shop: Shop, b: Book, tenant: Id, actor: Id, id: Id, how: Method, transaction: string,
                    payment: Option<Id>, newId: Id)
    requires ShopInv(setup, shop, b.rows) && OwnPayment(shop, id, payment) && NewPaymentId(shop, newId)
    requires Settle(setup, shop, b, tenant, actor, id, how, transaction, payment, newId).Ok?
    ensures var (shop', b') := Settle(setup, shop, b, tenant, actor, id, how, transaction, payment, newId).value;
            && ShopInv(setup, shop', b'.rows) && Continues(b, b', Sale, id)
            && id in shop'.sales && shop'.sales[id] == shop.sales[id].(status := COMPLETED)
  {
    assert SaleMatches(setup, shop, b.rows, id);
    if shop.sales[id].status == OPEN {
      var (shop', b') := Settle(setup, shop, b, tenant, actor, id, how, transaction, payment, newId).value;
      SettleTables(setup, shop, b, tenant, actor, id, how, transaction, payment, newId);
      SettleIsOneSale(setup, shop, b, tenant, actor, id, how, transaction, payment, newId);
      SettlePaymentKeeps(shop, shop', id, how, transaction, payment, newId);
      SettleStep(setup, shop, shop', b, b', id);
    }
  }

  /** Any step with the shape of a settlement keeps the invariant. */
  lemma SettleStep(setup: Setup, shop: Shop, shop': Shop, b: Book, b': Book, id: Id)
    requires ShopInv(setup, shop, b.rows) && PaymentsOk(shop')
    requires OneSale(setup, shop, shop', b, b', id) && SaleMatches(setup, shop', b'.rows, id)
    requires id in shop.sales && shop'.sales == shop.sales[id := shop.sales[id].(status := COMPLETED)]
    requires shop'.redemptions == shop.redemptions
    ensures ShopInv(setup, shop', b'.rows)
  {
    CompletingKeepsRedemptions(setup, shop, shop', id);
    OneSaleSums(setup, shop, shop', b, b', id);
    OneSaleMatches(setup, shop, shop', b, b', id);
  }
}
