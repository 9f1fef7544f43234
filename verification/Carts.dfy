/** What a cart becomes: the price of every line, the coupon that applies, and when a sale is refused. */
module Carts {
  import opened Common
  import opened Ledger
  import opened Catalogue
  import opened Sales
  import opened SaleProofs

  // ---- lines ----------------------------------------------------------------------------------------

  /** The tenant sells it: on the tenant's list, active and not deleted. */
  predicate SellsProduct(cat: Catalog, tenant: Id, id: Id) {
    id in cat.products && cat.products[id].tenant == tenant && cat.products[id].active && !cat.products[id].deleted
  }

  predicate SellsPackageId(cat: Catalog, tenant: Id, id: Id) {
    id in cat.packages && cat.packages[id].tenant == tenant && cat.packages[id].active && !cat.packages[id].deleted
  }

  /** The row has begun by now and has not ended. */
  predicate InForce(p: PriceRow, now: int) {
    p.validFrom <= now && (p.validTo.Some? ==> now < p.validTo.value)
  }

  /** A promotional price is set and its window, open at a missing end, contains now; the far end is outside. */
  predicate Promoted(p: PriceRow, now: int) {
    p.promo.Some? && (p.promoFrom.Some? ==> p.promoFrom.value <= now) && (p.promoTo.Some? ==> now < p.promoTo.value)
  }

  /** The price a package sells at: that of a row in force that no row in force is newer than, promoted or not. */
  ghost predicate IsPackagePrice(unit: nat, snapshot: Snapshot, pkg: Package, now: int) {
    exists p :: p in pkg.prices && InForce(p, now)
                && (forall q :: q in pkg.prices && InForce(q, now) ==> q.validFrom <= p.validFrom)
                && unit == (if Promoted(p, now) then p.promo.value else p.price)
                && snapshot == PackageSnapshot(unit, p.id, Promoted(p, now))
  }

  /** How a line is sold: its quantity, 1 if absent; its total, unit price times quantity; and the unit price, of the
      product, of the package, or its own. */
  ghost predicate PricedAs(cat: Catalog, tenant: Id, line: LineInput, now: int, item: Item) {
    && item.quantity == (match line.quantity case Some(q) => q case None => 1)
    && item.total == item.unitPrice * item.quantity
    && match line.kind
       case PRODUCT_LINE =>
         line.refId.Some? && SellsProduct(cat, tenant, line.refId.value)
         && item.ref == ProductRef(line.refId.value) && item.description == cat.products[line.refId.value].name
         && item.unitPrice == cat.products[line.refId.value].price
       case PACKAGE_LINE =>
         line.refId.Some? && SellsPackageId(cat, tenant, line.refId.value)
         && item.ref == PackageRef(line.refId.value) && item.description == cat.packages[line.refId.value].name
         && IsPackagePrice(item.unitPrice, item.snapshot, cat.packages[line.refId.value], now)
       case CUSTOM_LINE =>
         item.ref == NoRef && Some(item.unitPrice) == line.unitPrice && Some(item.description) == line.description
  }

  /** The refusal of a line: what it sells is not named, not sold here, or without a price now. */
  ghost function LineRefusal(cat: Catalog, tenant: Id, line: LineInput, now: int): Option<Error> {
    match line.kind
    case PRODUCT_LINE =>
      if line.refId == None then Some(VALIDATION_FAILED)
      else if !SellsProduct(cat, tenant, line.refId.value) then Some(NOT_FOUND) else None
    case PACKAGE_LINE =>
      if line.refId == None then Some(VALIDATION_FAILED)
      else if !SellsPackageId(cat, tenant, line.refId.value) then Some(NOT_FOUND)
      else if forall p :: p in cat.packages[line.refId.value].prices ==> !InForce(p, now) then Some(VALIDATION_FAILED)
      else None
    case CUSTOM_LINE =>
      if line.unitPrice == None || line.description == None || line.description == Some([]) then Some(VALIDATION_FAILED)
      else None
  }

  lemma PackagePriced(pkg: Package, id: Id, quantity: nat, now: int)
    ensures match ResolvePackage(pkg, id, quantity, now)
            case Ok(r) => IsPackagePrice(r.item.unitPrice, r.item.snapshot, pkg, now) && r.item.quantity == quantity
                          && r.item.total == r.item.unitPrice * quantity && r.item.ref == PackageRef(id)
                          && r.item.description == pkg.name
            case Err(e) => e == VALIDATION_FAILED && forall p :: p in pkg.prices ==> !InForce(p, now)
  {
    var row := Newest(pkg.prices, (p: PriceRow) => ValidAt(p, now));
    assert forall p :: ValidAt(p, now) <==> InForce(p, now);
    if row.Some? {
      assert InForce(row.value, now);
      assert InPromo(row.value, now) <==> Promoted(row.value, now);
    }
  }

  lemma LinePriced(cat: Catalog, tenant: Id, line: LineInput, now: int)
    ensures match ResolveItem(cat, tenant, line, now)
            case Ok(r) => LineRefusal(cat, tenant, line, now) == None && PricedAs(cat, tenant, line, now, r.item)
            case Err(e) => LineRefusal(cat, tenant, line, now) == Some(e)
  {
    if line.kind == PACKAGE_LINE && line.refId.Some? && SellsPackageId(cat, tenant, line.refId.value) {
      var quantity := if line.quantity.Some? then line.quantity.value else 1;
      var pkg := cat.packages[line.refId.value];
      PackagePriced(pkg, line.refId.value, quantity, now);
      if ResolvePackage(pkg, line.refId.value, quantity, now).Ok? {
        var r := ResolvePackage(pkg, line.refId.value, quantity, now).value;
        var p :| p in pkg.prices && InForce(p, now)
                 && (forall q :: q in pkg.prices && InForce(q, now) ==> q.validFrom <= p.validFrom)
                 && r.item.unitPrice == (if Promoted(p, now) then p.promo.value else p.price)
                 && r.item.snapshot == PackageSnapshot(r.item.unitPrice, p.id, Promoted(p, now));
        assert p in pkg.prices && InForce(p, now);
      }
    }
  }

  ghost predicate CartPriced(cat: Catalog, tenant: Id, lines: seq<LineInput>, now: int, items: seq<Item>) {
    |items| == |lines| && forall i :: 0 <= i < |lines| ==> PricedAs(cat, tenant, lines[i], now, items[i])
  }

  /** A cart is sold line by line; it is refused exactly when one of its lines is, with the first such line's error. */
  lemma {:induction false} LinesPriced(cat: Catalog, tenant: Id, lines: seq<LineInput>, now: int)
    ensures match ResolveAll(cat, tenant, lines, now)
            case Ok(r) =>
              && CartPriced(cat, tenant, lines, now, ItemsOf(r))
              && (forall i :: 0 <= i < |lines| ==> LineRefusal(cat, tenant, lines[i], now) == None)
            case Err(e) =>
              exists i :: 0 <= i < |lines| && LineRefusal(cat, tenant, lines[i], now) == Some(e)
                          && forall j :: 0 <= j < i ==> LineRefusal(cat, tenant, lines[j], now) == None
  {
    if lines == [] {
    } else {
      var n := |lines| - 1;
      LinesPriced(cat, tenant, lines[..n], now);
      LinePriced(cat, tenant, lines[n], now);
      var init := ResolveAll(cat, tenant, lines[..n], now);
      if init.Err? {
        var i :| 0 <= i < n && LineRefusal(cat, tenant, lines[..n][i], now) == Some(init.error)
                 && forall j :: 0 <= j < i ==> LineRefusal(cat, tenant, lines[..n][j], now) == None;
        forall j | 0 <= j < i
          ensures LineRefusal(cat, tenant, lines[j], now) == None
        {
          assert lines[..n][j] == lines[j];
        }
        assert lines[..n][i] == lines[i];
      } else {
        forall i | 0 <= i < n
          ensures LineRefusal(cat, tenant, lines[i], now) == None
          ensures PricedAs(cat, tenant, lines[i], now, ItemsOf(init.value)[i])
        {
          assert lines[..n][i] == lines[i];
        }
      }
    }
  }

  // ---- the coupon -----------------------------------------------------------------------------------

  /** The coupon is active, within its dates at both ends, and redeemed less often than its limit, if it has one. */
  predicate CouponUsable(c: Coupon, redeemed: nat, now: int) {
    && c.active
    && (c.startsAt.Some? ==> c.startsAt.value <= now) && (c.endsAt.Some? ==> now <= c.endsAt.value)
    && (c.totalLimit.Some? && c.totalLimit.value != 0 ==> redeemed < c.totalLimit.value)
  }

  /** A code is looked up in upper case among the tenant's coupons; it applies exactly if it finds a usable one. */
  lemma CouponAppliesIff(setup: Setup, shop: Shop, tenant: Id, code: Option<string>, now: int)
    ensures var k := CouponFor(setup, shop, tenant, code, now);
            && (k.Some? <==>
                  code.Some? && code.value != [] && (tenant, setup.upper(code.value)) in setup.coupons
                  && CouponUsable(setup.coupons[(tenant, setup.upper(code.value))],
                                  Redeemed(shop.redemptions, (tenant, setup.upper(code.value))), now))
            && (k.Some? ==> k.value == (tenant, setup.upper(code.value)))
  {
  }

  // ---- the whole call ---------------------------------------------------------------------------------

  predicate Replayed(shop: Shop, tenant: Id, key: Option<string>) {
    key.Some? && key.value != [] && exists i :: 0 <= i < |shop.payments| && shop.payments[i].tenant == tenant
                                                && shop.payments[i].key == key
  }

  /** The row of a new sale: whose it is, its priced lines, their sum, the discount of the coupon that applies and of no
      other, and open without a payment, completed with one. */
  ghost predicate IsSaleOf(setup: Setup, shop: Shop, user: Principal, dto: SaleInput, now: int, s: SaleRow) {
    && s.tenant == user.tenant && s.branch == dto.branch && s.customer == dto.customer && s.shift == dto.shift
    && s.employee == user.employee && s.status == (if dto.payment.Some? then COMPLETED else OPEN)
    && CartPriced(setup.catalog, user.tenant, dto.lines, now, s.items) && s.subtotal == Subtotal(s.items)
    && s.coupon == CouponFor(setup, shop, user.tenant, dto.coupon, now)
    && s.discount == (if s.coupon.Some? && s.coupon.value in setup.coupons
                      then CouponDiscount(setup.coupons[s.coupon.value], s.subtotal) else 0)
    && s.total == s.subtotal - s.discount
    && s.vat == (if user.tenant in setup.vat then setup.vat[user.tenant] else 17)
  }

  lemma NewSaleIsOfCart(setup: Setup, shop: Shop, user: Principal, dto: SaleInput, resolved: seq<Resolved>, now: int)
    requires ResolveAll(setup.catalog, user.tenant, dto.lines, now) == Ok(resolved)
    ensures IsSaleOf(setup, shop, user, dto, now, NewSale(setup, shop, user, dto, resolved, now))
    ensures HasPackage(resolved) <==> exists i :: 0 <= i < |dto.lines| && dto.lines[i].kind == PACKAGE_LINE
  {
    LinesPriced(setup.catalog, user.tenant, dto.lines, now);
    var items := ItemsOf(resolved);
    forall i | 0 <= i < |dto.lines|
      ensures resolved[i].item.ref.PackageRef? <==> dto.lines[i].kind == PACKAGE_LINE
    {
      assert PricedAs(setup.catalog, user.tenant, dto.lines[i], now, items[i]);
    }
    if HasPackage(resolved) {
      var i :| 0 <= i < |resolved| && resolved[i].item.ref.PackageRef?;
      assert dto.lines[i].kind == PACKAGE_LINE;
    }
    if i :| 0 <= i < |dto.lines| && dto.lines[i].kind == PACKAGE_LINE {
      assert resolved[i].item.ref.PackageRef?;
    }
  }

  /** A sale that a call made, and its payment: the one that was tendered, at least the total. */
  ghost predicate MadeSale(setup: Setup, shop: Shop, user: Principal, dto: SaleInput, key: Option<string>, id: Id,
                           payment: Id, now: int, shop': Shop)
  {
    && id in shop'.sales && shop'.sales == shop.sales[id := shop'.sales[id]]
    && IsSaleOf(setup, shop, user, dto, now, shop'.sales[id])
    && match dto.payment
       case None => shop'.payments == shop.payments
       case Some(p) =>
         p.amount >= shop'.sales[id].total
         && shop'.payments
            == shop.payments + [Payment(payment, user.tenant, id, p.how, PAID, p.amount, None, key, None)]
  }

  /** What an accepted call that is no replay has passed. */
  ghost predicate Passed(setup: Setup, shop: Shop, user: Principal, dto: SaleInput, key: Option<string>, now: int) {
    && (user.branches != {} ==> dto.branch in user.branches)
    && (forall i :: 0 <= i < |dto.lines| ==> LineRefusal(setup.catalog, user.tenant, dto.lines[i], now) == None)
    && (dto.customer == None ==> forall i :: 0 <= i < |dto.lines| ==> dto.lines[i].kind != PACKAGE_LINE)
    && (dto.customer.Some? ==> dto.customer.value in setup.customers)
    && (dto.payment.Some? && key.Some? ==> FindByKey(shop.payments, user.tenant, key) == |shop.payments|)
  }

  lemma ReplayedIsFound(shop: Shop, tenant: Id, key: Option<string>)
    ensures Replayed(shop, tenant, key)
            <==> key.Some? && key.value != [] && FindByKey(shop.payments, tenant, key) < |shop.payments|
  {
  }

  /** What a call that is no replay records. */
  lemma RecordedSale(setup: Setup, shop: Shop, b: Book, user: Principal, dto: SaleInput, key: Option<string>, id: Id,
                     payment: Id, now: int)
    requires CreateSale(setup, shop, b, user, dto, key, id, payment, now).Ok? && !Replayed(shop, user.tenant, key)
    ensures ResolveAll(setup.catalog, user.tenant, dto.lines, now).Ok?
            && var resolved := ResolveAll(setup.catalog, user.tenant, dto.lines, now).value;
               var sale := NewSale(setup, shop, user, dto, resolved, now);
               var c := CreateSale(setup, shop, b, user, dto, key, id, payment, now).value;
               && InScope(user, dto.branch) && (HasPackage(resolved) ==> dto.customer.Some?)
               && (dto.payment.Some? ==> dto.payment.value.amount >= sale.total)
               && (dto.customer.Some? ==> dto.customer.value in setup.customers)
               && c.sale == id
               && Record(shop, b, dto, key, resolved, sale, id, payment) == Ok((c.shop, c.book))
  {
    ReplayedIsFound(shop, user.tenant, key);
  }

  lemma MadeOfCart(setup: Setup, shop: Shop, b: Book, user: Principal, dto: SaleInput, key: Option<string>, id: Id,
                   payment: Id, now: int, resolved: seq<Resolved>)
    requires ResolveAll(setup.catalog, user.tenant, dto.lines, now) == Ok(resolved)
    requires var sale := NewSale(setup, shop, user, dto, resolved, now);
             && (dto.payment.Some? ==> dto.payment.value.amount >= sale.total)
             && Record(shop, b, dto, key, resolved, sale, id, payment).Ok?
    ensures var sale := NewSale(setup, shop, user, dto, resolved, now);
            MadeSale(setup, shop, user, dto, key, id, payment, now,
                     Record(shop, b, dto, key, resolved, sale, id, payment).value.0)
  {
    NewSaleIsOfCart(setup, shop, user, dto, resolved, now);
    RecordShape(shop, b, dto, key, resolved, NewSale(setup, shop, user, dto, resolved, now), id, payment);
  }

  /** An accepted call returns the first sale of a used, non-empty key and changes nothing; otherwise it makes a sale of
      the cart, with the payment tendered, which covers the total. */
  lemma AcceptedSale(setup: Setup, shop: Shop, b: Book, user: Principal, dto: SaleInput, key: Option<string>, id: Id,
                     payment: Id, now: int)
    requires CreateSale(setup, shop, b, user, dto, key, id, payment, now).Ok?
    ensures var c := CreateSale(setup, shop, b, user, dto, key, id, payment, now).value;
            if Replayed(shop, user.tenant, key) then
              c.shop == shop && c.book == b
              && exists i :: 0 <= i < |shop.payments| && shop.payments[i].tenant == user.tenant
                             && shop.payments[i].key == key && shop.payments[i].sale == c.sale
            else c.sale == id && Passed(setup, shop, user, dto, key, now)
                 && MadeSale(setup, shop, user, dto, key, id, payment, now, c.shop)
  {
    ReplayedIsFound(shop, user.tenant, key);
    if !Replayed(shop, user.tenant, key) {
      RecordedSale(setup, shop, b, user, dto, key, id, payment, now);
      var resolved := ResolveAll(setup.catalog, user.tenant, dto.lines, now).value;
      LinesPriced(setup.catalog, user.tenant, dto.lines, now);
      NewSaleIsOfCart(setup, shop, user, dto, resolved, now);
      MadeOfCart(setup, shop, b, user, dto, key, id, payment, now, resolved);
      assert Passed(setup, shop, user, dto, key, now);
    }
  }

  /** The reasons to refuse a call that is no replay, each with its error. */
  ghost predicate Reason(setup: Setup, shop: Shop, user: Principal, dto: SaleInput, key: Option<string>, now: int,
                         e: Error)
  {
    || (e == FORBIDDEN && user.branches != {} && dto.branch !in user.branches)
    || (exists i :: 0 <= i < |dto.lines| && LineRefusal(setup.catalog, user.tenant, dto.lines[i], now) == Some(e))
    || (e == VALIDATION_FAILED && dto.customer == None
        && exists i :: 0 <= i < |dto.lines| && dto.lines[i].kind == PACKAGE_LINE)
    || (e == VALIDATION_FAILED && dto.payment.Some?
        && exists s :: IsSaleOf(setup, shop, user, dto, now, s) && dto.payment.value.amount < s.total)
    || (e == FOREIGN_KEY_VIOLATION && dto.customer.Some? && dto.customer.value !in setup.customers)
    || (e == UNIQUE_VIOLATION && dto.payment.Some? && key.Some?
        && FindByKey(shop.payments, user.tenant, key) < |shop.payments|)
    || (e == INSUFFICIENT_BALANCE && dto.payment.Some? && dto.customer.Some?
        && TakesCredit(setup, user.tenant, dto.lines))
  }

  /** A line sells a package that credits less than nothing. */
  ghost predicate TakesCredit(setup: Setup, tenant: Id, lines: seq<LineInput>) {
    exists i :: 0 <= i < |lines| && lines[i].kind == PACKAGE_LINE && lines[i].refId.Some?
                && SellsPackageId(setup.catalog, tenant, lines[i].refId.value)
                && Negative(Credits(setup.catalog.packages[lines[i].refId.value]))
  }

  predicate Negative(credits: seq<(Unit, int)>) {
    exists j :: 0 <= j < |credits| && credits[j].1 < 0
  }

  /** A refused call had one of the reasons: a sound cart, fully paid, is never refused. */
  lemma RefusedSale(setup: Setup, shop: Shop, b: Book, user: Principal, dto: SaleInput, key: Option<string>, id: Id,
                    payment: Id, now: int)
    requires CreateSale(setup, shop, b, user, dto, key, id, payment, now).Err? && Replays(b)
    ensures Reason(setup, shop, user, dto, key, now,
                   CreateSale(setup, shop, b, user, dto, key, id, payment, now).error)
  {
    LinesPriced(setup.catalog, user.tenant, dto.lines, now);
    if ResolveAll(setup.catalog, user.tenant, dto.lines, now).Ok? {
      var resolved := ResolveAll(setup.catalog, user.tenant, dto.lines, now).value;
      var sale := NewSale(setup, shop, user, dto, resolved, now);
      NewSaleIsOfCart(setup, shop, user, dto, resolved, now);
      if Record(shop, b, dto, key, resolved, sale, id, payment).Err? {
        RefusedRecord(setup, shop, b, user, dto, key, resolved, sale, id, payment, now);
      }
    }
  }

  lemma RefusedRecord(setup: Setup, shop: Shop, b: Book, user: Principal, dto: SaleInput, key: Option<string>,
                      resolved: seq<Resolved>, sale: SaleRow, id: Id, payment: Id, now: int)
    requires ResolveAll(setup.catalog, user.tenant, dto.lines, now) == Ok(resolved) && Replays(b)
    requires sale.tenant == user.tenant && sale.customer == dto.customer
    requires Record(shop, b, dto, key, resolved, sale, id, payment).Err?
    ensures var e := Record(shop, b, dto, key, resolved, sale, id, payment).error;
            || (e == UNIQUE_VIOLATION && dto.payment.Some? && key.Some?
                && FindByKey(shop.payments, user.tenant, key) < |shop.payments|)
            || (e == INSUFFICIENT_BALANCE && dto.payment.Some? && dto.customer.Some?
                && TakesCredit(setup, user.tenant, dto.lines))
  {
    if !(key.Some? && FindByKey(shop.payments, user.tenant, key) < |shop.payments|) {
      var g := Grant(sale.tenant, sale.employee, sale.customer.value, id);
      ItemsFailOnlyNegative(b, shop.owned, g, resolved);
      var i :| 0 <= i < |resolved| && SellsPackage(resolved[i]) && Negative(Credits(resolved[i].pkg.value));
      LinesPriced(setup.catalog, user.tenant, dto.lines, now);
      ResolvedIsLookup(setup.catalog, user.tenant, dto.lines, now);
      assert PricedAs(setup.catalog, user.tenant, dto.lines[i], now, ItemsOf(resolved)[i]);
      assert resolved[i] == Lookup(setup.catalog, user.tenant, ItemsOf(resolved))[i];
      assert dto.lines[i].kind == PACKAGE_LINE;
    }
  }

  lemma {:induction false} CreditsFailOnlyNegative(b: Book, g: Grant, credits: seq<(Unit, int)>)
    requires Replays(b)
    ensures match ApplyCredits(b, g, credits)
            case Ok(b') => Replays(b')
            case Err(e) => e == INSUFFICIENT_BALANCE && Negative(credits)
  {
    if credits == [] {
    } else {
      var n := |credits| - 1;
      CreditsFailOnlyNegative(b, g, credits[..n]);
      if ApplyCredits(b, g, credits[..n]).Ok? {
        var b1 := ApplyCredits(b, g, credits[..n]).value;
        var d := CreditDelta(g, credits[n]);
        RefusedIffOverdraft(b1, d);
        if Apply(b1, d).Ok? {
          ApplyReplays(b1, d);
        }
      } else {
        var j :| 0 <= j < n && credits[..n][j].1 < 0;
        assert credits[j].1 < 0;
      }
    }
  }

  lemma {:induction false} ItemsFailOnlyNegative(b: Book, owned: seq<Owned>, g: Grant, lines: seq<Resolved>)
    requires Replays(b)
    ensures match ApplyItems(b, owned, g, lines)
            case Ok((b', _)) => Replays(b')
            case Err(e) =>
              e == INSUFFICIENT_BALANCE
              && exists i :: 0 <= i < |lines| && SellsPackage(lines[i]) && Negative(Credits(lines[i].pkg.value))
  {
    if lines == [] {
    } else {
      var n := |lines| - 1;
      ItemsFailOnlyNegative(b, owned, g, lines[..n]);
      if ApplyItems(b, owned, g, lines[..n]).Ok? {
        if SellsPackage(lines[n]) {
          CreditsFailOnlyNegative(ApplyItems(b, owned, g, lines[..n]).value.0, g, Credits(lines[n].pkg.value));
        }
      } else {
        var i :| 0 <= i < n && SellsPackage(lines[..n][i]) && Negative(Credits(lines[..n][i].pkg.value));
        assert SellsPackage(lines[i]) && Negative(Credits(lines[i].pkg.value));
      }
    }
  }

  // ---- what a settlement writes ---------------------------------------------------------------------------

  /** Every new row is a PACKAGE credit of the grant's tenant, customer and sale, by its actor. */
  ghost predicate CreditedBy(b: Book, b': Book, g: Grant) {
    && |b.rows| <= |b'.rows| && b'.rows[..|b.rows|] == b.rows
    && forall i :: |b.rows| <= i < |b'.rows| ==>
         && b'.rows[i].kind == PACKAGE && b'.rows[i].tenant == g.tenant && b'.rows[i].customer == g.customer
         && b'.rows[i].refType == Sale && b'.rows[i].refId == g.sale && b'.rows[i].actor == g.actor
  }

  lemma CreditedTwiceBy(b: Book, b1: Book, b2: Book, g: Grant)
    requires CreditedBy(b, b1, g) && CreditedBy(b1, b2, g)
    ensures CreditedBy(b, b2, g)
  {
    assert b2.rows[..|b.rows|] == b2.rows[..|b1.rows|][..|b.rows|];
    forall i | |b.rows| <= i < |b1.rows|
      ensures b2.rows[i] == b1.rows[i]
    {
      assert b2.rows[i] == b2.rows[..|b1.rows|][i];
    }
  }

  lemma {:induction false} CreditsRecorded(b: Book, g: Grant, credits: seq<(Unit, int)>)
    requires ApplyCredits(b, g, credits).Ok?
    ensures CreditedBy(b, ApplyCredits(b, g, credits).value, g)
  {
    if credits == [] {
    } else {
      var n := |credits| - 1;
      var b1 := ApplyCredits(b, g, credits[..n]).value;
      CreditsRecorded(b, g, credits[..n]);
      ApplyRecords(b1, CreditDelta(g, credits[n]));
      CreditedTwiceBy(b, b1, Apply(b1, CreditDelta(g, credits[n])).value, g);
    }
  }

  /** Delivering the lines of a sale writes only such rows. */
  lemma {:induction false} ItemsRecorded(b: Book, owned: seq<Owned>, g: Grant, lines: seq<Resolved>)
    requires ApplyItems(b, owned, g, lines).Ok?
    ensures CreditedBy(b, ApplyItems(b, owned, g, lines).value.0, g)
  {
    if lines == [] {
    } else {
      var n := |lines| - 1;
      ItemsUnfold(b, owned, g, lines);
      ItemsRecorded(b, owned, g, lines[..n]);
      if SellsPackage(lines[n]) {
        var b1 := ApplyItems(b, owned, g, lines[..n]).value.0;
        CreditsRecorded(b1, g, Credits(lines[n].pkg.value));
        CreditedTwiceBy(b, b1, ApplyItems(b, owned, g, lines).value.0, g);
      }
    }
  }

  /** The payment a settlement completes: the named one of the sale, or without a name a pending one, keeping all but
      its status and transaction; without such a payment a new one of the total, by the method given. */
  lemma SettlementPays(payments: seq<Payment>, tenant: Id, sale: Id, total: int, how: Method, transaction: string,
                       payment: Option<Id>, newId: Id)
    ensures var after := SettlePayment(payments, tenant, sale, total, how, transaction, payment, newId);
            if exists i :: 0 <= i < |payments| && Settles(payments[i], sale, payment) then
              |after| == |payments|
              && exists i :: 0 <= i < |payments| && Settles(payments[i], sale, payment)
                             && after[i] == payments[i].(status := PAID, pspToken := Some(transaction))
                             && forall j :: 0 <= j < |payments| && j != i ==> after[j] == payments[j]
            else
              |after| == |payments| + 1 && after[..|payments|] == payments
              && var p := after[|payments|];
                 && p.id == newId && p.tenant == tenant && p.sale == sale && p.how == how && p.status == PAID
                 && p.amount == total && p.pspToken == Some(transaction) && p.key == None && p.reference == None
  {
    var i := PaymentToSettle(payments, sale, payment);
    if i < |payments| {
      assert Settles(payments[i], sale, payment);
    } else {
      NoneToSettle(payments, sale, payment);
    }
  }

  predicate Settles(p: Payment, sale: Id, payment: Option<Id>) {
    p.sale == sale && if payment.Some? then p.id == payment.value else p.status == PENDING_PAYMENT
  }

  lemma NoneToSettle(payments: seq<Payment>, sale: Id, payment: Option<Id>)
    requires PaymentToSettle(payments, sale, payment) == |payments|
    ensures forall i :: 0 <= i < |payments| ==> !Settles(payments[i], sale, payment)
  {
    forall i | 0 <= i < |payments|
      ensures !Settles(payments[i], sale, payment)
    {
      if payment.Some? {
        var f := (p: Payment) => p.id == payment.value && p.sale == sale;
        assert !f(payments[i]);
      } else {
        var f := (p: Payment) => p.sale == sale && p.status == PENDING_PAYMENT;
        assert !f(payments[i]);
      }
    }
  }

  // ---- what a purchased package holds, and refunds -------------------------------------------------------

  /** The purchased package holds what the line credited, and remembers what was paid for the line and how. */
  lemma OwnedHolds(g: Grant, item: Item, package: Id, pkg: Package)
    ensures var o := OwnedFor(g, item, package, pkg);
            && o.tenant == g.tenant && o.customer == g.customer && o.package == package
            && o.time == (if pkg.kind == TIME then 60 * pkg.config.minutes + 60 * pkg.bonus.time else 0)
            && o.money == (if pkg.kind == MONEY_VALUE then pkg.config.moneyValue + pkg.bonus.money else 0)
            && o.bw == (if pkg.kind == PRINT_PAGES then pkg.config.bwPages else 0)
            && o.color == (if pkg.kind == PRINT_PAGES then pkg.config.colorPages else 0)
            && o.purchasePrice == item.total && o.snapshot == item.snapshot
  {
    CreditsByUnit(pkg);
  }

  /** What a sale's completed payments sum to. */
  lemma {:induction false} PaidByOne(payments: seq<Payment>, sale: Id, i: nat)
    requires i < |payments| && payments[i].sale == sale
    requires forall j :: 0 <= j < |payments| && j != i ==> payments[j].sale != sale
    ensures PaidTotal(payments, sale) == if payments[i].status == PAID then payments[i].amount else 0
  {
    var n := |payments| - 1;
    if i == n {
      NothingPaid(payments[..n], sale);
    } else {
      PaidByOne(payments[..n], sale, i);
    }
  }

  /** A refund needs the permission, the tenant's own sale in scope and no more than the sale's completed payment; it
      records that amount for that sale and changes nothing else. */
  lemma RefundAcceptedIff(setup: Setup, shop: Shop, rows: seq<Row>, user: Principal, mayRefund: bool, id: Id,
                          amount: nat)
    requires ShopInv(setup, shop, rows)
    ensures match RefundSale(shop, user, mayRefund, id, amount)
            case Ok(shop') =>
              && mayRefund && id in shop.sales && shop.sales[id].tenant == user.tenant
              && (user.branches != {} ==> shop.sales[id].branch in user.branches)
              && (amount == 0 || exists i :: 0 <= i < |shop.payments| && shop.payments[i].sale == id
                                             && shop.payments[i].status == PAID && amount <= shop.payments[i].amount)
              && shop' == shop.(refunds := shop.refunds + [Refund(id, amount)])
            case Err(e) =>
              if !mayRefund then e == FORBIDDEN
              else if !(id in shop.sales && shop.sales[id].tenant == user.tenant) then e == NOT_FOUND
              else if user.branches != {} && shop.sales[id].branch !in user.branches then e == FORBIDDEN
              else e == VALIDATION_FAILED && amount > 0
                   && forall i :: 0 <= i < |shop.payments| ==>
                        shop.payments[i].sale == id && shop.payments[i].status == PAID ==>
                          amount > shop.payments[i].amount
  {
    if i :| 0 <= i < |shop.payments| && shop.payments[i].sale == id {
      forall j | 0 <= j < |shop.payments| && j != i
        ensures shop.payments[j].sale != id
      {
        OnePaymentEach(shop, i, j);
      }
      PaidByOne(shop.payments, id, i);
    } else {
      NothingPaid(shop.payments, id);
    }
  }
}
