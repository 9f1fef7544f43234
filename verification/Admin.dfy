/** What administrators change at any time: the VAT percentage, and new packages, products, coupons, customers and
    print price rules. No sale, redemption or credit of the past depends on it. */
module Admin {
  import opened Common
  import opened Ledger
  import opened Catalogue
  import opened Sales
  import opened SaleProofs
  import opened Printing
  import Carts

  /** `id` and `row` are new ids. */
  datatype Op =
    | SetVatOp(user: Principal, percent: nat, now: int)
    | AddPackageOp(user: Principal, kind: PackageType, name: string, config: Config, price: nat, id: Id, row: Id,
                   now: int)
    | AddProductOp(user: Principal, name: string, price: nat, id: Id, now: int)
    | AddCouponOp(user: Principal, code: string, discount: DiscountType, value: nat, totalLimit: Option<int>,
                  minPurchase: Option<int>, now: int)
    | AddCustomerOp(user: Principal, id: Id, now: int)
    | AddRuleOp(key: RuleKey, price: nat, row: Id, now: int)

  /** The percentage may be 0 to 100; a tenant without a settings row has none to change. */
  function SetVat(setup: Setup, user: Principal, percent: nat): Result<Setup> {
    if percent > 100 then Err(VALIDATION_FAILED)
    else if user.tenant !in setup.vat then Err(NOT_FOUND)
    else Ok(setup.(vat := setup.vat[user.tenant := percent]))
  }

  /** A new package is active and has one open-ended price from now. */
  function AddPackage(setup: Setup, id: Id, pkg: Package): Setup {
    setup.(catalog := setup.catalog.(packages := setup.catalog.packages[id := pkg]))
  }

  function AddProduct(setup: Setup, id: Id, product: Product): Setup {
    setup.(catalog := setup.catalog.(products := setup.catalog.products[id := product]))
  }

  function AddCoupon(setup: Setup, key: CouponKey, coupon: Coupon): Result<Setup> {
    if key in setup.coupons then Err(UNIQUE_VIOLATION) else Ok(setup.(coupons := setup.coupons[key := coupon]))
  }

  /** The customer's number comes from the tenant's settings row. */
  function AddCustomer(setup: Setup, user: Principal, id: Id): Result<Setup> {
    if user.tenant !in setup.vat then Err(NOT_FOUND)
    else Ok(setup.(customers := setup.customers[id := user.tenant]))
  }

  function AddRule(rules: Rules, key: RuleKey, row: PriceRow): Rules {
    rules[key := (if key in rules then rules[key] else []) + [row]]
  }

  function NewPrice(row: Id, price: nat, now: int): PriceRow {
    PriceRow(row, price, now, None, None, None, None)
  }

  function Try(setup: Setup, rules: Rules, op: Op): Result<(Setup, Rules)> {
    match op
    case SetVatOp(user, percent, _) =>
      var s :- SetVat(setup, user, percent);
      Ok((s, rules))
    case AddPackageOp(user, kind, name, config, price, id, row, now) =>
      Ok((AddPackage(setup, id, Package(user.tenant, name, kind, true, false, config, Bonus(0, 0),
                                        [NewPrice(row, price, now)])), rules))
    case AddProductOp(user, name, price, id, _) =>
      Ok((AddProduct(setup, id, Product(user.tenant, name, true, false, price)), rules))
    case AddCouponOp(user, code, discount, value, totalLimit, minPurchase, _) =>
      var s :- AddCoupon(setup, (user.tenant, setup.upper(code)),
                         Coupon(discount, value, None, None, totalLimit, minPurchase, true));
      Ok((s, rules))
    case AddCustomerOp(user, id, _) =>
      var s :- AddCustomer(setup, user, id);
      Ok((s, rules))
    case AddRuleOp(key, price, row, now) => Ok((setup, AddRule(rules, key, NewPrice(row, price, now))))
  }

  function Exec(setup: Setup, rules: Rules, op: Op): (Setup, Rules) {
    var r := Try(setup, rules, op);
    if r.Ok? then r.value else (setup, rules)
  }

  predicate Allowed(setup: Setup, op: Op) {
    && (op.AddPackageOp? ==> op.id !in setup.catalog.packages)
    && (op.AddProductOp? ==> op.id !in setup.catalog.products)
    && (op.AddCustomerOp? ==> op.id !in setup.customers)
  }

  /** Packages, coupons and customers are only added; the VAT percentage may be anything. */
  ghost predicate SetupKept(s: Setup, t: Setup) {
    && (forall id :: id in s.catalog.packages ==>
          id in t.catalog.packages && t.catalog.packages[id] == s.catalog.packages[id])
    && (forall k :: k in s.coupons ==> k in t.coupons && t.coupons[k] == s.coupons[k])
    && (forall c :: c in s.customers ==> c in t.customers && t.customers[c] == s.customers[c])
  }

  lemma ExecKeeps(setup: Setup, rules: Rules, op: Op)
    requires Allowed(setup, op)
    ensures SetupKept(setup, Exec(setup, rules, op).0)
  {
  }

  // ---- the shop's invariant under a later setup -----------------------------------------------------------

  lemma LookupLater(s: Setup, t: Setup, tenant: Id, items: seq<Item>)
    requires SetupKept(s, t) && RefsKnown(s.catalog.packages, items)
    ensures Lookup(t.catalog, tenant, items) == Lookup(s.catalog, tenant, items)
  {
    forall i | 0 <= i < |items|
      ensures LookupOne(t.catalog, tenant, items[i]) == LookupOne(s.catalog, tenant, items[i])
    {
    }
  }

  lemma MatchesLater(s: Setup, t: Setup, shop: Shop, rows: seq<Row>, id: Id)
    requires SetupKept(s, t) && SaleMatches(s, shop, rows, id)
    ensures SaleMatches(t, shop, rows, id)
    ensures forall c, p :: LinesFrom(t, shop, c, p, id) == LinesFrom(s, shop, c, p, id)
  {
    if id in shop.sales {
      LookupLater(s, t, shop.sales[id].tenant, shop.sales[id].items);
    }
  }

  lemma {:induction false} NeverRedeemed(rs: seq<Redemption>, k: CouponKey)
    requires forall i :: 0 <= i < |rs| ==> rs[i].coupon != k
    ensures Redeemed(rs, k) == 0
  {
    if rs == [] {
    } else {
      NeverRedeemed(rs[..|rs| - 1], k);
    }
  }

  lemma RedemptionsLater(s: Setup, t: Setup, shop: Shop)
    requires SetupKept(s, t) && RedemptionsOk(s, shop)
    ensures RedemptionsOk(t, shop)
  {
    forall k | k in t.coupons
      ensures WithinLimit(t.coupons[k], Redeemed(shop.redemptions, k))
    {
      if k !in s.coupons {
        NeverRedeemed(shop.redemptions, k);
      }
    }
  }

  /** Edits of VAT and new rows keep the shop's invariant: stored sales do not depend on them. */
  lemma LaterSetupKeeps(s: Setup, t: Setup, shop: Shop, rows: seq<Row>)
    requires SetupKept(s, t) && ShopInv(s, shop, rows)
    ensures ShopInv(t, shop, rows)
  {
    RedemptionsLater(s, t, shop);
    forall id
      ensures SaleMatches(t, shop, rows, id)
    {
      assert SaleMatches(s, shop, rows, id);
      MatchesLater(s, t, shop, rows, id);
    }
    forall c, p
      ensures OwnedCount(shop.owned, c, p) == SumOver(shop.sales.Keys, k => LinesFrom(t, shop, c, p, k))
    {
      forall k
        ensures LinesFrom(t, shop, c, p, k) == LinesFrom(s, shop, c, p, k)
      {
        assert SaleMatches(s, shop, rows, k);
        MatchesLater(s, t, shop, rows, k);
      }
      SumOverSame(shop.sales.Keys, k => LinesFrom(s, shop, c, p, k), k => LinesFrom(t, shop, c, p, k));
    }
  }

  // ---- what an edit does ------------------------------------------------------------------------------------

  /** The percentage, 0 to 100, is set for that tenant only, if it has settings. */
  lemma SetVatIs(setup: Setup, user: Principal, percent: nat, other: Id)
    ensures match SetVat(setup, user, percent)
            case Ok(t) => percent <= 100 && user.tenant in setup.vat && t == setup.(vat := t.vat)
                          && VatOf(t, other) == if other == user.tenant then percent else VatOf(setup, other)
            case Err(e) => e == if percent > 100 then VALIDATION_FAILED else NOT_FOUND
    ensures SetVat(setup, user, percent).Ok? <==> percent <= 100 && user.tenant in setup.vat
  {
  }

  /** A new package or product sells at its price from now on, in its tenant only. */
  lemma NewItemsSell(setup: Setup, rules: Rules, user: Principal, kind: PackageType, name: string, config: Config,
                     price: nat, id: Id, row: Id, now: int, later: int)
    requires now <= later
    ensures var t := Exec(setup, rules, AddPackageOp(user, kind, name, config, price, id, row, now)).0;
            && Carts.SellsPackageId(t.catalog, user.tenant, id)
            && t.catalog.packages[id].kind == kind && t.catalog.packages[id].config == config
            && Carts.IsPackagePrice(price, PackageSnapshot(price, row, false), t.catalog.packages[id], later)
    ensures var t := Exec(setup, rules, AddProductOp(user, name, price, id, now)).0;
            && Carts.SellsProduct(t.catalog, user.tenant, id) && t.catalog.products[id].price == price
            && t.catalog.products[id].name == name
  {
    var p := NewPrice(row, price, now);
    assert Carts.InForce(p, later) && !Carts.Promoted(p, later);
  }

  /** A new coupon can be used at once, under its code in upper case; a code is taken once per tenant. */
  lemma NewCouponIs(setup: Setup, rules: Rules, user: Principal, code: string, discount: DiscountType, value: nat,
                    totalLimit: Option<int>, minPurchase: Option<int>, now: int, later: int)
    ensures var k := (user.tenant, setup.upper(code));
            match Try(setup, rules, AddCouponOp(user, code, discount, value, totalLimit, minPurchase, now))
            case Ok((t, _)) =>
              && k !in setup.coupons && k in t.coupons && t == setup.(coupons := t.coupons)
              && t.coupons[k].kind == discount && t.coupons[k].value == value && t.coupons[k].totalLimit == totalLimit
              && t.coupons[k].minPurchase == minPurchase
              && (totalLimit.None? || totalLimit.value > 0 ==> Carts.CouponUsable(t.coupons[k], 0, later))
            case Err(e) => e == UNIQUE_VIOLATION && k in setup.coupons
  {
  }

  /** A new customer belongs to the employee's tenant. */
  lemma NewCustomerIs(setup: Setup, user: Principal, id: Id)
    ensures match AddCustomer(setup, user, id)
            case Ok(t) => user.tenant in setup.vat && t == setup.(customers := setup.customers[id := user.tenant])
            case Err(e) => e == NOT_FOUND && user.tenant !in setup.vat
  {
  }

  /** A new print price rule is valid from now on, and the price unless a newer one is valid. */
  lemma NewRuleIs(rules: Rules, key: RuleKey, price: nat, row: Id, now: int, later: int)
    requires now <= later
    requires key in rules ==> forall r :: r in rules[key] && ValidAt(r, later) ==> r.validFrom < now
    ensures UnitPrice(AddRule(rules, key, NewPrice(row, price, now)), key, later) == price
    ensures var after := AddRule(rules, key, NewPrice(row, price, now));
            && (forall k :: k in rules && k != key ==> k in after && after[k] == rules[k])
            && (key in rules ==> forall r :: r in rules[key] ==> r in after[key])
  {
    var after := AddRule(rules, key, NewPrice(row, price, now))[key];
    var p := NewPrice(row, price, now);
    assert p == after[|after| - 1] && p in after && ValidAt(p, later);
    var newest := Newest(after, (r: PriceRow) => ValidAt(r, later));
    assert newest.Some? && ValidAt(newest.value, later);
    assert newest.value.validFrom >= now;
  }
}
