/** The point of sale: priced lines, coupons, embedded VAT, immediate and later payment, package credits. */
module Sales {
  import opened Common
  import opened Money
  import opened Ledger
  import opened Catalogue

  datatype LineKind = PRODUCT_LINE | PACKAGE_LINE | CUSTOM_LINE

  datatype LineInput = LineInput(kind: LineKind, refId: Option<Id>, description: Option<string>, quantity: Option<nat>,
                                 unitPrice: Option<nat>)

  datatype Method = CASH | CARD | BANK_TRANSFER | CHECK | WALLET | CREDIT | VOUCHER | MIXED | SELF_SERVICE

  datatype PaymentInput = PaymentInput(how: Method, amount: nat)

  datatype SaleInput = SaleInput(branch: Id, customer: Option<Id>, shift: Option<Id>, lines: seq<LineInput>,
                                 payment: Option<PaymentInput>, coupon: Option<string>)

  datatype Snapshot = NoSnapshot | ProductSnapshot(price: nat) | PackageSnapshot(unit: nat, row: Id, promo: bool)

  datatype ItemRef = NoRef | ProductRef(product: Id) | PackageRef(package: Id)

  datatype Item = Item(description: string, quantity: nat, unitPrice: nat, total: nat, ref: ItemRef, snapshot: Snapshot)

  /** A line ready to be sold; a package line carries the package row it was priced from. */
  datatype Resolved = Resolved(item: Item, pkg: Option<Package>)

  datatype DiscountType = FIXED | PERCENT | BONUS_TIME | BONUS_PRINT

  /** Coupons are unique by tenant and code. */
  type CouponKey = (Id, string)

  datatype Coupon = Coupon(kind: DiscountType, value: nat, startsAt: Option<int>, endsAt: Option<int>,
                           totalLimit: Option<int>, minPurchase: Option<int>, active: bool)

  datatype Redemption = Redemption(coupon: CouponKey, customer: Option<Id>, sale: Id, amount: int)

  datatype SaleStatus = OPEN | COMPLETED | VOIDED

  /** `vat` is a history variable: the percentage in force at the sale. No operation reads it. */
  datatype SaleRow = SaleRow(tenant: Id, branch: Id, customer: Option<Id>, shift: Option<Id>, employee: Id,
                             status: SaleStatus, subtotal: int, discount: int, tax: int, total: int,
                             coupon: Option<CouponKey>, items: seq<Item>, vat: nat)

  datatype PaymentStatus = PENDING_PAYMENT | PAID | FAILED | REFUNDED

  datatype Payment = Payment(id: Id, tenant: Id, sale: Id, how: Method, status: PaymentStatus, amount: int,
                             pspToken: Option<string>, key: Option<string>, reference: Option<string>)

  /** A customer's purchased package. */
  datatype Owned = Owned(tenant: Id, customer: Id, package: Id, time: int, money: int, bw: int, color: int,
                         purchasePrice: int, snapshot: Snapshot)

  datatype Refund = Refund(sale: Id, amount: int)

  /** What administrators set up, and two functions of the platform: toUpperCase, and whether an amount in shekels
      differs from an expected one in agorot by more than 0.01 as floating-point numbers compare. */
  datatype Setup = Setup(catalog: Catalog, coupons: map<CouponKey, Coupon>, vat: map<Id, nat>, customers: map<Id, Id>,
                         upper: string -> string, differs: (int, real) -> bool)

  datatype Shop = Shop(sales: map<Id, SaleRow>, payments: seq<Payment>, redemptions: seq<Redemption>, owned: seq<Owned>,
                       loyalty: map<Id, int>, refunds: seq<Refund>)

  const EMPTY_SHOP := Shop(map[], [], [], [], map[], [])

  // ---- pricing -------------------------------------------------------------------------------------

  function ResolvePackage(pkg: Package, id: Id, quantity: nat, now: int): Result<Resolved> {
    var row := Newest(pkg.prices, (p: PriceRow) => ValidAt(p, now));
    if row.None? then Err(VALIDATION_FAILED) else
      var promo := InPromo(row.value, now);
      var unit := if promo then row.value.promo.value else row.value.price;
      Ok(Resolved(Item(pkg.name, quantity, unit, unit * quantity, PackageRef(id),
                       PackageSnapshot(unit, row.value.id, promo)), Some(pkg)))
  }

  function ResolveItem(cat: Catalog, tenant: Id, line: LineInput, now: int): Result<Resolved> {
    var quantity := if line.quantity.Some? then line.quantity.value else 1;
    match line.kind
    case PRODUCT_LINE =>
      if line.refId.None? then Err(VALIDATION_FAILED)
      else if line.refId.value !in cat.products then Err(NOT_FOUND)
      else
        var p := cat.products[line.refId.value];
        if p.tenant != tenant || p.deleted || !p.active then Err(NOT_FOUND)
        else Ok(Resolved(Item(p.name, quantity, p.price, p.price * quantity, ProductRef(line.refId.value),
                              ProductSnapshot(p.price)), None))
    case PACKAGE_LINE =>
      if line.refId.None? then Err(VALIDATION_FAILED)
      else if line.refId.value !in cat.packages then Err(NOT_FOUND)
      else
        var p := cat.packages[line.refId.value];
        if p.tenant != tenant || p.deleted || !p.active then Err(NOT_FOUND)
        else ResolvePackage(p, line.refId.value, quantity, now)
    case CUSTOM_LINE =>
      if line.unitPrice.None? || line.description.None? || line.description.value == [] then Err(VALIDATION_FAILED)
      else Ok(Resolved(Item(line.description.value, quantity, line.unitPrice.value, line.unitPrice.value * quantity,
                            NoRef, NoSnapshot), None))
  }

  function ResolveAll(cat: Catalog, tenant: Id, lines: seq<LineInput>, now: int): (r: Result<seq<Resolved>>)
    ensures r.Ok? ==> |r.value| == |lines|
  {
    if lines == [] then Ok([]) else
      var init :- ResolveAll(cat, tenant, lines[..|lines| - 1], now);
      var last :- ResolveItem(cat, tenant, lines[|lines| - 1], now);
      Ok(init + [last])
  }

  function Subtotal(items: seq<Item>): nat {
    if items == [] then 0 else Subtotal(items[..|items| - 1]) + items[|items| - 1].total
  }

  function ItemsOf(resolved: seq<Resolved>): (items: seq<Item>)
    ensures |items| == |resolved| && forall i :: 0 <= i < |items| ==> items[i] == resolved[i].item
  {
    seq(|resolved|, i requires 0 <= i < |resolved| => resolved[i].item)
  }

  function CouponDiscount(c: Coupon, subtotal: int): int {
    if c.minPurchase.Some? && c.minPurchase.value != 0 && subtotal < c.minPurchase.value then 0
    else match c.kind
         case FIXED => Min(c.value, subtotal)
         case PERCENT => Min(JsRound((subtotal * c.value) as real / 100.0), subtotal)
         case _ => 0
  }

  function Redeemed(redemptions: seq<Redemption>, k: CouponKey): nat {
    if redemptions == [] then 0
    else Redeemed(redemptions[..|redemptions| - 1], k) + if redemptions[|redemptions| - 1].coupon == k then 1 else 0
  }

  predicate Usable(c: Coupon, redeemed: nat, now: int) {
    && c.active
    && (c.startsAt.None? || c.startsAt.value <= now)
    && (c.endsAt.None? || now <= c.endsAt.value)
    && (c.totalLimit.None? || c.totalLimit.value == 0 || redeemed < c.totalLimit.value)
  }

  /** The coupon a sale will use, if its code names a usable one; an unusable code is ignored. */
  function CouponFor(setup: Setup, shop: Shop, tenant: Id, code: Option<string>, now: int): (k: Option<CouponKey>)
    ensures k.Some? ==> k.value in setup.coupons
                        && Usable(setup.coupons[k.value], Redeemed(shop.redemptions, k.value), now)
  {
    if code.None? || code.value == [] then None else
      var k := (tenant, setup.upper(code.value));
      if k in setup.coupons && Usable(setup.coupons[k], Redeemed(shop.redemptions, k), now) then Some(k) else None
  }

  function VatOf(setup: Setup, tenant: Id): nat {
    if tenant in setup.vat then setup.vat[tenant] else 17
  }

  /** The VAT embedded in a tax-inclusive total. */
  function EmbeddedTax(total: int, vat: nat): int {
    JsRound(total as real - total as real / (1.0 + vat as real / 100.0))
  }

  // ---- the effects of a paid sale --------------------------------------------------------------------

  function Credits(pkg: Package): seq<(Unit, int)> {
    match pkg.kind
    case TIME => [(TIME_SECONDS, (pkg.config.minutes + pkg.bonus.time) * 60)]
    case MONEY_VALUE => [(MONEY, pkg.config.moneyValue + pkg.bonus.money)]
    case PRINT_PAGES =>
      (if pkg.config.bwPages != 0 then [(PRINT_BW, pkg.config.bwPages)] else [])
      + (if pkg.config.colorPages != 0 then [(PRINT_COLOR, pkg.config.colorPages)] else [])
    case _ => []
  }

  function CreditFor(credits: seq<(Unit, int)>, u: Unit): int {
    if credits == [] then 0 else if credits[0].0 == u then credits[0].1 else CreditFor(credits[1..], u)
  }

  /** Who credits whom, for which sale. */
  datatype Grant = Grant(tenant: Id, actor: Id, customer: Id, sale: Id)

  function CreditDelta(g: Grant, credit: (Unit, int)): Delta {
    Delta(g.tenant, g.customer, credit.0, credit.1, PACKAGE, Sale, g.sale, g.actor)
  }

  function ApplyCredits(b: Book, g: Grant, credits: seq<(Unit, int)>): Result<Book> {
    if credits == [] then Ok(b) else
      var b' :- ApplyCredits(b, g, credits[..|credits| - 1]);
      Apply(b', CreditDelta(g, credits[|credits| - 1]))
  }

  function OwnedFor(g: Grant, item: Item, package: Id, pkg: Package): Owned {
    var credits := Credits(pkg);
    Owned(g.tenant, g.customer, package, CreditFor(credits, TIME_SECONDS), CreditFor(credits, MONEY),
          CreditFor(credits, PRINT_BW), CreditFor(credits, PRINT_COLOR), item.total, item.snapshot)
  }

  /** The package lines, one by one: ledger credits, then the purchased package. The quantity plays no part. */
  function ApplyItems(b: Book, owned: seq<Owned>, g: Grant, lines: seq<Resolved>): Result<(Book, seq<Owned>)> {
    if lines == [] then Ok((b, owned)) else
      var (b', owned') :- ApplyItems(b, owned, g, lines[..|lines| - 1]);
      var last := lines[|lines| - 1];
      if last.item.ref.PackageRef? && last.pkg.Some? then
        var b'' :- ApplyCredits(b', g, Credits(last.pkg.value));
        Ok((b'', owned' + [OwnedFor(g, last.item, last.item.ref.package, last.pkg.value)]))
      else Ok((b', owned'))
  }

  function LoyaltyOf(loyalty: map<Id, int>, c: Id): int {
    if c in loyalty then loyalty[c] else 0
  }

  /** One point per ten shekels. */
  function Points(total: int): int {
    Max(0, total / 1000)
  }

  function Accrue(loyalty: map<Id, int>, c: Id, total: int): map<Id, int> {
    if Points(total) > 0 then loyalty[c := LoyaltyOf(loyalty, c) + Points(total)] else loyalty
  }

  /** Everything a payment sets off for the customer, all or nothing. */
  function Deliver(shop: Shop, b: Book, g: Grant, lines: seq<Resolved>, total: int): Result<(Shop, Book)> {
    var (b', owned') :- ApplyItems(b, shop.owned, g, lines);
    Ok((shop.(owned := owned', loyalty := Accrue(shop.loyalty, g.customer, total)), b'))
  }

  // ---- creating a sale ---------------------------------------------------------------------------------

  /** @@unique([tenantId, idempotencyKey]): null keys never clash. */
  function FindByKey(payments: seq<Payment>, tenant: Id, key: Option<string>): (i: nat)
    ensures i <= |payments|
    ensures i < |payments| ==> payments[i].tenant == tenant && payments[i].key == key
    ensures forall j :: 0 <= j < i ==> !(payments[j].tenant == tenant && payments[j].key == key)
  {
    FirstIndex(payments, (p: Payment) => p.tenant == tenant && p.key == key)
  }

  /** The new sale row, still without its payment. */
  function NewSale(setup: Setup, shop: Shop, user: Principal, dto: SaleInput, resolved: seq<Resolved>, now: int)
    : SaleRow
  {
    var coupon := CouponFor(setup, shop, user.tenant, dto.coupon, now);
    var subtotal := Subtotal(ItemsOf(resolved));
    var discount := if coupon.Some? then CouponDiscount(setup.coupons[coupon.value], subtotal) else 0;
    SaleRow(user.tenant, dto.branch, dto.customer, dto.shift, user.employee,
            if dto.payment.Some? then COMPLETED else OPEN, subtotal, discount,
            EmbeddedTax(subtotal - discount, VatOf(setup, user.tenant)), subtotal - discount, coupon, ItemsOf(resolved),
            VatOf(setup, user.tenant))
  }

  predicate HasPackage(resolved: seq<Resolved>) {
    exists i :: 0 <= i < |resolved| && resolved[i].item.ref.PackageRef?
  }

  function Redeem(shop: Shop, id: Id, sale: SaleRow): Shop {
    if sale.coupon.Some? then
      shop.(redemptions := shop.redemptions + [Redemption(sale.coupon.value, sale.customer, id, sale.discount)])
    else shop
  }

  datatype Created = Created(shop: Shop, book: Book, sale: Id)

  /** A sale that passed all checks: its row, its payment and effects if paid, its redemption. */
  function Record(shop: Shop, b: Book, dto: SaleInput, key: Option<string>, resolved: seq<Resolved>, sale: SaleRow,
                  id: Id, payment: Id): Result<(Shop, Book)>
  {
    var withSale := shop.(sales := shop.sales[id := sale]);
    if dto.payment.None? then Ok((Redeem(withSale, id, sale), b))
    else if key.Some? && FindByKey(shop.payments, sale.tenant, key) < |shop.payments| then Err(UNIQUE_VIOLATION)
    else
      var pay := dto.payment.value;
      var p := Payment(payment, sale.tenant, id, pay.how, PAID, pay.amount, None, key, None);
      var paid := Redeem(withSale.(payments := shop.payments + [p]), id, sale);
      if sale.customer.None? then Ok((paid, b))
      else Deliver(paid, b, Grant(sale.tenant, sale.employee, sale.customer.value, id), resolved, sale.total)
  }

  /** `id` and `payment` are new ids for the rows a new sale creates. */
  function CreateSale(setup: Setup, shop: Shop, b: Book, user: Principal, dto: SaleInput, key: Option<string>, id: Id,
                      payment: Id, now: int): Result<Created>
  {
    if !InScope(user, dto.branch) then Err(FORBIDDEN)
    else if key.Some? && key.value != [] && FindByKey(shop.payments, user.tenant, key) < |shop.payments| then
      Ok(Created(shop, b, shop.payments[FindByKey(shop.payments, user.tenant, key)].sale))
    else
      var resolved :- ResolveAll(setup.catalog, user.tenant, dto.lines, now);
      if HasPackage(resolved) && dto.customer.None? then Err(VALIDATION_FAILED)
      else
        var sale := NewSale(setup, shop, user, dto, resolved, now);
        if dto.payment.Some? && dto.payment.value.amount < sale.total then Err(VALIDATION_FAILED)
        else if dto.customer.Some? && dto.customer.value !in setup.customers then Err(FOREIGN_KEY_VIOLATION)
        else
          var (shop', b') :- Record(shop, b, dto, key, resolved, sale, id, payment);
          Ok(Created(shop', b', id))
  }

  // ---- settling an open sale -----------------------------------------------------------------------------

  /** The package lines of a stored sale, looked up again; a deleted package is skipped. */
  function Lookup(cat: Catalog, tenant: Id, items: seq<Item>): (lines: seq<Resolved>)
    ensures |lines| == |items| && forall i :: 0 <= i < |items| ==> lines[i].item == items[i]
  {
    seq(|items|, i requires 0 <= i < |items| => Resolved(items[i], LookupOne(cat, tenant, items[i])))
  }

  function LookupOne(cat: Catalog, tenant: Id, item: Item): Option<Package> {
    if item.ref.PackageRef? && item.ref.package in cat.packages && cat.packages[item.ref.package].tenant == tenant
       && !cat.packages[item.ref.package].deleted then Some(cat.packages[item.ref.package]) else None
  }

  /** The payment to complete: the named one, or any pending one of the sale; the length if there is none. */
  function PaymentToSettle(payments: seq<Payment>, sale: Id, payment: Option<Id>): (i: nat)
    ensures i <= |payments|
    ensures i < |payments| ==> payments[i].sale == sale
                               && if payment.Some? then payments[i].id == payment.value
                                  else payments[i].status == PENDING_PAYMENT
  {
    if payment.Some? then FirstIndex(payments, (p: Payment) => p.id == payment.value && p.sale == sale)
    else FirstIndex(payments, (p: Payment) => p.sale == sale && p.status == PENDING_PAYMENT)
  }

  function SettlePayment(payments: seq<Payment>, tenant: Id, sale: Id, total: int, how: Method, transaction: string,
                         payment: Option<Id>, newId: Id): seq<Payment>
  {
    var i := PaymentToSettle(payments, sale, payment);
    if i < |payments| then payments[i := payments[i].(status := PAID, pspToken := Some(transaction))]
    else payments + [Payment(newId, tenant, sale, how, PAID, total, Some(transaction), None, None)]
  }

  function Settle(setup: Setup, shop: Shop, b: Book, tenant: Id, actor: Id, id: Id, how: Method, transaction: string,
                  payment: Option<Id>, newId: Id): Result<(Shop, Book)>
  {
    if id !in shop.sales || shop.sales[id].tenant != tenant then Err(NOT_FOUND)
    else if shop.sales[id].status == COMPLETED then Ok((shop, b))
    else
      var sale := shop.sales[id];
      var settled := shop.(payments := SettlePayment(shop.payments, tenant, id, sale.total, how, transaction, payment,
                                                     newId),
                           sales := shop.sales[id := sale.(status := COMPLETED)]);
      if sale.customer.None? then Ok((settled, b))
      else Deliver(settled, b, Grant(tenant, actor, sale.customer.value, id), Lookup(setup.catalog, tenant, sale.items),
                   sale.total)
  }

  // ---- refunds ---------------------------------------------------------------------------------------------

  function PaidTotal(payments: seq<Payment>, sale: Id): int {
    if payments == [] then 0 else
      var last := payments[|payments| - 1];
      PaidTotal(payments[..|payments| - 1], sale) + if last.sale == sale && last.status == PAID then last.amount else 0
  }

  function RefundSale(shop: Shop, user: Principal, mayRefund: bool, id: Id, amount: nat): Result<Shop> {
    if !mayRefund then Err(FORBIDDEN)
    else if id !in shop.sales || shop.sales[id].tenant != user.tenant then Err(NOT_FOUND)
    else if !InScope(user, shop.sales[id].branch) then Err(FORBIDDEN)
    else if amount > PaidTotal(shop.payments, id) then Err(VALIDATION_FAILED)
    else Ok(shop.(refunds := shop.refunds + [Refund(id, amount)]))
  }

  // ---- the service -------------------------------------------------------------------------------------------

  class SalesService {
    const balances: BalanceService
    var sales: map<Id, SaleRow>
    var payments: seq<Payment>
    var redemptions: seq<Redemption>
    var owned: seq<Owned>
    var loyalty: map<Id, int>
    var refunds: seq<Refund>

    function Tables(): Shop
      reads this
    {
      Shop(sales, payments, redemptions, owned, loyalty, refunds)
    }

    constructor (balances: BalanceService)
      ensures this.balances == balances && Tables() == EMPTY_SHOP
    {
      this.balances := balances;
      sales, payments, redemptions, owned, loyalty, refunds := map[], [], [], [], map[], [];
    }

    /** Abandon a transaction: every table as it was. */
    method RollBack(shop: Shop, book: Book)
      modifies this, balances
      ensures Tables() == shop && balances.Contents() == book
    {
      sales, payments, redemptions := shop.sales, shop.payments, shop.redemptions;
      owned, loyalty, refunds := shop.owned, shop.loyalty, shop.refunds;
      balances.RollBack(book);
    }

    /** May leave some credits applied when it fails; the caller's transaction undoes them. */
    method ApplyPackage(g: Grant, item: Item, package: Id, pkg: Package) returns (r: Result<()>)
      modifies this`owned, balances
      ensures match ApplyCredits(old(balances.Contents()), g, Credits(pkg))
              case Ok(b) => r == Ok(()) && balances.Contents() == b
                            && owned == old(owned) + [OwnedFor(g, item, package, pkg)]
              case Err(e) => r == Err(e)
    {
      var credits := Credits(pkg);
      ghost var book := balances.Contents();
      for i := 0 to |credits|
        invariant ApplyCredits(book, g, credits[..i]) == Ok(balances.Contents())
        invariant owned == old(owned)
      {
        assert credits[..i + 1][..i] == credits[..i];
        var applied := balances.ApplyWithin(CreditDelta(g, credits[i]));
        if applied.Err? {
          CreditsFail(book, g, credits, i + 1);
          return Err(applied.error);
        }
      }
      assert credits[..|credits|] == credits;
      owned := owned + [OwnedFor(g, item, package, pkg)];
      r := Ok(());
    }

    method ApplyPackages(g: Grant, lines: seq<Resolved>) returns (r: Result<()>)
      modifies this`owned, balances
      ensures match ApplyItems(old(balances.Contents()), old(owned), g, lines)
              case Ok((b, o)) => r == Ok(()) && balances.Contents() == b && owned == o
              case Err(e) => r == Err(e)
    {
      ghost var book, had := balances.Contents(), owned;
      for i := 0 to |lines|
        invariant ApplyItems(book, had, g, lines[..i]) == Ok((balances.Contents(), owned))
      {
        var line := lines[i];
        assert lines[..i + 1][..i] == lines[..i];
        if line.item.ref.PackageRef? && line.pkg.Some? {
          var applied := ApplyPackage(g, line.item, line.item.ref.package, line.pkg.value);
          if applied.Err? {
            ItemsFail(book, had, g, lines, i + 1);
            return applied;
          }
        }
      }
      assert lines[..|lines|] == lines;
      r := Ok(());
    }

    method AccrueLoyalty(c: Id, total: int)
      modifies this`loyalty
      ensures loyalty == Accrue(old(loyalty), c, total)
    {
      var points := total / 1000;
      if points > 0 {
        loyalty := loyalty[c := LoyaltyOf(loyalty, c) + points];
      }
    }

    /** What a payment sets off for the customer; on an error the caller rolls back. */
    method DeliverTo(g: Grant, lines: seq<Resolved>, total: int) returns (r: Result<()>)
      modifies this`owned, this`loyalty, balances
      ensures match Deliver(old(Tables()), old(balances.Contents()), g, lines, total)
              case Ok((s, b)) => r == Ok(()) && Tables() == s && balances.Contents() == b
              case Err(e) => r == Err(e)
    {
      var _ :- ApplyPackages(g, lines);
      AccrueLoyalty(g.customer, total);
      r := Ok(());
    }

    method RecordSale(dto: SaleInput, key: Option<string>, resolved: seq<Resolved>, sale: SaleRow, id: Id, payment: Id)
      returns (r: Result<()>)
      modifies this, balances
      ensures match Record(old(Tables()), old(balances.Contents()), dto, key, resolved, sale, id, payment)
              case Ok((s, b)) => r == Ok(()) && Tables() == s && balances.Contents() == b
              case Err(e) =>
                r == Err(e) && Tables() == old(Tables()) && balances.Contents() == old(balances.Contents())
    {
      var shop, book := Tables(), balances.Contents();
      if dto.payment.Some? && key.Some? && FindByKey(payments, sale.tenant, key) < |payments| {
        return Err(UNIQUE_VIOLATION);
      }
      sales := sales[id := sale];
      if dto.payment.Some? {
        payments := payments + [Payment(payment, sale.tenant, id, dto.payment.value.how, PAID,
                                        dto.payment.value.amount, None, key, None)];
      }
      if sale.coupon.Some? {
        redemptions := redemptions + [Redemption(sale.coupon.value, sale.customer, id, sale.discount)];
      }
      if dto.payment.Some? && sale.customer.Some? {
        var delivered := DeliverTo(Grant(sale.tenant, sale.employee, sale.customer.value, id), resolved, sale.total);
        if delivered.Err? {
          RollBack(shop, book);
          return delivered;
        }
      }
      r := Ok(());
    }

    method Create(setup: Setup, user: Principal, dto: SaleInput, key: Option<string>, id: Id, payment: Id, now: int)
      returns (r: Result<Id>)
      modifies this, balances
      ensures match CreateSale(setup, old(Tables()), old(balances.Contents()), user, dto, key, id, payment, now)
              case Ok(c) => r == Ok(c.sale) && Tables() == c.shop && balances.Contents() == c.book
              case Err(e) =>
                r == Err(e) && Tables() == old(Tables()) && balances.Contents() == old(balances.Contents())
    {
      if !InScope(user, dto.branch) {
        return Err(FORBIDDEN);
      }
      if key.Some? && key.value != [] {
        var existing := FindByKey(payments, user.tenant, key);
        if existing < |payments| {
          return Ok(payments[existing].sale);
        }
      }
      var resolved :- ResolveAll(setup.catalog, user.tenant, dto.lines, now);
      if HasPackage(resolved) && dto.customer.None? {
        return Err(VALIDATION_FAILED);
      }
      var sale := NewSale(setup, Tables(), user, dto, resolved, now);
      if dto.payment.Some? && dto.payment.value.amount < sale.total {
        return Err(VALIDATION_FAILED);
      }
      if dto.customer.Some? && dto.customer.value !in setup.customers {
        return Err(FOREIGN_KEY_VIOLATION);
      }
      var _ :- RecordSale(dto, key, resolved, sale, id, payment);
      r := Ok(id);
    }

    /** Complete the sale's pending payment, or record a completed one. */
    method CompletePayment(tenant: Id, id: Id, total: int, how: Method, transaction: string, payment: Option<Id>,
                           newId: Id)
      modifies this`payments
      ensures payments == SettlePayment(old(payments), tenant, id, total, how, transaction, payment, newId)
    {
      var pending := PaymentToSettle(payments, id, payment);
      if pending < |payments| {
        payments := payments[pending := payments[pending].(status := PAID, pspToken := Some(transaction))];
      } else {
        payments := payments + [Payment(newId, tenant, id, how, PAID, total, Some(transaction), None, None)];
      }
    }

    method SettleSale(setup: Setup, tenant: Id, actor: Id, id: Id, how: Method, transaction: string,
                      payment: Option<Id>, newId: Id) returns (r: Result<()>)
      modifies this, balances
      ensures match Settle(setup, old(Tables()), old(balances.Contents()), tenant, actor, id, how, transaction, payment,
                           newId)
              case Ok((s, b)) => r == Ok(()) && Tables() == s && balances.Contents() == b
              case Err(e) =>
                r == Err(e) && Tables() == old(Tables()) && balances.Contents() == old(balances.Contents())
    {
      if id !in sales || sales[id].tenant != tenant {
        return Err(NOT_FOUND);
      }
      var sale := sales[id];
      if sale.status == COMPLETED {
        return Ok(());
      }
      var shop, book := Tables(), balances.Contents();
      CompletePayment(tenant, id, sale.total, how, transaction, payment, newId);
      sales := sales[id := sale.(status := COMPLETED)];
      if sale.customer.Some? {
        var delivered := DeliverTo(Grant(tenant, actor, sale.customer.value, id),
                                   Lookup(setup.catalog, tenant, sale.items), sale.total);
        if delivered.Err? {
          RollBack(shop, book);
          return delivered;
        }
      }
      r := Ok(());
    }
  }

  /** A refused credit fails the whole list. */
  lemma {:induction false} CreditsFail(b: Book, g: Grant, credits: seq<(Unit, int)>, n: nat)
    requires n <= |credits| && ApplyCredits(b, g, credits[..n]).Err?
    ensures ApplyCredits(b, g, credits) == ApplyCredits(b, g, credits[..n])
    decreases |credits| - n
  {
    if n == |credits| {
      assert credits[..n] == credits;
    } else {
      assert credits[..n + 1][..n] == credits[..n];
      CreditsFail(b, g, credits, n + 1);
    }
  }

  lemma {:induction false} ItemsFail(b: Book, owned: seq<Owned>, g: Grant, lines: seq<Resolved>, n: nat)
    requires n <= |lines| && ApplyItems(b, owned, g, lines[..n]).Err?
    ensures ApplyItems(b, owned, g, lines) == ApplyItems(b, owned, g, lines[..n])
    decreases |lines| - n
  {
    if n == |lines| {
      assert lines[..n] == lines;
    } else {
      assert lines[..n + 1][..n] == lines[..n];
      ItemsFail(b, owned, g, lines, n + 1);
    }
  }
}
