/** Packages, products and price rows. The catalogue code only ever adds rows, so these are constants of a run. */
module Catalogue {
  import opened Common
  import opened Calendar

  datatype PackageType = TIME | MONEY_VALUE | PRINT_PAGES | SUBSCRIPTION_PLAN | PUNCH_CARD

  datatype PriceRow = PriceRow(id: Id, price: nat, validFrom: int, validTo: Option<int>, promo: Option<nat>,
                               promoFrom: Option<int>, promoTo: Option<int>)

  /** Absent configuration numbers read as 0. */
  datatype Config = Config(minutes: int, moneyValue: int, bwPages: int, colorPages: int, interval: Option<Interval>)

  datatype Bonus = Bonus(time: int, money: int)

  datatype Package = Package(tenant: Id, name: string, kind: PackageType, active: bool, deleted: bool, config: Config,
                             bonus: Bonus, prices: seq<PriceRow>)

  datatype Product = Product(tenant: Id, name: string, active: bool, deleted: bool, price: nat)

  datatype Catalog = Catalog(products: map<Id, Product>, packages: map<Id, Package>)

  /** The newest price row that passes the filter. */
  function Newest(rows: seq<PriceRow>, passes: PriceRow -> bool): (r: Option<PriceRow>)
    ensures r.None? <==> forall p :: p in rows ==> !passes(p)
    ensures r.Some? ==> r.value in rows && passes(r.value)
                        && forall p :: p in rows && passes(p) ==> p.validFrom <= r.value.validFrom
  {
    if rows == [] then None else
      var rest := Newest(rows[1..], passes);
      if passes(rows[0]) && (rest.None? || rest.value.validFrom <= rows[0].validFrom) then Some(rows[0]) else rest
  }

  predicate ValidAt(p: PriceRow, now: int) {
    p.validFrom <= now && (p.validTo.None? || now < p.validTo.value)
  }

  /** The promotional price while the promotion runs, else the list price. */
  predicate InPromo(p: PriceRow, now: int) {
    p.promo.Some? && (p.promoFrom.None? || p.promoFrom.value <= now) && (p.promoTo.None? || now < p.promoTo.value)
  }

  function IntervalOf(config: Config): Interval {
    if config.interval.Some? then config.interval.value else MONTHLY
  }
}
