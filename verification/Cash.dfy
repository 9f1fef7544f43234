/** Cash register shifts: one open shift per register, movements, and the variance at closing. */
module Cash {
  import opened Common
  import opened Sales

  datatype MovementType = OPENING_FLOAT | SALE_MOVE | REFUND_MOVE | PAYOUT | DEPOSIT | DROP | COUNT | ADJUSTMENT

  datatype Movement = Movement(shift: Id, kind: MovementType, amount: int)

  datatype Shift = Shift(tenant: Id, register: Id, open: bool, openingFloat: nat, counted: Option<int>,
                         expected: Option<int>, variance: Option<int>)

  /** Registers with their tenants; shifts; movements in order. */
  datatype Till = Till(registers: map<Id, Id>, shifts: map<Id, Shift>, movements: seq<Movement>)

  predicate HasOpen(till: Till, register: Id) {
    exists s :: s in till.shifts && till.shifts[s].register == register && till.shifts[s].open
  }

  function OpenShift(till: Till, user: Principal, register: Id, openingFloat: nat, id: Id): Result<Till> {
    if register !in till.registers || till.registers[register] != user.tenant then Err(NOT_FOUND)
    else if HasOpen(till, register) then Err(VALIDATION_FAILED)
    else Ok(till.(shifts := till.shifts[id := Shift(user.tenant, register, true, openingFloat, None, None, None)],
                  movements := till.movements + [Movement(id, OPENING_FLOAT, openingFloat)]))
  }

  predicate IsOpen(till: Till, user: Principal, shift: Id) {
    shift in till.shifts && till.shifts[shift].tenant == user.tenant && till.shifts[shift].open
  }

  function Move(till: Till, user: Principal, shift: Id, kind: MovementType, amount: int): Result<Till> {
    if !IsOpen(till, user, shift) then Err(NOT_FOUND)
    else Ok(till.(movements := till.movements + [Movement(shift, kind, amount)]))
  }

  /** What one movement does to the cash in the drawer; counts, adjustments and the rest do nothing. */
  function Signed(m: Movement): int {
    match m.kind
    case OPENING_FLOAT => m.amount
    case DEPOSIT => m.amount
    case PAYOUT => -m.amount
    case DROP => -m.amount
    case _ => 0
  }

  function Moved(movements: seq<Movement>, shift: Id): int {
    if movements == [] then 0 else
      var last := movements[|movements| - 1];
      Moved(movements[..|movements| - 1], shift) + if last.shift == shift then Signed(last) else 0
  }

  function PaidCash(payments: seq<Payment>, sale: Id): int {
    if payments == [] then 0 else
      var last := payments[|payments| - 1];
      PaidCash(payments[..|payments| - 1], sale)
      + if last.sale == sale && last.status == PAID && last.how == CASH then last.amount else 0
  }

  function Refunded(refunds: seq<Refund>, sale: Id): int {
    if refunds == [] then 0 else
      var last := refunds[|refunds| - 1];
      Refunded(refunds[..|refunds| - 1], sale) + if last.sale == sale then last.amount else 0
  }

  function ShiftSales(shop: Shop, shift: Id): set<Id> {
    set id | id in shop.sales && shop.sales[id].shift == Some(shift)
  }

  function SaleCash(shop: Shop, sale: Id): int {
    PaidCash(shop.payments, sale) - Refunded(shop.refunds, sale)
  }

  /** Float and deposits, less payouts and drops, plus cash payments less refunds of the shift's sales. */
  ghost function Expected(till: Till, shop: Shop, shift: Id): int {
    Moved(till.movements, shift) + SumOver(ShiftSales(shop, shift), id => SaleCash(shop, id))
  }

  ghost function CloseShift(till: Till, shop: Shop, user: Principal, shift: Id, counted: nat): Result<Till> {
    if !IsOpen(till, user, shift) then Err(NOT_FOUND)
    else
      var expected := Expected(till, shop, shift);
      Ok(till.(shifts := till.shifts[shift := till.shifts[shift].(open := false, counted := Some(counted),
                                                                  expected := Some(expected),
                                                                  variance := Some(counted - expected))],
               movements := till.movements + [Movement(shift, COUNT, counted)]))
  }

  /** One call that touches the till; `id` of an opening is new. */
  datatype Op =
    | OpenOp(user: Principal, register: Id, openingFloat: nat, id: Id, now: int)
    | MoveOp(user: Principal, shift: Id, kind: MovementType, amount: int, now: int)
    | CloseOp(user: Principal, shift: Id, counted: nat, now: int)

  ghost function Try(till: Till, shop: Shop, op: Op): Result<Till> {
    match op
    case OpenOp(user, register, openingFloat, id, _) => OpenShift(till, user, register, openingFloat, id)
    case MoveOp(user, shift, kind, amount, _) => Move(till, user, shift, kind, amount)
    case CloseOp(user, shift, counted, _) => CloseShift(till, shop, user, shift, counted)
  }

  ghost function Exec(till: Till, shop: Shop, op: Op): Till {
    var r := Try(till, shop, op);
    if r.Ok? then r.value else till
  }

  class CashService {
    const registers: map<Id, Id>
    const sales: SalesService
    var shifts: map<Id, Shift>
    var movements: seq<Movement>

    function Tables(): Till
      reads this
    {
      Till(registers, shifts, movements)
    }

    constructor (registers: map<Id, Id>, sales: SalesService)
      ensures this.sales == sales && Tables() == Till(registers, map[], [])
    {
      this.registers, this.sales, shifts, movements := registers, sales, map[], [];
    }

    method Open(user: Principal, register: Id, openingFloat: nat, id: Id) returns (r: Result<()>)
      modifies this
      ensures match OpenShift(old(Tables()), user, register, openingFloat, id)
              case Ok(t) => r == Ok(()) && Tables() == t
              case Err(e) => r == Err(e) && Tables() == old(Tables())
    {
      if register !in registers || registers[register] != user.tenant {
        return Err(NOT_FOUND);
      }
      if exists s :: s in shifts && shifts[s].register == register && shifts[s].open {
        return Err(VALIDATION_FAILED);
      }
      shifts := shifts[id := Shift(user.tenant, register, true, openingFloat, None, None, None)];
      movements := movements + [Movement(id, OPENING_FLOAT, openingFloat)];
      r := Ok(());
    }

    method AddMovement(user: Principal, shift: Id, kind: MovementType, amount: int) returns (r: Result<()>)
      modifies this
      ensures match Move(old(Tables()), user, shift, kind, amount)
              case Ok(t) => r == Ok(()) && Tables() == t
              case Err(e) => r == Err(e) && Tables() == old(Tables())
    {
      if shift !in shifts || shifts[shift].tenant != user.tenant || !shifts[shift].open {
        return Err(NOT_FOUND);
      }
      movements := movements + [Movement(shift, kind, amount)];
      r := Ok(());
    }

    /** The two nested loops over the shift's sales, in whatever order they come. */
    method ExpectedCash(shift: Id) returns (total: int)
      ensures total == Expected(Tables(), sales.Tables(), shift)
    {
      total := 0;
      for i := 0 to |movements|
        invariant total == Moved(movements[..i], shift)
      {
        var m := movements[i];
        assert movements[..i + 1][..i] == movements[..i];
        if m.shift == shift {
          match m.kind {
            case OPENING_FLOAT => total := total + m.amount;
            case DEPOSIT => total := total + m.amount;
            case PAYOUT => total := total - m.amount;
            case DROP => total := total - m.amount;
            case _ =>
          }
        }
      }
      assert movements[..|movements|] == movements;
      var cashSales := set id | id in sales.sales && sales.sales[id].shift == Some(shift);
      ghost var shop := sales.Tables();
      ghost var f := id => SaleCash(shop, id);
      assert cashSales == ShiftSales(shop, shift);
      ghost var all := total + SumOver(cashSales, f);
      while cashSales != {}
        invariant total + SumOver(cashSales, f) == all
        decreases cashSales
      {
        var id :| id in cashSales;
        SumOverPick(cashSales, id, f);
        var cash := CashOfSale(id);
        total := total + cash;
        cashSales := cashSales - {id};
      }
    }

    method CashOfSale(id: Id) returns (cash: int)
      ensures cash == SaleCash(sales.Tables(), id)
    {
      cash := 0;
      for i := 0 to |sales.payments|
        invariant cash == PaidCash(sales.payments[..i], id)
      {
        var p := sales.payments[i];
        assert sales.payments[..i + 1][..i] == sales.payments[..i];
        if p.sale == id && p.status == PAID && p.how == CASH {
          cash := cash + p.amount;
        }
      }
      assert sales.payments[..|sales.payments|] == sales.payments;
      for i := 0 to |sales.refunds|
        invariant cash == PaidCash(sales.payments, id) - Refunded(sales.refunds[..i], id)
      {
        assert sales.refunds[..i + 1][..i] == sales.refunds[..i];
        if sales.refunds[i].sale == id {
          cash := cash - sales.refunds[i].amount;
        }
      }
      assert sales.refunds[..|sales.refunds|] == sales.refunds;
    }

    method Close(user: Principal, shift: Id, counted: nat) returns (r: Result<()>)
      modifies this
      ensures match CloseShift(old(Tables()), old(sales.Tables()), user, shift, counted)
              case Ok(t) => r == Ok(()) && Tables() == t
              case Err(e) => r == Err(e) && Tables() == old(Tables())
    {
      if shift !in shifts || shifts[shift].tenant != user.tenant || !shifts[shift].open {
        return Err(NOT_FOUND);
      }
      var expected := ExpectedCash(shift);
      shifts := shifts[shift := shifts[shift].(open := false, counted := Some(counted), expected := Some(expected),
                                               variance := Some(counted - expected))];
      movements := movements + [Movement(shift, COUNT, counted)];
      r := Ok(());
    }
  }

  // ---- what every run keeps --------------------------------------------------------------------------

  /** A register has at most one open shift; a closed one carries counted - expected; an open one carries nothing. */
  ghost predicate TillInv(till: Till) {
    && (forall s, t :: s in till.shifts && t in till.shifts && SameOpen(till.shifts[s], till.shifts[t]) ==> s == t)
    && (forall s :: s in till.shifts ==> ShiftOk(till.shifts[s]))
    && (forall i :: 0 <= i < |till.movements| ==> till.movements[i].shift in till.shifts)
  }

  predicate SameOpen(s: Shift, t: Shift) {
    s.open && t.open && s.register == t.register
  }

  predicate ShiftOk(s: Shift) {
    if s.open then s.counted.None? && s.expected.None? && s.variance.None?
    else s.counted.Some? && s.expected.Some? && s.variance == Some(s.counted.value - s.expected.value)
  }

  lemma OpenShiftKeeps(till: Till, user: Principal, register: Id, openingFloat: nat, id: Id)
    requires TillInv(till) && id !in till.shifts && OpenShift(till, user, register, openingFloat, id).Ok?
    ensures TillInv(OpenShift(till, user, register, openingFloat, id).value)
    ensures ClosedKept(till, OpenShift(till, user, register, openingFloat, id).value)
  {
  }

  /** The variance at closing is against the cash expected at that moment; no later call touches the closed row. */
  lemma CloseShiftKeeps(till: Till, shop: Shop, user: Principal, shift: Id, counted: nat)
    requires TillInv(till) && CloseShift(till, shop, user, shift, counted).Ok?
    ensures var till' := CloseShift(till, shop, user, shift, counted).value;
            && TillInv(till')
            && till'.shifts[shift].variance == Some(counted - Expected(till, shop, shift))
            && ClosedKept(till, till')
  {
  }

  /** What an accepted call puts into the drawer of one shift. */
  ghost function TillDelta(till: Till, shop: Shop, op: Op, shift: Id): int {
    if Try(till, shop, op).Err? then 0
    else match op
         case OpenOp(_, _, openingFloat, id, _) => if id == shift then openingFloat else 0
         case MoveOp(_, s, kind, amount, _) => if s == shift then Signed(Movement(s, kind, amount)) else 0
         case CloseOp(_, _, _, _) => 0
  }

  lemma ExpectedMoves(till: Till, till': Till, shop: Shop, m: Movement, shift: Id)
    requires till'.movements == till.movements + [m]
    ensures Expected(till', shop, shift) == Expected(till, shop, shift) + if m.shift == shift then Signed(m) else 0
  {
    MovedAppend(till.movements, m, shift);
  }

  /** Every call moves the expected cash by its delta. */
  lemma ExecMovesCash(till: Till, shop: Shop, op: Op, shift: Id)
    ensures Expected(Exec(till, shop, op), shop, shift)
            == Expected(till, shop, shift) + TillDelta(till, shop, op, shift)
  {
    var r := Try(till, shop, op);
    if r.Ok? {
      match op
      case OpenOp(_, _, openingFloat, id, _) =>
        ExpectedMoves(till, r.value, shop, Movement(id, OPENING_FLOAT, openingFloat), shift);
      case MoveOp(_, s, kind, amount, _) => ExpectedMoves(till, r.value, shop, Movement(s, kind, amount), shift);
      case CloseOp(_, s, counted, _) => ExpectedMoves(till, r.value, shop, Movement(s, COUNT, counted), shift);
    }
  }

  /** A float or deposit adds its amount, a payout or drop takes it; counts, adjustments and notes do nothing. */
  lemma SignedIs(m: Movement)
    ensures Signed(m) == if m.kind == OPENING_FLOAT || m.kind == DEPOSIT then m.amount
                         else if m.kind == PAYOUT || m.kind == DROP then 0 - m.amount else 0
  {
  }

  /** What a movement puts into the drawer: a float or deposit its amount, a payout or drop takes it, anything else
      (counts, adjustments, sale and refund notes) does nothing; and only in its own shift. */
  lemma MovementMoves(till: Till, shop: Shop, user: Principal, shift: Id, kind: MovementType, amount: int, k: Id)
    ensures var here := shift in till.shifts && till.shifts[shift].tenant == user.tenant && till.shifts[shift].open;
            match Move(till, user, shift, kind, amount)
            case Err(e) => e == NOT_FOUND && !here
            case Ok(till') =>
              && here && till'.shifts == till.shifts
              && Expected(till', shop, k) - Expected(till, shop, k)
                 == if k != shift then 0
                    else if kind == OPENING_FLOAT || kind == DEPOSIT then amount
                    else if kind == PAYOUT || kind == DROP then 0 - amount
                    else 0
  {
    var r := Move(till, user, shift, kind, amount);
    if r.Ok? {
      var m := Movement(shift, kind, amount);
      SignedIs(m);
      ExpectedMoves(till, r.value, shop, m, k);
    }
  }

  /** A shift is opened exactly on a register of the tenant without an open shift; its drawer gains the float, no other
      drawer anything. */
  lemma OpenAcceptedIff(till: Till, shop: Shop, user: Principal, register: Id, openingFloat: nat, id: Id, k: Id)
    ensures match OpenShift(till, user, register, openingFloat, id)
            case Err(e) =>
              if register in till.registers && till.registers[register] == user.tenant
              then e == VALIDATION_FAILED && exists s :: s in till.shifts && till.shifts[s].register == register
                                                         && till.shifts[s].open
              else e == NOT_FOUND
            case Ok(till') =>
              && register in till.registers && till.registers[register] == user.tenant
              && (forall s :: s in till.shifts && till.shifts[s].register == register ==> !till.shifts[s].open)
              && till'.shifts == till.shifts[id := till'.shifts[id]]
              && till'.shifts[id].open && till'.shifts[id].register == register
              && till'.shifts[id].tenant == user.tenant && till'.shifts[id].openingFloat == openingFloat
              && Expected(till', shop, k) - Expected(till, shop, k) == if k == id then openingFloat else 0
  {
    var r := OpenShift(till, user, register, openingFloat, id);
    if r.Ok? {
      var m := Movement(id, OPENING_FLOAT, openingFloat);
      SignedIs(m);
      ExpectedMoves(till, r.value, shop, m, k);
    }
  }

  /** A shift is closed exactly if it is the tenant's and open; it stores what was counted, what was expected, and the
      difference, and no drawer changes. */
  lemma CloseAcceptedIff(till: Till, shop: Shop, user: Principal, shift: Id, counted: nat, k: Id)
    ensures match CloseShift(till, shop, user, shift, counted)
            case Err(e) => e == NOT_FOUND && !(shift in till.shifts && till.shifts[shift].tenant == user.tenant
                                               && till.shifts[shift].open)
            case Ok(till') =>
              && shift in till.shifts && till.shifts[shift].tenant == user.tenant && till.shifts[shift].open
              && Expected(till', shop, k) == Expected(till, shop, k)
              && till'.shifts == till.shifts[shift := till'.shifts[shift]]
              && var s := till'.shifts[shift];
                 && !s.open && s.counted == Some(counted) && s.expected == Some(Expected(till, shop, shift))
                 && s.variance == Some(counted - Expected(till, shop, shift))
  {
    if CloseShift(till, shop, user, shift, counted).Ok? {
      ExpectedMoves(till, CloseShift(till, shop, user, shift, counted).value, shop, Movement(shift, COUNT, counted), k);
    }
  }

  /** Every call keeps the till's invariant and leaves closed shifts alone. */
  lemma ExecKeeps(till: Till, shop: Shop, op: Op)
    requires TillInv(till) && (op.OpenOp? ==> op.id !in till.shifts)
    ensures TillInv(Exec(till, shop, op)) && ClosedKept(till, Exec(till, shop, op))
  {
    if Try(till, shop, op).Ok? {
      match op
      case OpenOp(user, register, openingFloat, id, _) => OpenShiftKeeps(till, user, register, openingFloat, id);
      case MoveOp(user, s, kind, amount, _) =>
      case CloseOp(user, s, counted, _) => CloseShiftKeeps(till, shop, user, s, counted);
    }
  }

  ghost predicate ClosedKept(till: Till, till': Till) {
    forall s :: s in till.shifts && !till.shifts[s].open ==> s in till'.shifts && till'.shifts[s] == till.shifts[s]
  }

  lemma MovedAppend(movements: seq<Movement>, m: Movement, shift: Id)
    ensures Moved(movements + [m], shift) == Moved(movements, shift) + if m.shift == shift then Signed(m) else 0
  {
    assert (movements + [m])[..|movements|] == movements;
  }

  /** Tables that differ in one sale's row, payments and refunds differ in expected cash by that sale's share. */
  function Share(shop: Shop, shift: Id, id: Id): int {
    if id in shop.sales && shop.sales[id].shift == Some(shift) then SaleCash(shop, id) else 0
  }

  lemma OneSaleCash(till: Till, shop: Shop, shop': Shop, id: Id, shift: Id)
    requires shop'.sales.Keys == shop.sales.Keys + {id}
    requires forall k :: k in shop.sales && k != id ==> shop'.sales[k].shift == shop.sales[k].shift
    requires id in shop.sales ==> shop'.sales[id].shift == shop.sales[id].shift
    requires forall k :: k in shop.sales && k != id ==> SaleCash(shop', k) == SaleCash(shop, k)
    ensures Expected(till, shop', shift)
            == Expected(till, shop, shift) + Share(shop', shift, id) - Share(shop, shift, id)
  {
    var s, s' := ShiftSales(shop, shift), ShiftSales(shop', shift);
    var f, g := (k: Id) => SaleCash(shop, k), (k: Id) => SaleCash(shop', k);
    assert forall k :: k in shop'.sales.Keys <==> k in shop.sales.Keys || k == id;
    assert forall k :: k in shop'.sales <==> k in shop.sales || k == id;
    if id in s' {
      assert s' == s + {id};
      SumOverChange(s, s', id, f, g);
    } else {
      assert s' == s;
      SumOverSame(s, f, g);
    }
  }

  lemma PaidCashAppend(payments: seq<Payment>, p: Payment, sale: Id)
    ensures PaidCash(payments + [p], sale)
            == PaidCash(payments, sale) + if p.sale == sale && p.status == PAID && p.how == CASH then p.amount else 0
  {
    assert (payments + [p])[..|payments|] == payments;
  }

  lemma {:induction false} NoPaidCash(payments: seq<Payment>, sale: Id)
    requires forall i :: 0 <= i < |payments| ==> payments[i].sale != sale
    ensures PaidCash(payments, sale) == 0
  {
    if payments == [] {
    } else {
      NoPaidCash(payments[..|payments| - 1], sale);
    }
  }

  /** Completing a payment that is not in cash moves no cash. */
  lemma {:induction false} CardUpdate(payments: seq<Payment>, i: nat, p: Payment, sale: Id)
    requires i < |payments| && payments[i].how != CASH && p.how != CASH
    ensures PaidCash(payments[i := p], sale) == PaidCash(payments, sale)
  {
    var n := |payments| - 1;
    if i == n {
      assert payments[i := p][..n] == payments[..n];
    } else {
      CardUpdate(payments[..n], i, p, sale);
      assert payments[i := p][..n] == payments[..n][i := p];
    }
  }

  lemma {:induction false} NotRefunded(refunds: seq<Refund>, sale: Id)
    requires forall i :: 0 <= i < |refunds| ==> refunds[i].sale != sale
    ensures Refunded(refunds, sale) == 0
  {
    if refunds == [] {
    } else {
      NotRefunded(refunds[..|refunds| - 1], sale);
    }
  }

  lemma RefundedAppend(refunds: seq<Refund>, r: Refund, sale: Id)
    ensures Refunded(refunds + [r], sale) == Refunded(refunds, sale) + if r.sale == sale then r.amount else 0
  {
    assert (refunds + [r])[..|refunds|] == refunds;
  }
}
