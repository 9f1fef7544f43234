/** Usage sessions: the open/pause/resume/transfer/close state machine and its billing. */
module Sessions {
  import opened Common
  import opened Money
  import opened Ledger

  datatype Pricing = Pricing(pricePerMinute: nat, ratio: real, minCharge: nat, minMinutes: nat, rounding: RoundingRule,
                             restartOnEnd: bool)

  const DEFAULT_PRICING := Pricing(0, 1.0, 0, 0, UP, false)

  datatype ComputerStatus = AVAILABLE | IN_USE | ENDING_SOON | FAULT | DISCONNECTED | RESERVED | MAINTENANCE

  datatype Computer = Computer(tenant: Id, branch: Id, group: Option<Id>, status: ComputerStatus, deleted: bool)

  datatype SessionStatus = PENDING | ACTIVE | PAUSED | ENDED | RECOVERED | CANCELLED

  datatype BillingSource = TIME_PACKAGE | MONEY_BALANCE | PAY_PER_USE | FREE | SUBSCRIPTION

  /** The append-only timeline, each event with its creation time. */
  datatype Event =
    | Started(at: int)
    | Paused(at: int)
    | Resumed(at: int)
    | TimeAdded(at: int, seconds: int)
    | Transferred(at: int, from: Id, to: Id, segSeconds: int, segCharge: int)
    | Ended(at: int, totalSeconds: int, finalTotal: int)

  /** One billed stretch and the price in force when it was billed. */
  datatype Segment = Segment(seconds: int, pricing: Pricing)

  /** Times are milliseconds. `segments` is a history variable: no operation reads it. */
  datatype Session = Session(tenant: Id, branch: Id, computer: Id, customer: Option<Id>, source: BillingSource,
                             status: SessionStatus, ratio: real, startedAt: int, endedAt: Option<int>,
                             billedThroughAt: int, planned: Option<int>, secondsBilled: int, pausedSeconds: int,
                             amount: int, events: seq<Event>, segments: seq<Segment>)

  /** The service's tables, and the ids of the customers' table that sessions refer to. */
  datatype Floor = Floor(groups: map<Id, Pricing>, computers: map<Id, Computer>, sessions: map<Id, Session>,
                         customers: set<Id>)

  predicate Live(s: Session) {
    s.status == ACTIVE || s.status == PAUSED
  }

  /** The foreign key from sessions to computers. */
  ghost predicate Linked(f: Floor) {
    forall id :: id in f.sessions ==> f.sessions[id].computer in f.computers
  }

  /** The live price: the group's current row, or the defaults. */
  function PricingOf(f: Floor, c: Computer): Pricing {
    if c.group.Some? && c.group.value in f.groups then f.groups[c.group.value] else DEFAULT_PRICING
  }

  function WholeSeconds(from: int, now: int): int {
    Max(0, (now - from) / 1000)
  }

  function SegmentCharge(seconds: int, p: Pricing): int {
    JsRound(RawCharge(seconds, p.pricePerMinute, p.ratio))
  }

  predicate Busy(f: Floor, computer: Id) {
    exists id :: id in f.sessions && Live(f.sessions[id]) && f.sessions[id].computer == computer
  }

  predicate HasLive(f: Floor, tenant: Id, customer: Id) {
    exists id :: id in f.sessions && Live(f.sessions[id]) && f.sessions[id].tenant == tenant
                 && f.sessions[id].customer == Some(customer)
  }

  function FindComputer(f: Floor, user: Principal, id: Id): (r: Result<Computer>)
    ensures r.Ok? ==> id in f.computers && r.value == f.computers[id]
  {
    if id !in f.computers || f.computers[id].tenant != user.tenant || f.computers[id].deleted then Err(NOT_FOUND)
    else if !InScope(user, f.computers[id].branch) then Err(FORBIDDEN)
    else Ok(f.computers[id])
  }

  function LoadActive(f: Floor, user: Principal, id: Id): (r: Result<Session>)
    ensures r.Ok? ==> id in f.sessions && r.value == f.sessions[id] && Live(r.value)
  {
    if id !in f.sessions || f.sessions[id].tenant != user.tenant then Err(NOT_FOUND)
    else if !InScope(user, f.sessions[id].branch) then Err(FORBIDDEN)
    else if !Live(f.sessions[id]) then Err(VALIDATION_FAILED)
    else Ok(f.sessions[id])
  }

  function SetStatus(f: Floor, computer: Id, status: ComputerStatus): Floor
    requires computer in f.computers
  {
    f.(computers := f.computers[computer := f.computers[computer].(status := status)])
  }

  function Put(f: Floor, id: Id, s: Session): Floor {
    f.(sessions := f.sessions[id := s])
  }

  // ---- the operations ------------------------------------------------------------------------

  function NewSession(user: Principal, c: Computer, computer: Id, customer: Option<Id>, source: BillingSource,
                      planned: Option<int>, ratio: real, now: int): Session
  {
    Session(user.tenant, c.branch, computer, customer, source, ACTIVE, ratio, now, None, now, planned, 0, 0, 0,
            [Started(now)], [])
  }

  function Open(f: Floor, user: Principal, computer: Id, customer: Option<Id>, source: BillingSource,
                planned: Option<int>, id: Id, now: int): Result<Floor>
  {
    var c :- FindComputer(f, user, computer);
    if Busy(f, computer) then Err(SESSION_ALREADY_ACTIVE)
    else if customer.Some? && HasLive(f, user.tenant, customer.value) then Err(SESSION_ALREADY_ACTIVE)
    else if customer.Some? && customer.value !in f.customers then Err(FOREIGN_KEY_VIOLATION)
    else
      var s := NewSession(user, c, computer, customer, source, planned, PricingOf(f, c).ratio, now);
      Ok(SetStatus(Put(f, id, s), computer, IN_USE))
  }

  function AddTime(f: Floor, user: Principal, id: Id, seconds: int, now: int): Result<Floor> {
    var s :- LoadActive(f, user, id);
    var planned := (if s.planned.Some? then s.planned.value else 0) + seconds;
    Ok(Put(f, id, s.(planned := Some(planned), events := s.events + [TimeAdded(now, seconds)])))
  }

  /** Bill the stretch since the last checkpoint and move the checkpoint to now. */
  function Checkpoint(s: Session, seconds: int, p: Pricing, now: int): Session {
    s.(secondsBilled := s.secondsBilled + seconds, amount := s.amount + SegmentCharge(seconds, p),
       billedThroughAt := now, segments := s.segments + [Segment(seconds, p)])
  }

  function Suspended(s: Session, p: Pricing, now: int): Session {
    Checkpoint(s, WholeSeconds(s.billedThroughAt, now), p, now).(status := PAUSED, events := s.events + [Paused(now)])
  }

  function Moved(s: Session, p: Pricing, to: Id, branch: Id, ratio: real, now: int): Session {
    var seconds := WholeSeconds(s.billedThroughAt, now);
    Checkpoint(s, seconds, p, now).(
      computer := to, branch := branch, ratio := ratio,
      events := s.events + [Transferred(now, s.computer, to, seconds, SegmentCharge(seconds, p))])
  }

  function Transfer(f: Floor, user: Principal, id: Id, to: Id, now: int): Result<Floor>
    requires Linked(f)
  {
    var s :- LoadActive(f, user, id);
    var target :- FindComputer(f, user, to);
    if Busy(f, to) then Err(SESSION_ALREADY_ACTIVE)
    else
      var p := PricingOf(f, f.computers[s.computer]);
      var moved := Moved(s, p, to, target.branch, PricingOf(f, target).ratio, now);
      Ok(Put(SetStatus(SetStatus(f, s.computer, AVAILABLE), to, IN_USE), id, moved))
  }

  function Pause(f: Floor, user: Principal, id: Id, now: int): Result<Floor>
    requires Linked(f)
  {
    var s :- LoadActive(f, user, id);
    if s.status == PAUSED then Ok(f)
    else Ok(Put(f, id, Suspended(s, PricingOf(f, f.computers[s.computer]), now)))
  }

  function Resume(f: Floor, user: Principal, id: Id, now: int): Result<Floor> {
    var s :- LoadActive(f, user, id);
    if s.status != PAUSED then Ok(f)
    else Ok(Put(f, id, s.(status := ACTIVE, billedThroughAt := now,
                          pausedSeconds := s.pausedSeconds + WholeSeconds(s.billedThroughAt, now),
                          events := s.events + [Resumed(now)])))
  }

  function FinalTotal(s: Session, p: Pricing, seconds: int): int {
    if s.source == FREE then 0
    else if s.amount > 0 then Max(RoundMinor(s.amount + SegmentCharge(seconds, p), p.rounding), p.minCharge)
    else ComputeSessionCharge(s.secondsBilled + seconds, p.pricePerMinute, p.ratio, p.minCharge, p.minMinutes,
                              p.rounding)
  }

  function ClosingSeconds(s: Session, now: int): int {
    if s.status == PAUSED then 0 else WholeSeconds(s.billedThroughAt, now)
  }

  function Closed(s: Session, p: Pricing, now: int): Session {
    var seconds := ClosingSeconds(s, now);
    var final := FinalTotal(s, p, seconds);
    s.(status := ENDED, endedAt := Some(now), billedThroughAt := now, secondsBilled := s.secondsBilled + seconds,
       amount := final, events := s.events + [Ended(now, s.secondsBilled + seconds, final)],
       segments := s.segments + [Segment(seconds, p)])
  }

  /** Package time depletes at the computer's billing ratio. */
  function TimeUnits(seconds: int, ratio: real): int {
    JsRound(seconds as real * ratio)
  }

  /** What an ended session takes from a prepaid balance, if anything. */
  function Debit(user: Principal, id: Id, s: Session, p: Pricing): Option<Delta> {
    if s.customer.None? || s.amount <= 0 then None
    else if s.source == MONEY_BALANCE then
      Some(Delta(user.tenant, s.customer.value, MONEY, -s.amount, USAGE, UsageSession, id, user.employee))
    else if s.source == TIME_PACKAGE then
      Some(Delta(user.tenant, s.customer.value, TIME_SECONDS, -TimeUnits(s.secondsBilled, p.ratio), USAGE,
                 UsageSession, id, user.employee))
    else None
  }

  function Close(f: Floor, b: Book, user: Principal, id: Id, now: int): Result<(Floor, Book)>
    requires Linked(f)
  {
    var s :- LoadActive(f, user, id);
    var p := PricingOf(f, f.computers[s.computer]);
    var ended := Closed(s, p, now);
    var d := Debit(user, id, ended, p);
    var b' :- if d.Some? then Apply(b, d.value) else Ok(b);
    Ok((Put(SetStatus(f, s.computer, if p.restartOnEnd then MAINTENANCE else AVAILABLE), id, ended), b'))
  }

  // ---- computers and groups are edited at any time ----------------------------------------------

  predicate KnownGroup(f: Floor, group: Option<Id>) {
    group.Some? ==> group.value in f.groups
  }

  /** Adds a computer with a new id; `taken` says that its system id belongs to another one. */
  function CreateComputer(f: Floor, user: Principal, computer: Id, branch: Id, group: Option<Id>, taken: bool)
    : Result<Floor>
  {
    if !InScope(user, branch) then Err(FORBIDDEN)
    else if taken then Err(VALIDATION_FAILED)
    else if !KnownGroup(f, group) then Err(FOREIGN_KEY_VIOLATION)
    else Ok(f.(computers := f.computers[computer := Computer(user.tenant, branch, group, DISCONNECTED, false)]))
  }

  /** Moves a computer to another branch or into another price group, or out of any, a live session or not. */
  function UpdateComputer(f: Floor, user: Principal, computer: Id, branch: Option<Id>, group: Option<Option<Id>>)
    : Result<Floor>
  {
    var c :- FindComputer(f, user, computer);
    if group.Some? && !KnownGroup(f, group.value) then Err(FOREIGN_KEY_VIOLATION)
    else Ok(f.(computers := f.computers[computer := c.(branch := if branch.Some? then branch.value else c.branch,
                                                       group := if group.Some? then group.value else c.group)]))
  }

  function RemoveComputer(f: Floor, user: Principal, computer: Id): Result<Floor> {
    var c :- FindComputer(f, user, computer);
    Ok(f.(computers := f.computers[computer := c.(deleted := true)]))
  }

  /** One call of the service, or an edit of a price group or of a computer; `id` of an opening, and `computer` of a
      creation, are new. */
  datatype Op =
    | OpenOp(user: Principal, computer: Id, customer: Option<Id>, source: BillingSource, planned: Option<int>, id: Id,
             now: int)
    | AddTimeOp(user: Principal, id: Id, seconds: int, now: int)
    | TransferOp(user: Principal, id: Id, to: Id, now: int)
    | PauseOp(user: Principal, id: Id, now: int)
    | ResumeOp(user: Principal, id: Id, now: int)
    | CloseOp(user: Principal, id: Id, now: int)
    | UpdateGroupOp(group: Id, pricing: Pricing, now: int)
    | CreateComputerOp(user: Principal, computer: Id, branch: Id, toGroup: Option<Id>, taken: bool, now: int)
    | UpdateComputerOp(user: Principal, computer: Id, toBranch: Option<Id>, regroup: Option<Option<Id>>, now: int)
    | RemoveComputerOp(user: Principal, computer: Id, now: int)

  function Try(f: Floor, b: Book, op: Op): Result<(Floor, Book)>
    requires Linked(f)
  {
    match op
    case OpenOp(user, computer, customer, source, planned, id, now) =>
      var f' :- Open(f, user, computer, customer, source, planned, id, now);
      Ok((f', b))
    case AddTimeOp(user, id, seconds, now) =>
      var f' :- AddTime(f, user, id, seconds, now);
      Ok((f', b))
    case TransferOp(user, id, to, now) =>
      var f' :- Transfer(f, user, id, to, now);
      Ok((f', b))
    case PauseOp(user, id, now) =>
      var f' :- Pause(f, user, id, now);
      Ok((f', b))
    case ResumeOp(user, id, now) =>
      var f' :- Resume(f, user, id, now);
      Ok((f', b))
    case CloseOp(user, id, now) => Close(f, b, user, id, now)
    case UpdateGroupOp(group, pricing, _) => Ok((f.(groups := f.groups[group := pricing]), b))
    case CreateComputerOp(user, computer, branch, group, taken, _) =>
      var f' :- CreateComputer(f, user, computer, branch, group, taken);
      Ok((f', b))
    case UpdateComputerOp(user, computer, branch, group, _) =>
      var f' :- UpdateComputer(f, user, computer, branch, group);
      Ok((f', b))
    case RemoveComputerOp(user, computer, _) =>
      var f' :- RemoveComputer(f, user, computer);
      Ok((f', b))
  }

  /** A refused call changes nothing. */
  function Exec(f: Floor, b: Book, op: Op): (Floor, Book)
    requires Linked(f)
  {
    var r := Try(f, b, op);
    if r.Ok? then r.value else (f, b)
  }

  // ---- the service ---------------------------------------------------------------------------

  class SessionsService {
    const balances: BalanceService
    var groups: map<Id, Pricing>
    var computers: map<Id, Computer>
    var sessions: map<Id, Session>
    var customers: set<Id>

    ghost function Tables(): Floor
      reads this
    {
      Floor(groups, computers, sessions, customers)
    }

    constructor (balances: BalanceService, groups: map<Id, Pricing>, computers: map<Id, Computer>, customers: set<Id>)
      ensures this.balances == balances && Tables() == Floor(groups, computers, map[], customers)
    {
      this.balances, this.groups, this.computers, this.customers := balances, groups, computers, customers;
      this.sessions := map[];
    }

    /** r is what the specification gives, and on an error nothing has changed. */
    ghost predicate Did(spec: Result<Floor>, before: Floor, r: Result<()>)
      reads this
    {
      match spec
      case Ok(f) => r == Ok(()) && Tables() == f
      case Err(e) => r == Err(e) && Tables() == before
    }

    method OpenSession(user: Principal, computer: Id, customer: Option<Id>, source: BillingSource,
                       planned: Option<int>, id: Id, now: int) returns (r: Result<()>)
      modifies this
      ensures Did(Open(old(Tables()), user, computer, customer, source, planned, id, now), old(Tables()), r)
    {
      if computer !in computers || computers[computer].tenant != user.tenant || computers[computer].deleted {
        return Err(NOT_FOUND);
      }
      var c := computers[computer];
      if !InScope(user, c.branch) {
        return Err(FORBIDDEN);
      }
      if exists k :: k in sessions && Live(sessions[k]) && sessions[k].computer == computer {
        return Err(SESSION_ALREADY_ACTIVE);
      }
      if customer.Some? && exists k :: k in sessions && Live(sessions[k]) && sessions[k].tenant == user.tenant
                                       && sessions[k].customer == Some(customer.value) {
        return Err(SESSION_ALREADY_ACTIVE);
      }
      if customer.Some? && customer.value !in customers {
        return Err(FOREIGN_KEY_VIOLATION);
      }
      var pricing := if c.group.Some? && c.group.value in groups then groups[c.group.value] else DEFAULT_PRICING;
      sessions := sessions[id := NewSession(user, c, computer, customer, source, planned, pricing.ratio, now)];
      computers := computers[computer := c.(status := IN_USE)];
      r := Ok(());
    }

    method LoadActiveSession(user: Principal, id: Id) returns (r: Result<Session>)
      ensures r == LoadActive(Tables(), user, id)
    {
      if id !in sessions || sessions[id].tenant != user.tenant {
        return Err(NOT_FOUND);
      }
      if !InScope(user, sessions[id].branch) {
        return Err(FORBIDDEN);
      }
      if sessions[id].status != ACTIVE && sessions[id].status != PAUSED {
        return Err(VALIDATION_FAILED);
      }
      r := Ok(sessions[id]);
    }

    method PricingFor(s: Session) returns (p: Pricing)
      requires s.computer in computers
      ensures p == PricingOf(Tables(), computers[s.computer])
    {
      var group := computers[s.computer].group;
      p := if group.Some? && group.value in groups then groups[group.value] else DEFAULT_PRICING;
    }

    method TransferSession(user: Principal, id: Id, to: Id, now: int) returns (r: Result<()>)
      requires Linked(Tables())
      modifies this
      ensures Did(Transfer(old(Tables()), user, id, to, now), old(Tables()), r)
    {
      var s :- LoadActiveSession(user, id);
      if to !in computers || computers[to].tenant != user.tenant || computers[to].deleted {
        return Err(NOT_FOUND);
      }
      var target := computers[to];
      if !InScope(user, target.branch) {
        return Err(FORBIDDEN);
      }
      if exists k :: k in sessions && Live(sessions[k]) && sessions[k].computer == to {
        return Err(SESSION_ALREADY_ACTIVE);
      }
      var segSeconds := Max(0, (now - s.billedThroughAt) / 1000);
      var pricing := PricingFor(s);
      var segCharge := SegmentCharge(segSeconds, pricing);
      var targetPricing :=
        if target.group.Some? && target.group.value in groups then groups[target.group.value] else DEFAULT_PRICING;
      computers := computers[s.computer := computers[s.computer].(status := AVAILABLE)];
      computers := computers[to := computers[to].(status := IN_USE)];
      sessions := sessions[id := s.(computer := to, branch := target.branch, ratio := targetPricing.ratio,
                                    secondsBilled := s.secondsBilled + segSeconds, amount := s.amount + segCharge,
                                    billedThroughAt := now,
                                    events := s.events + [Transferred(now, s.computer, to, segSeconds, segCharge)],
                                    segments := s.segments + [Segment(segSeconds, pricing)])];
      r := Ok(());
    }

    method PauseSession(user: Principal, id: Id, now: int) returns (r: Result<()>)
      requires Linked(Tables())
      modifies this
      ensures Did(Pause(old(Tables()), user, id, now), old(Tables()), r)
    {
      var s :- LoadActiveSession(user, id);
      if s.status == PAUSED {
        return Ok(());
      }
      var segSeconds := Max(0, (now - s.billedThroughAt) / 1000);
      var pricing := PricingFor(s);
      sessions := sessions[id := s.(status := PAUSED, secondsBilled := s.secondsBilled + segSeconds,
                                    amount := s.amount + SegmentCharge(segSeconds, pricing), billedThroughAt := now,
                                    events := s.events + [Paused(now)],
                                    segments := s.segments + [Segment(segSeconds, pricing)])];
      r := Ok(());
    }

    method AddTimeToSession(user: Principal, id: Id, seconds: int, now: int) returns (r: Result<()>)
      modifies this
      ensures Did(AddTime(old(Tables()), user, id, seconds, now), old(Tables()), r)
    {
      var s :- LoadActiveSession(user, id);
      var planned := (if s.planned.Some? then s.planned.value else 0) + seconds;
      sessions := sessions[id := s.(planned := Some(planned), events := s.events + [TimeAdded(now, seconds)])];
      r := Ok(());
    }

    method ResumeSession(user: Principal, id: Id, now: int) returns (r: Result<()>)
      modifies this
      ensures Did(Resume(old(Tables()), user, id, now), old(Tables()), r)
    {
      var s :- LoadActiveSession(user, id);
      if s.status != PAUSED {
        return Ok(());
      }
      var pausedSeconds := Max(0, (now - s.billedThroughAt) / 1000);
      sessions := sessions[id := s.(status := ACTIVE, pausedSeconds := s.pausedSeconds + pausedSeconds,
                                    billedThroughAt := now, events := s.events + [Resumed(now)])];
      r := Ok(());
    }

    method FinalCharge(s: Session, pricing: Pricing, segSeconds: int) returns (finalTotal: int)
      ensures finalTotal == FinalTotal(s, pricing, segSeconds)
    {
      var hadTransfers := s.amount > 0;
      if s.source == FREE {
        finalTotal := 0;
      } else if hadTransfers {
        finalTotal := Max(RoundMinor(s.amount + SegmentCharge(segSeconds, pricing), pricing.rounding),
                          pricing.minCharge);
      } else {
        finalTotal := ComputeSessionCharge(s.secondsBilled + segSeconds, pricing.pricePerMinute, pricing.ratio,
                                           pricing.minCharge, pricing.minMinutes, pricing.rounding);
      }
    }

    method Deduct(user: Principal, id: Id, s: Session, pricing: Pricing) returns (r: Result<()>)
      modifies balances
      ensures var d := Debit(user, id, s, pricing);
              match if d.Some? then Apply(old(balances.Contents()), d.value) else Ok(old(balances.Contents()))
              case Ok(b) => r == Ok(()) && balances.Contents() == b
              case Err(e) => r == Err(e) && balances.Contents() == old(balances.Contents())
    {
      if s.customer.Some? && s.amount > 0 {
        if s.source == MONEY_BALANCE {
          var _ :- balances.ApplyWithin(
            Delta(user.tenant, s.customer.value, MONEY, -s.amount, USAGE, UsageSession, id, user.employee));
        } else if s.source == TIME_PACKAGE {
          var timeUnits := TimeUnits(s.secondsBilled, pricing.ratio);
          var _ :- balances.ApplyWithin(
            Delta(user.tenant, s.customer.value, TIME_SECONDS, -timeUnits, USAGE, UsageSession, id, user.employee));
        }
      }
      r := Ok(());
    }

    method CloseSession(user: Principal, id: Id, now: int) returns (r: Result<()>)
      requires Linked(Tables())
      modifies this, balances
      ensures match Close(old(Tables()), old(balances.Contents()), user, id, now)
              case Ok((f, b)) => r == Ok(()) && Tables() == f && balances.Contents() == b
              case Err(e) =>
                r == Err(e) && Tables() == old(Tables()) && balances.Contents() == old(balances.Contents())
    {
      var s :- LoadActiveSession(user, id);
      var segSeconds := if s.status == PAUSED then 0 else Max(0, (now - s.billedThroughAt) / 1000);
      var pricing := PricingFor(s);
      var totalSeconds := s.secondsBilled + segSeconds;
      var finalTotal := FinalCharge(s, pricing, segSeconds);
      var ended := s.(status := ENDED, endedAt := Some(now), billedThroughAt := now, secondsBilled := totalSeconds,
                      amount := finalTotal, events := s.events + [Ended(now, totalSeconds, finalTotal)],
                      segments := s.segments + [Segment(segSeconds, pricing)]);
      assert ended == Closed(s, pricing, now);
      var _ :- Deduct(user, id, ended, pricing);
      var status := if pricing.restartOnEnd then MAINTENANCE else AVAILABLE;
      computers := computers[s.computer := computers[s.computer].(status := status)];
      sessions := sessions[id := ended];
      r := Ok(());
    }
  }
}
