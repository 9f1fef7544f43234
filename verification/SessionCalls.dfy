/** When each call about sessions and computers is accepted, with which error it is refused, and what it writes. */
module SessionCalls {
  import opened Common
  import opened Money
  import opened Ledger
  import opened Sessions

  /** The employee may act in the branch: no branches means all. */
  predicate MayActIn(user: Principal, branch: Id) {
    user.branches != {} ==> branch in user.branches
  }

  /** A session that is running or paused on the computer. */
  ghost predicate Occupied(f: Floor, computer: Id) {
    exists k :: k in f.sessions && f.sessions[k].computer == computer
                && (f.sessions[k].status == ACTIVE || f.sessions[k].status == PAUSED)
  }

  /** A session of the tenant's customer that is running or paused. */
  ghost predicate HasSession(f: Floor, tenant: Id, customer: Id) {
    exists k :: k in f.sessions && f.sessions[k].tenant == tenant && f.sessions[k].customer == Some(customer)
                && (f.sessions[k].status == ACTIVE || f.sessions[k].status == PAUSED)
  }

  /** A computer that the employee can find, and the refusal if there is none. */
  ghost predicate ComputerFound(f: Floor, user: Principal, computer: Id) {
    computer in f.computers && f.computers[computer].tenant == user.tenant && !f.computers[computer].deleted
  }

  /** The refusal of a call about a computer before its own checks. */
  ghost function ComputerRefusal(f: Floor, user: Principal, computer: Id): Option<Error> {
    if !ComputerFound(f, user, computer) then Some(NOT_FOUND)
    else if !MayActIn(user, f.computers[computer].branch) then Some(FORBIDDEN)
    else None
  }

  /** The refusal of a call about a session before its own checks: unknown here, out of scope, or over. */
  ghost function SessionRefusal(f: Floor, user: Principal, id: Id): Option<Error> {
    if !(id in f.sessions && f.sessions[id].tenant == user.tenant) then Some(NOT_FOUND)
    else if !MayActIn(user, f.sessions[id].branch) then Some(FORBIDDEN)
    else if f.sessions[id].status != ACTIVE && f.sessions[id].status != PAUSED then Some(VALIDATION_FAILED)
    else None
  }

  /** The price in force at a computer: its group's, or nothing at ratio 1 for a computer without a group. */
  ghost predicate IsPriceAt(p: Pricing, f: Floor, c: Computer) {
    if c.group.Some? && c.group.value in f.groups then p == f.groups[c.group.value]
    else p.pricePerMinute == 0 && p.ratio == 1.0 && p.minCharge == 0 && p.minMinutes == 0 && p.rounding == UP
         && !p.restartOnEnd
  }

  lemma PricingIs(f: Floor, c: Computer)
    ensures IsPriceAt(PricingOf(f, c), f, c)
  {
  }

  /** Every other session keeps its row. */
  ghost predicate OnlySession(f: Floor, f': Floor, id: Id) {
    && f'.sessions.Keys == f.sessions.Keys + {id}
    && forall k :: k in f.sessions && k != id ==> f'.sessions[k] == f.sessions[k]
  }

  // ---- opening --------------------------------------------------------------------------------------

  ghost function OpenRefusal(f: Floor, user: Principal, computer: Id, customer: Option<Id>): Option<Error> {
    if ComputerRefusal(f, user, computer).Some? then ComputerRefusal(f, user, computer)
    else if Occupied(f, computer) then Some(SESSION_ALREADY_ACTIVE)
    else if customer.Some? && HasSession(f, user.tenant, customer.value) then Some(SESSION_ALREADY_ACTIVE)
    else if customer.Some? && customer.value !in f.customers then Some(FOREIGN_KEY_VIOLATION)
    else None
  }

  lemma BusyIsOccupied(f: Floor, computer: Id, tenant: Id, customer: Id)
    ensures Busy(f, computer) <==> Occupied(f, computer)
    ensures HasLive(f, tenant, customer) <==> HasSession(f, tenant, customer)
  {
    if Busy(f, computer) {
      var k :| k in f.sessions && Live(f.sessions[k]) && f.sessions[k].computer == computer;
      assert f.sessions[k].computer == computer;
    }
    if Occupied(f, computer) {
      var k :| k in f.sessions && f.sessions[k].computer == computer && Live(f.sessions[k]);
    }
    if HasLive(f, tenant, customer) {
      var k :| k in f.sessions && Live(f.sessions[k]) && f.sessions[k].tenant == tenant
               && f.sessions[k].customer == Some(customer);
      assert f.sessions[k].tenant == tenant;
    }
    if HasSession(f, tenant, customer) {
      var k :| k in f.sessions && f.sessions[k].tenant == tenant && f.sessions[k].customer == Some(customer)
               && Live(f.sessions[k]);
    }
  }

  /** An opening is accepted exactly on a known computer in scope that is free, for no customer or a known one without a
      session; it starts one session there, at the ratio in force, with nothing billed, and occupies the computer. */
  lemma OpenAcceptedIff(f: Floor, user: Principal, computer: Id, customer: Option<Id>, source: BillingSource,
                        planned: Option<int>, id: Id, now: int)
    ensures match Open(f, user, computer, customer, source, planned, id, now)
            case Err(e) => OpenRefusal(f, user, computer, customer) == Some(e)
            case Ok(f') =>
              && OpenRefusal(f, user, computer, customer) == None
              && OnlySession(f, f', id)
              && (exists p :: IsPriceAt(p, f, f.computers[computer]) && f'.sessions[id].ratio == p.ratio)
              && Opened(f'.sessions[id], f.computers[computer], user, computer, customer, source, planned, now)
              && f'.computers == f.computers[computer := f.computers[computer].(status := IN_USE)]
              && f'.groups == f.groups
  {
    BusyIsOccupied(f, computer, user.tenant, if customer.Some? then customer.value else "");
    if computer in f.computers {
      PricingIs(f, f.computers[computer]);
    }
  }

  predicate Opened(s: Session, c: Computer, user: Principal, computer: Id, customer: Option<Id>, source: BillingSource,
                   planned: Option<int>, now: int)
  {
    && s.tenant == user.tenant && s.branch == c.branch && s.computer == computer && s.customer == customer
    && s.source == source && s.planned == planned && s.status == ACTIVE
    && s.startedAt == now && s.billedThroughAt == now && s.endedAt == None
    && s.secondsBilled == 0 && s.pausedSeconds == 0 && s.amount == 0
  }

  // ---- while it lasts -------------------------------------------------------------------------------

  lemma LoadRefusal(f: Floor, user: Principal, id: Id)
    ensures match LoadActive(f, user, id)
            case Ok(s) => SessionRefusal(f, user, id) == None && id in f.sessions && s == f.sessions[id]
            case Err(e) => SessionRefusal(f, user, id) == Some(e)
  {
  }

  /** Whole seconds from one time to another, none if the second is the earlier. */
  predicate IsWholeSeconds(n: int, from: int, to: int) {
    if to < from then n == 0 else 1000 * n <= to - from < 1000 * (n + 1)
  }

  /** The stretch since the checkpoint is billed at the live price of the session's computer. */
  ghost predicate BilledUpTo(f: Floor, s: Session, t: Session, now: int)
    requires s.computer in f.computers
  {
    exists n, p, charge ::
      && IsWholeSeconds(n, s.billedThroughAt, now) && IsPriceAt(p, f, f.computers[s.computer])
      && IsPriceOf(charge, n, p.pricePerMinute, p.ratio)
      && t.secondsBilled == s.secondsBilled + n && t.amount == s.amount + charge && t.billedThroughAt == now
  }

  lemma CheckpointBills(f: Floor, s: Session, t: Session, now: int)
    requires s.computer in f.computers
    requires var p := PricingOf(f, f.computers[s.computer]);
             var n := WholeSeconds(s.billedThroughAt, now);
             t.secondsBilled == s.secondsBilled + n && t.amount == s.amount + SegmentCharge(n, p)
             && t.billedThroughAt == now
    ensures BilledUpTo(f, s, t, now)
  {
    var p := PricingOf(f, f.computers[s.computer]);
    var n := WholeSeconds(s.billedThroughAt, now);
    PricingIs(f, f.computers[s.computer]);
    PriceIsNearest(n, p.pricePerMinute, p.ratio, 0);
    assert IsWholeSeconds(n, s.billedThroughAt, now);
    assert IsPriceOf(SegmentCharge(n, p), n, p.pricePerMinute, p.ratio);
  }

  /** A pause bills a running session up to now and pauses it; a paused one is left alone. */
  lemma PauseAcceptedIff(f: Floor, user: Principal, id: Id, now: int)
    requires Linked(f)
    ensures match Pause(f, user, id, now)
            case Err(e) => SessionRefusal(f, user, id) == Some(e)
            case Ok(f') =>
              && SessionRefusal(f, user, id) == None
              && f' == f.(sessions := f'.sessions) && OnlySession(f, f', id)
              && var s, t := f.sessions[id], f'.sessions[id];
                 if s.status == PAUSED then t == s
                 else t.status == PAUSED && t.pausedSeconds == s.pausedSeconds && t.computer == s.computer
                      && BilledUpTo(f, s, t, now)
  {
    LoadRefusal(f, user, id);
    if id in f.sessions && SessionRefusal(f, user, id) == None && f.sessions[id].status == ACTIVE {
      CheckpointBills(f, f.sessions[id], Pause(f, user, id, now).value.sessions[id], now);
    }
  }

  /** A resume bills nothing: it counts the whole seconds of the pause and starts again now; a running session is left
      alone. */
  lemma ResumeAcceptedIff(f: Floor, user: Principal, id: Id, now: int)
    ensures match Resume(f, user, id, now)
            case Err(e) => SessionRefusal(f, user, id) == Some(e)
            case Ok(f') =>
              && SessionRefusal(f, user, id) == None
              && f' == f.(sessions := f'.sessions) && OnlySession(f, f', id)
              && var s, t := f.sessions[id], f'.sessions[id];
                 if s.status == ACTIVE then t == s
                 else t.status == ACTIVE && t.billedThroughAt == now && t.secondsBilled == s.secondsBilled
                      && t.amount == s.amount
                      && IsWholeSeconds(t.pausedSeconds - s.pausedSeconds, s.billedThroughAt, now)
  {
    LoadRefusal(f, user, id);
  }

  /** Added time lengthens the plan, from nothing if there was none, and bills nothing. */
  lemma AddTimeAcceptedIff(f: Floor, user: Principal, id: Id, seconds: int, now: int)
    ensures match AddTime(f, user, id, seconds, now)
            case Err(e) => SessionRefusal(f, user, id) == Some(e)
            case Ok(f') =>
              && SessionRefusal(f, user, id) == None
              && f' == f.(sessions := f'.sessions) && OnlySession(f, f', id)
              && var s, t := f.sessions[id], f'.sessions[id];
                 && t == s.(planned := t.planned, events := t.events)
                 && t.planned == Some(if s.planned == None then seconds else s.planned.value + seconds)
  {
    LoadRefusal(f, user, id);
  }

  ghost function TransferRefusal(f: Floor, user: Principal, id: Id, to: Id): Option<Error> {
    if SessionRefusal(f, user, id).Some? then SessionRefusal(f, user, id)
    else if ComputerRefusal(f, user, to).Some? then ComputerRefusal(f, user, to)
    else if Occupied(f, to) then Some(SESSION_ALREADY_ACTIVE)
    else None
  }

  /** A transfer bills up to now at the old computer and goes on, in the same status, at the new one, with its branch
      and ratio. */
  lemma TransferAcceptedIff(f: Floor, user: Principal, id: Id, to: Id, now: int)
    requires Linked(f)
    ensures match Transfer(f, user, id, to, now)
            case Err(e) => TransferRefusal(f, user, id, to) == Some(e)
            case Ok(f') =>
              && TransferRefusal(f, user, id, to) == None && OnlySession(f, f', id)
              && var s, t := f.sessions[id], f'.sessions[id];
                 && t.status == s.status && t.pausedSeconds == s.pausedSeconds && t.customer == s.customer
                 && t.computer == to && t.branch == f.computers[to].branch
                 && (exists p :: IsPriceAt(p, f, f.computers[to]) && t.ratio == p.ratio)
                 && BilledUpTo(f, s, t, now)
  {
    LoadRefusal(f, user, id);
    BusyIsOccupied(f, to, user.tenant, "");
    if Transfer(f, user, id, to, now).Ok? {
      PricingIs(f, f.computers[to]);
      CheckpointBills(f, f.sessions[id], Transfer(f, user, id, to, now).value.sessions[id], now);
    }
  }

  /** A close is refused without a running or paused session in scope, or when the balance refuses the debit; it ends
      the session now, and bills no time of a pause. */
  lemma CloseAcceptedIff(f: Floor, b: Book, user: Principal, id: Id, now: int)
    requires Linked(f)
    ensures SessionRefusal(f, user, id).Some? ==>
              Close(f, b, user, id, now).Err? && Some(Close(f, b, user, id, now).error) == SessionRefusal(f, user, id)
    ensures Close(f, b, user, id, now).Ok? ==>
              var (f', _) := Close(f, b, user, id, now).value;
              && SessionRefusal(f, user, id) == None && OnlySession(f, f', id)
              && var s, t := f.sessions[id], f'.sessions[id];
                 && t.status == ENDED && t.endedAt == Some(now) && t.pausedSeconds == s.pausedSeconds
                 && (s.status == PAUSED ==> t.secondsBilled == s.secondsBilled)
                 && (s.status == ACTIVE ==>
                       IsWholeSeconds(t.secondsBilled - s.secondsBilled, s.billedThroughAt, now))
    ensures Close(f, b, user, id, now).Ok? ==>
              var rows := Close(f, b, user, id, now).value.1.rows;
              rows != b.rows ==> |rows| == |b.rows| + 1 && rows[..|b.rows|] == b.rows
                                 && rows[|b.rows|].tenant == user.tenant && rows[|b.rows|].actor == user.employee
    ensures SessionRefusal(f, user, id) == None && Close(f, b, user, id, now).Err? ==>
              Close(f, b, user, id, now).error == INSUFFICIENT_BALANCE
  {
    LoadRefusal(f, user, id);
  }

  // ---- computers ------------------------------------------------------------------------------------

  /** Creation needs the branch in scope, a system id of its own and a known group; the computer starts disconnected. */
  lemma CreateComputerAcceptedIff(f: Floor, user: Principal, computer: Id, branch: Id, group: Option<Id>, taken: bool)
    ensures match CreateComputer(f, user, computer, branch, group, taken)
            case Err(e) =>
              e == if !MayActIn(user, branch) then FORBIDDEN else if taken then VALIDATION_FAILED
                   else FOREIGN_KEY_VIOLATION
            case Ok(f') =>
              && MayActIn(user, branch) && !taken && (group.Some? ==> group.value in f.groups)
              && f' == f.(computers := f'.computers)
              && f'.computers == f.computers[computer := Computer(user.tenant, branch, group, DISCONNECTED, false)]
    ensures MayActIn(user, branch) && !taken && (group.Some? ==> group.value in f.groups) ==>
              CreateComputer(f, user, computer, branch, group, taken).Ok?
  {
  }

  /** An edit changes the branch and the group, each only if given, and nothing else; a removal only marks. */
  lemma EditComputerAcceptedIff(f: Floor, user: Principal, computer: Id, branch: Option<Id>, group: Option<Option<Id>>)
    ensures match UpdateComputer(f, user, computer, branch, group)
            case Err(e) =>
              if ComputerRefusal(f, user, computer).Some? then ComputerRefusal(f, user, computer) == Some(e)
              else e == FOREIGN_KEY_VIOLATION && group.Some? && group.value.Some? && group.value.value !in f.groups
            case Ok(f') =>
              && ComputerRefusal(f, user, computer) == None && f' == f.(computers := f'.computers)
              && f'.computers.Keys == f.computers.Keys
              && (group.Some? && group.value.Some? ==> group.value.value in f.groups)
              && (forall c :: c in f.computers && c != computer ==> f'.computers[c] == f.computers[c])
              && var c, e := f.computers[computer], f'.computers[computer];
                 && e == c.(branch := e.branch, group := e.group)
                 && e.branch == (match branch case Some(x) => x case None => c.branch)
                 && e.group == (match group case Some(x) => x case None => c.group)
    ensures match RemoveComputer(f, user, computer)
            case Err(e) => ComputerRefusal(f, user, computer) == Some(e)
            case Ok(f') =>
              && ComputerRefusal(f, user, computer) == None
              && f' == f.(computers := f.computers[computer := f.computers[computer].(deleted := true)])
  {
  }
}
