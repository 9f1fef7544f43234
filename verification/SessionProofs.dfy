/** What every run of session calls keeps: exclusivity, time accounting, per-segment billing, conservation. */
module SessionProofs {
  import opened Common
  import opened Money
  import opened Ledger
  import opened Sessions

  // ---- reference definitions -----------------------------------------------------------------

  function Seconds(segs: seq<Segment>): int {
    if segs == [] then 0 else Seconds(segs[..|segs| - 1]) + segs[|segs| - 1].seconds
  }

  /** Each segment charged at its own computer's price. */
  function Charges(segs: seq<Segment>): int {
    if segs == [] then 0 else
      var last := segs[|segs| - 1];
      Charges(segs[..|segs| - 1]) + SegmentCharge(last.seconds, last.pricing)
  }

  /** The bill of an ended session, from its segments alone: the last one carries the closing price. */
  function Bill(source: BillingSource, segs: seq<Segment>): int
    requires segs != []
  {
    var p := segs[|segs| - 1].pricing;
    if source == FREE then 0
    else if Charges(segs[..|segs| - 1]) > 0 then Max(RoundMinor(Charges(segs), p.rounding), p.minCharge)
    else ComputeSessionCharge(Seconds(segs), p.pricePerMinute, p.ratio, p.minCharge, p.minMinutes, p.rounding)
  }

  function Sum(xs: seq<int>): int {
    if xs == [] then 0 else Sum(xs[..|xs| - 1]) + xs[|xs| - 1]
  }

  /** Each amount is the price of its segment. */
  ghost predicate PricesOf(amounts: seq<int>, segs: seq<Segment>) {
    && |amounts| == |segs|
    && forall i :: 0 <= i < |segs| ==>
         IsPriceOf(amounts[i], segs[i].seconds, segs[i].pricing.pricePerMinute, segs[i].pricing.ratio)
  }

  ghost predicate CostsSum(amount: int, segs: seq<Segment>, amounts: seq<int>)
    requires segs != []
  {
    var p := segs[|segs| - 1].pricing;
    exists r :: IsRounded(r, Sum(amounts), p.rounding) && amount == if r < p.minCharge then p.minCharge else r
  }

  ghost predicate CostsOne(amount: int, segs: seq<Segment>)
    requires segs != []
  {
    var p := segs[|segs| - 1].pricing;
    var seconds := if Seconds(segs) < 60 * p.minMinutes then 60 * p.minMinutes else Seconds(segs);
    exists n, r :: IsPriceOf(n, seconds, p.pricePerMinute, p.ratio) && IsRounded(r, n, p.rounding)
                   && amount == if r < p.minCharge then p.minCharge else r
  }

  /** What an ended session must cost, without the pricing engine: nothing if free; if its earlier segments came to
      something, the sum of all, rounded by the last price's rule; else the price of all its seconds in one; and never
      less than the minimum charge. */
  ghost predicate MustCost(amount: int, source: BillingSource, segs: seq<Segment>)
    requires segs != []
  {
    if source == FREE then amount == 0
    else exists amounts ::
           && PricesOf(amounts, segs)
           && if Sum(amounts[..|segs| - 1]) > 0 then CostsSum(amount, segs, amounts) else CostsOne(amount, segs)
  }

  /** The pauses, resumes and transfers so far. */
  function Checkpoints(evs: seq<Event>): nat {
    if evs == [] then 0 else
      var last := evs[|evs| - 1];
      Checkpoints(evs[..|evs| - 1]) + if last.Paused? || last.Resumed? || last.Transferred? then 1 else 0
  }

  /** A stopwatch that the timeline starts and stops. */
  datatype Watch = Watch(total: int, since: Option<int>)

  function Stop(w: Watch, at: int): Watch {
    Watch(w.total + (if w.since.Some? then at - w.since.value else 0), None)
  }

  function Tick(w: Watch, e: Event): Watch {
    if e.Started? || e.Resumed? then Watch(w.total, Some(e.at))
    else if e.Paused? || e.Ended? then Stop(w, e.at)
    else w
  }

  function WatchOf(evs: seq<Event>): Watch {
    if evs == [] then Watch(0, None) else
      Tick(WatchOf(evs[..|evs| - 1]), evs[|evs| - 1])
  }

  /** Milliseconds spent ACTIVE up to `now`, read off the timeline. */
  function ActiveMs(evs: seq<Event>, now: int): int {
    Stop(WatchOf(evs), now).total
  }

  /** Some transfer happened while the session was paused. */
  predicate MovedWhilePaused(evs: seq<Event>) {
    evs != [] && (MovedWhilePaused(evs[..|evs| - 1])
                  || (evs[|evs| - 1].Transferred? && WatchOf(evs[..|evs| - 1]).since.None?))
  }

  // ---- the invariant of one session ----------------------------------------------------------

  ghost predicate SegmentsAddUp(s: Session) {
    && s.secondsBilled == Seconds(s.segments)
    && (forall i :: 0 <= i < |s.segments| ==> s.segments[i].seconds >= 0)
    && (Live(s) ==> s.amount == Charges(s.segments))
    && (s.status == ENDED ==> s.segments != [] && s.amount == Bill(s.source, s.segments) >= 0)
  }

  ghost predicate Elapsed(s: Session, clock: int) {
    var gap := s.billedThroughAt - s.startedAt - 1000 * (s.secondsBilled + s.pausedSeconds);
    && s.startedAt <= s.billedThroughAt <= clock
    && (Live(s) ==> 0 <= gap <= 999 * Checkpoints(s.events))
  }

  ghost predicate Watched(s: Session) {
    var w := WatchOf(s.events);
    var active := w.total + if w.since.Some? then s.billedThroughAt - w.since.value else 0;
    && (s.status == ACTIVE <==> w.since.Some?)
    && (w.since.Some? ==> w.since.value <= s.billedThroughAt)
    && active - 1000 * s.secondsBilled <= 999 * |s.segments|
    && (!MovedWhilePaused(s.events) ==> 1000 * s.secondsBilled <= active)
  }

  ghost predicate SessionOk(s: Session, clock: int) {
    (Live(s) || s.status == ENDED) && SegmentsAddUp(s) && Elapsed(s, clock) && Watched(s)
  }

  lemma StartedOk(user: Principal, c: Computer, computer: Id, customer: Option<Id>, source: BillingSource,
                  planned: Option<int>, ratio: real, now: int)
    ensures SessionOk(NewSession(user, c, computer, customer, source, planned, ratio, now), now)
  {
    var evs := [Started(now)];
    assert evs[..0] == [];
    assert WatchOf(evs) == Watch(0, Some(now));
  }

  lemma EventAppend(evs: seq<Event>, e: Event)
    ensures Checkpoints(evs + [e]) == Checkpoints(evs) + if e.Paused? || e.Resumed? || e.Transferred? then 1 else 0
    ensures MovedWhilePaused(evs + [e])
            <==> MovedWhilePaused(evs) || (e.Transferred? && WatchOf(evs).since.None?)
    ensures WatchOf(evs + [e]) == Tick(WatchOf(evs), e)
  {
    assert (evs + [e])[..|evs|] == evs;
  }

  lemma SegmentAppend(segs: seq<Segment>, g: Segment)
    ensures Seconds(segs + [g]) == Seconds(segs) + g.seconds
    ensures Charges(segs + [g]) == Charges(segs) + SegmentCharge(g.seconds, g.pricing)
  {
    assert (segs + [g])[..|segs|] == segs;
  }

  lemma WholeSecondsLoss(from: int, now: int)
    requires from <= now
    ensures WholeSeconds(from, now) >= 0 && 0 <= now - from - 1000 * WholeSeconds(from, now) <= 999
  {
  }

  /** A checkpoint with its event keeps the session's invariant. */
  lemma SuspendedOk(s: Session, p: Pricing, now: int, clock: int)
    requires SessionOk(s, clock) && s.status == ACTIVE && clock <= now
    ensures SessionOk(Suspended(s, p, now), now)
  {
    WholeSecondsLoss(s.billedThroughAt, now);
    EventAppend(s.events, Paused(now));
    SegmentAppend(s.segments, Segment(WholeSeconds(s.billedThroughAt, now), p));
  }

  lemma MovedOk(s: Session, p: Pricing, to: Id, branch: Id, ratio: real, now: int, clock: int)
    requires SessionOk(s, clock) && Live(s) && clock <= now
    ensures SessionOk(Moved(s, p, to, branch, ratio, now), now)
  {
    var seconds := WholeSeconds(s.billedThroughAt, now);
    WholeSecondsLoss(s.billedThroughAt, now);
    EventAppend(s.events, Transferred(now, s.computer, to, seconds, SegmentCharge(seconds, p)));
    SegmentAppend(s.segments, Segment(seconds, p));
  }

  lemma ResumeOk(s: Session, now: int, clock: int)
    requires SessionOk(s, clock) && s.status == PAUSED && clock <= now
    ensures SessionOk(s.(status := ACTIVE, billedThroughAt := now,
                         pausedSeconds := s.pausedSeconds + WholeSeconds(s.billedThroughAt, now),
                         events := s.events + [Resumed(now)]), now)
  {
    WholeSecondsLoss(s.billedThroughAt, now);
    EventAppend(s.events, Resumed(now));
  }

  lemma ClosedAddsUp(s: Session, p: Pricing, now: int)
    requires SegmentsAddUp(s) && Live(s)
    ensures SegmentsAddUp(Closed(s, p, now))
  {
    var g := Segment(ClosingSeconds(s, now), p);
    SegmentAppend(s.segments, g);
    assert (s.segments + [g])[..|s.segments|] == s.segments;
    assert Bill(s.source, s.segments + [g]) == FinalTotal(s, p, g.seconds);
  }

  lemma CloseOk(s: Session, p: Pricing, now: int, clock: int)
    requires SessionOk(s, clock) && Live(s) && clock <= now
    ensures SessionOk(Closed(s, p, now), now)
  {
    var seconds := ClosingSeconds(s, now);
    ClosedAddsUp(s, p, now);
    WholeSecondsLoss(s.billedThroughAt, now);
    EventAppend(s.events, Ended(now, s.secondsBilled + seconds, FinalTotal(s, p, seconds)));
  }

  // ---- the invariant of the floor and the ledger -----------------------------------------------

  /** One live session per computer and per customer of a tenant; IN_USE marks exactly the occupied computers. */
  ghost predicate Exclusive(f: Floor) {
    && (forall i, j :: i in f.sessions && j in f.sessions && i != j && Live(f.sessions[i]) && Live(f.sessions[j]) ==>
          && f.sessions[i].computer != f.sessions[j].computer
          && !(f.sessions[i].tenant == f.sessions[j].tenant && f.sessions[i].customer.Some?
               && f.sessions[i].customer == f.sessions[j].customer))
    && (forall c :: c in f.computers ==> (f.computers[c].status == IN_USE <==> Busy(f, c)))
  }

  /** The one ledger row of an ended prepaid session with something to pay, and no row for any other session. */
  ghost predicate ChargedOnce(s: Session, rows: seq<Row>) {
    if s.status == ENDED && s.customer.Some? && s.amount > 0 && (s.source == MONEY_BALANCE || s.source == TIME_PACKAGE)
    then
      && |rows| == 1 && rows[0].customer == s.customer.value && rows[0].kind == USAGE
      && rows[0].unit == (if s.source == MONEY_BALANCE then MONEY else TIME_SECONDS)
      && s.segments != []
      && (s.source == MONEY_BALANCE ==> rows[0].amount == -s.amount)
      && (s.source == TIME_PACKAGE ==>
            IsNearest(-rows[0].amount, Seconds(s.segments) as real * s.segments[|s.segments| - 1].pricing.ratio))
    else rows == []
  }

  /** What one session contributes to the money its customer has been billed. */
  function MoneyEnded(f: Floor, c: Id, id: Id): int {
    if id in f.sessions && f.sessions[id].status == ENDED && f.sessions[id].source == MONEY_BALANCE
       && f.sessions[id].customer == Some(c) then f.sessions[id].amount else 0
  }

  ghost function TotalMoneyEnded(f: Floor, c: Id): int {
    SumOver(f.sessions.Keys, id => MoneyEnded(f, c, id))
  }

  ghost predicate Conserved(f: Floor, rows: seq<Row>) {
    forall c :: Referencing(rows, UsageSession, c, MONEY) == -TotalMoneyEnded(f, c)
  }

  ghost predicate RowsMatch(f: Floor, rows: seq<Row>, id: Id) {
    if id in f.sessions then ChargedOnce(f.sessions[id], RowsOf(rows, UsageSession, id))
    else RowsOf(rows, UsageSession, id) == []
  }

  ghost predicate FloorInv(f: Floor, rows: seq<Row>, clock: int) {
    && Linked(f) && Exclusive(f) && Conserved(f, rows)
    && (forall id :: id in f.sessions ==> SessionOk(f.sessions[id], clock))
    && (forall id :: RowsMatch(f, rows, id))
  }

  lemma MoneyChange(f: Floor, f': Floor, id: Id, s: Session, c: Id)
    requires f'.sessions == f.sessions[id := s]
    ensures TotalMoneyEnded(f', c) == TotalMoneyEnded(f, c) + MoneyEnded(f', c, id) - MoneyEnded(f, c, id)
  {
    SumOverChange(f.sessions.Keys, f'.sessions.Keys, id, k => MoneyEnded(f, c, k), k => MoneyEnded(f', c, k));
  }

  lemma Later(s: Session, clock: int, now: int)
    requires SessionOk(s, clock) && clock <= now
    ensures SessionOk(s, now)
  {
  }

  lemma AllLater(f: Floor, clock: int, now: int)
    requires clock <= now && forall k :: k in f.sessions ==> SessionOk(f.sessions[k], clock)
    ensures forall k :: k in f.sessions ==> SessionOk(f.sessions[k], now)
  {
    forall k | k in f.sessions
      ensures SessionOk(f.sessions[k], now)
    {
      Later(f.sessions[k], clock, now);
    }
  }

  /** After a step that touches one session, every session still satisfies its invariant. */
  lemma AllOk(f: Floor, f': Floor, id: Id, clock: int, now: int)
    requires clock <= now && id in f'.sessions && SessionOk(f'.sessions[id], now)
    requires forall k :: k in f.sessions ==> SessionOk(f.sessions[k], clock)
    requires forall k :: k in f'.sessions && k != id ==> k in f.sessions && f'.sessions[k] == f.sessions[k]
    ensures forall k :: k in f'.sessions ==> SessionOk(f'.sessions[k], now)
  {
    forall k | k in f'.sessions
      ensures SessionOk(f'.sessions[k], now)
    {
      if k != id {
        Later(f.sessions[k], clock, now);
      }
    }
  }

  lemma RowsMatchFrame(f: Floor, f': Floor, rows: seq<Row>, rows': seq<Row>, t: RefType, id: Id, k: Id)
    requires |rows| <= |rows'| && rows'[..|rows|] == rows
    requires forall i :: |rows| <= i < |rows'| ==> rows'[i].refType == t && rows'[i].refId == id
    requires RowsMatch(f, rows, k)
    requires k in f'.sessions <==> k in f.sessions
    requires k in f.sessions ==> f'.sessions[k] == f.sessions[k]
    requires t != UsageSession || k != id
    ensures RowsMatch(f', rows', k)
  {
    OthersUnchanged(rows, rows', t, id, UsageSession, k);
  }

  /** After a step that touches one session, the rows of every session are the expected ones. */
  lemma AllMatch(f: Floor, f': Floor, rows: seq<Row>, rows': seq<Row>, id: Id)
    requires |rows| <= |rows'| && rows'[..|rows|] == rows
    requires forall i :: |rows| <= i < |rows'| ==> rows'[i].refType == UsageSession && rows'[i].refId == id
    requires forall k :: RowsMatch(f, rows, k)
    requires f'.sessions.Keys == f.sessions.Keys + {id}
    requires forall k :: k in f.sessions && k != id ==> f'.sessions[k] == f.sessions[k]
    requires RowsMatch(f', rows', id)
    ensures forall k :: RowsMatch(f', rows', k)
  {
    forall k
      ensures RowsMatch(f', rows', k)
    {
      if k != id {
        assert k in f'.sessions.Keys <==> k in f.sessions.Keys;
        RowsMatchFrame(f, f', rows, rows', UsageSession, id, k);
      }
    }
  }

  /** A step that touches one session and appends only rows that refer to it. */
  lemma OneSessionStep(f: Floor, f': Floor, rows: seq<Row>, rows': seq<Row>, id: Id, s: Session, clock: int, now: int)
    requires FloorInv(f, rows, clock) && clock <= now
    requires |rows| <= |rows'| && rows'[..|rows|] == rows
    requires forall i :: |rows| <= i < |rows'| ==> rows'[i].refType == UsageSession && rows'[i].refId == id
    requires Linked(f') && Exclusive(f') && Conserved(f', rows')
    requires f'.sessions == f.sessions[id := s] && SessionOk(s, now) && RowsMatch(f', rows', id)
    ensures FloorInv(f', rows', now)
  {
    AllOk(f, f', id, clock, now);
    AllMatch(f, f', rows, rows', id);
  }

  /** A step that touches one live session and no ledger row. */
  lemma QuietStep(f: Floor, f': Floor, rows: seq<Row>, id: Id, s: Session, clock: int, now: int)
    requires FloorInv(f, rows, clock) && clock <= now
    requires Linked(f') && Exclusive(f')
    requires f'.sessions == f.sessions[id := s] && SessionOk(s, now) && Live(s)
    requires id in f.sessions ==> Live(f.sessions[id])
    ensures FloorInv(f', rows, now)
  {
    forall c
      ensures Referencing(rows, UsageSession, c, MONEY) == -TotalMoneyEnded(f', c)
    {
      MoneyChange(f, f', id, s, c);
    }
    assert RowsMatch(f, rows, id);
    OneSessionStep(f, f', rows, rows, id, s, clock, now);
  }

  lemma OpenKeeps(f: Floor, rows: seq<Row>, user: Principal, computer: Id, customer: Option<Id>, source: BillingSource,
                  planned: Option<int>, id: Id, clock: int, now: int)
    requires FloorInv(f, rows, clock) && clock <= now && id !in f.sessions
    requires Open(f, user, computer, customer, source, planned, id, now).Ok?
    ensures FloorInv(Open(f, user, computer, customer, source, planned, id, now).value, rows, now)
  {
    var f' := Open(f, user, computer, customer, source, planned, id, now).value;
    StartedOk(user, f.computers[computer], computer, customer, source, planned,
              PricingOf(f, f.computers[computer]).ratio, now);
    forall c | c in f'.computers
      ensures f'.computers[c].status == IN_USE <==> Busy(f', c)
    {
      if c == computer {
        assert f'.sessions[id].computer == c;
      } else if Busy(f, c) {
        var k :| k in f.sessions && Live(f.sessions[k]) && f.sessions[k].computer == c;
        assert f'.sessions[k] == f.sessions[k];
      }
    }
    QuietStep(f, f', rows, id, f'.sessions[id], clock, now);
  }

  /** A live session that stays on its computer. */
  lemma SamePlaceExclusive(f: Floor, id: Id, s: Session)
    requires Exclusive(f) && id in f.sessions && Live(f.sessions[id]) && Live(s)
    requires s.computer == f.sessions[id].computer && s.tenant == f.sessions[id].tenant
    requires s.customer == f.sessions[id].customer
    ensures Exclusive(Put(f, id, s))
  {
    var f' := Put(f, id, s);
    forall c | c in f'.computers
      ensures f'.computers[c].status == IN_USE <==> Busy(f', c)
    {
      if Busy(f, c) {
        var k :| k in f.sessions && Live(f.sessions[k]) && f.sessions[k].computer == c;
        assert Live(f'.sessions[k]) && f'.sessions[k].computer == c;
      }
      if Busy(f', c) {
        var k :| k in f'.sessions && Live(f'.sessions[k]) && f'.sessions[k].computer == c;
        assert Live(f.sessions[k]) && f.sessions[k].computer == c;
      }
    }
  }

  lemma PauseKeeps(f: Floor, rows: seq<Row>, user: Principal, id: Id, clock: int, now: int)
    requires FloorInv(f, rows, clock) && clock <= now && Pause(f, user, id, now).Ok?
    ensures FloorInv(Pause(f, user, id, now).value, rows, now)
  {
    var s := f.sessions[id];
    var f' := Pause(f, user, id, now).value;
    if s.status == ACTIVE {
      SuspendedOk(s, PricingOf(f, f.computers[s.computer]), now, clock);
      SamePlaceExclusive(f, id, f'.sessions[id]);
      QuietStep(f, f', rows, id, f'.sessions[id], clock, now);
    }
  }

  lemma ResumeKeeps(f: Floor, rows: seq<Row>, user: Principal, id: Id, clock: int, now: int)
    requires FloorInv(f, rows, clock) && clock <= now && Resume(f, user, id, now).Ok?
    ensures FloorInv(Resume(f, user, id, now).value, rows, now)
  {
    var s := f.sessions[id];
    var f' := Resume(f, user, id, now).value;
    if s.status == PAUSED {
      ResumeOk(s, now, clock);
      SamePlaceExclusive(f, id, f'.sessions[id]);
      QuietStep(f, f', rows, id, f'.sessions[id], clock, now);
    }
  }

  lemma AddTimeKeeps(f: Floor, rows: seq<Row>, user: Principal, id: Id, seconds: int, clock: int, now: int)
    requires FloorInv(f, rows, clock) && clock <= now && AddTime(f, user, id, seconds, now).Ok?
    ensures FloorInv(AddTime(f, user, id, seconds, now).value, rows, now)
  {
    var f' := AddTime(f, user, id, seconds, now).value;
    EventAppend(f.sessions[id].events, TimeAdded(now, seconds));
    SamePlaceExclusive(f, id, f'.sessions[id]);
    QuietStep(f, f', rows, id, f'.sessions[id], clock, now);
  }

  lemma TransferExclusive(f: Floor, user: Principal, id: Id, to: Id, now: int)
    requires Linked(f) && Exclusive(f) && Transfer(f, user, id, to, now).Ok?
    ensures Exclusive(Transfer(f, user, id, to, now).value) && to != f.sessions[id].computer
  {
    var f' := Transfer(f, user, id, to, now).value;
    var from := f.sessions[id].computer;
    assert f'.sessions[id].computer == to;
    forall c | c in f'.computers
      ensures f'.computers[c].status == IN_USE <==> Busy(f', c)
    {
      if Busy(f, c) && c != from {
        var k :| k in f.sessions && Live(f.sessions[k]) && f.sessions[k].computer == c;
        assert f'.sessions[k] == f.sessions[k];
      }
      if Busy(f', c) && c != to {
        var k :| k in f'.sessions && Live(f'.sessions[k]) && f'.sessions[k].computer == c;
        assert f'.sessions[k] == f.sessions[k] && c != from;
      }
    }
  }

  /** A transfer frees the old computer and occupies the new one; no other computer changes. */
  lemma TransferPlaces(f: Floor, user: Principal, id: Id, to: Id, now: int)
    requires Linked(f) && Exclusive(f) && Transfer(f, user, id, to, now).Ok?
    ensures var f' := Transfer(f, user, id, to, now).value;
            var from := f.sessions[id].computer;
            && f'.computers.Keys == f.computers.Keys && f'.sessions[id].computer == to
            && f'.computers[from].status == AVAILABLE && f'.computers[to].status == IN_USE
            && forall c :: c in f.computers && c != from && c != to ==> f'.computers[c] == f.computers[c]
  {
    TransferExclusive(f, user, id, to, now);
  }

  lemma TransferKeeps(f: Floor, rows: seq<Row>, user: Principal, id: Id, to: Id, clock: int, now: int)
    requires FloorInv(f, rows, clock) && clock <= now && Transfer(f, user, id, to, now).Ok?
    ensures FloorInv(Transfer(f, user, id, to, now).value, rows, now)
  {
    var s := f.sessions[id];
    var f' := Transfer(f, user, id, to, now).value;
    TransferExclusive(f, user, id, to, now);
    MovedOk(s, PricingOf(f, f.computers[s.computer]), to, f.computers[to].branch, PricingOf(f, f.computers[to]).ratio,
            now, clock);
    QuietStep(f, f', rows, id, f'.sessions[id], clock, now);
  }

  /** A close keeps exclusivity and frees exactly its computer: to MAINTENANCE if it restarts, else to AVAILABLE. */
  lemma CloseExclusive(f: Floor, b: Book, user: Principal, id: Id, now: int)
    requires Linked(f) && Exclusive(f) && Close(f, b, user, id, now).Ok?
    ensures var f' := Close(f, b, user, id, now).value.0;
            var freed := f.sessions[id].computer;
            && Exclusive(f') && !Busy(f', freed)
            && f'.computers.Keys == f.computers.Keys
            && f.computers[freed].status == IN_USE
            && f'.computers[freed].status
               == (if PricingOf(f, f.computers[freed]).restartOnEnd then MAINTENANCE else AVAILABLE)
            && forall c :: c in f.computers && c != freed ==> f'.computers[c] == f.computers[c]
  {
    var f' := Close(f, b, user, id, now).value.0;
    var freed := f.sessions[id].computer;
    forall c | c in f'.computers
      ensures f'.computers[c].status == IN_USE <==> Busy(f', c)
    {
      if Busy(f, c) && c != freed {
        var k :| k in f.sessions && Live(f.sessions[k]) && f.sessions[k].computer == c;
        assert f'.sessions[k] == f.sessions[k];
      }
      if Busy(f', c) {
        var k :| k in f'.sessions && Live(f'.sessions[k]) && f'.sessions[k].computer == c;
        assert f'.sessions[k] == f.sessions[k] && c != freed;
      }
    }
  }

  /** The debit of an ended session adds at most one row, and the money in it is minus the amount. */
  lemma DebitRows(b: Book, b': Book, user: Principal, id: Id, s: Session, p: Pricing)
    requires RowsOf(b.rows, UsageSession, id) == []
    requires s.status == ENDED && s.amount >= 0 && s.segments != [] && s.secondsBilled == Seconds(s.segments)
    requires s.segments[|s.segments| - 1].pricing == p
    requires var d := Debit(user, id, s, p); (if d.Some? then Apply(b, d.value) else Ok(b)) == Ok(b')
    ensures Continues(b, b', UsageSession, id)
    ensures ChargedOnce(s, RowsOf(b'.rows, UsageSession, id))
    ensures forall c :: Referencing(b'.rows, UsageSession, c, MONEY) == Referencing(b.rows, UsageSession, c, MONEY)
                        - if s.source == MONEY_BALANCE && s.customer == Some(c) then s.amount else 0
  {
    var d := Debit(user, id, s, p);
    if d.Some? {
      ApplyContinues(b, d.value);
      assert b'.rows == b.rows + [RowFor(d.value, b'.rows[|b.rows|].balanceAfter)];
      DebitIsExpected(b.rows, user, id, s, p, b'.rows[|b.rows|].balanceAfter);
      forall c
        ensures Referencing(b'.rows, UsageSession, c, MONEY) == Referencing(b.rows, UsageSession, c, MONEY)
                - if s.source == MONEY_BALANCE && s.customer == Some(c) then s.amount else 0
      {
        ReferencingAppend(b.rows, b'.rows[|b.rows|], UsageSession, c, MONEY);
      }
    }
  }

  lemma DebitIsExpected(rows: seq<Row>, user: Principal, id: Id, s: Session, p: Pricing, balanceAfter: int)
    requires RowsOf(rows, UsageSession, id) == []
    requires s.status == ENDED && s.segments != [] && s.secondsBilled == Seconds(s.segments)
    requires s.segments[|s.segments| - 1].pricing == p && Debit(user, id, s, p).Some?
    ensures ChargedOnce(s, RowsOf(rows + [RowFor(Debit(user, id, s, p).value, balanceAfter)], UsageSession, id))
  {
    RowsOfAppend(rows, RowFor(Debit(user, id, s, p).value, balanceAfter), UsageSession, id);
    OneNearest(s.secondsBilled as real * p.ratio, 0);
  }

  /** What a close does to the tables, in the terms of the lemmas above. */
  lemma CloseShape(f: Floor, b: Book, user: Principal, id: Id, now: int)
    requires Linked(f) && Close(f, b, user, id, now).Ok?
    ensures var s := f.sessions[id];
            var p := PricingOf(f, f.computers[s.computer]);
            var (f', b') := Close(f, b, user, id, now).value;
            && id in f.sessions && Live(s)
            && f'.sessions == f.sessions[id := Closed(s, p, now)]
            && f'.computers.Keys == f.computers.Keys
            && var d := Debit(user, id, Closed(s, p, now), p); (if d.Some? then Apply(b, d.value) else Ok(b)) == Ok(b')
  {
  }

  lemma CloseRows(f: Floor, b: Book, user: Principal, id: Id, clock: int, now: int)
    requires FloorInv(f, b.rows, clock) && clock <= now && Close(f, b, user, id, now).Ok?
    ensures var (f', b') := Close(f, b, user, id, now).value;
            && Continues(b, b', UsageSession, id)
            && RowsMatch(f', b'.rows, id)
            && SessionOk(f'.sessions[id], now)
            && forall c :: Referencing(b'.rows, UsageSession, c, MONEY)
                           == Referencing(b.rows, UsageSession, c, MONEY) - MoneyEnded(f', c, id)
  {
    var s := f.sessions[id];
    var p := PricingOf(f, f.computers[s.computer]);
    var (f', b') := Close(f, b, user, id, now).value;
    CloseShape(f, b, user, id, now);
    CloseOk(s, p, now, clock);
    assert RowsMatch(f, b.rows, id);
    DebitRows(b, b', user, id, Closed(s, p, now), p);
  }

  lemma CloseKeeps(f: Floor, b: Book, user: Principal, id: Id, clock: int, now: int)
    requires FloorInv(f, b.rows, clock) && clock <= now && Close(f, b, user, id, now).Ok?
    ensures FloorInv(Close(f, b, user, id, now).value.0, Close(f, b, user, id, now).value.1.rows, now)
    ensures Continues(b, Close(f, b, user, id, now).value.1, UsageSession, id)
  {
    var (f', b') := Close(f, b, user, id, now).value;
    CloseShape(f, b, user, id, now);
    CloseRows(f, b, user, id, clock, now);
    CloseExclusive(f, b, user, id, now);
    CloseConserves(f, b, user, id, clock, now);
    OneSessionStep(f, f', b.rows, b'.rows, id, f'.sessions[id], clock, now);
  }

  lemma CloseConserves(f: Floor, b: Book, user: Principal, id: Id, clock: int, now: int)
    requires FloorInv(f, b.rows, clock) && clock <= now && Close(f, b, user, id, now).Ok?
    ensures Conserved(Close(f, b, user, id, now).value.0, Close(f, b, user, id, now).value.1.rows)
  {
    var (f', b') := Close(f, b, user, id, now).value;
    CloseShape(f, b, user, id, now);
    CloseRows(f, b, user, id, clock, now);
    forall c
      ensures Referencing(b'.rows, UsageSession, c, MONEY) == -TotalMoneyEnded(f', c)
    {
      MoneyChange(f, f', id, f'.sessions[id], c);
      assert Referencing(b.rows, UsageSession, c, MONEY) == -TotalMoneyEnded(f, c);
    }
  }

  /** The id a call is about. */
  function Target(op: Op): Id {
    if op.UpdateGroupOp? then op.group
    else if op.CreateComputerOp? || op.UpdateComputerOp? || op.RemoveComputerOp? then op.computer
    else op.id
  }

  ghost predicate Allowed(f: Floor, op: Op, clock: int) {
    && clock <= op.now
    && (op.OpenOp? ==> op.id !in f.sessions)
    && (op.CreateComputerOp? ==> op.computer !in f.computers)
  }

  /** Every call, accepted or refused, keeps the invariant. */
  lemma ExecKeeps(f: Floor, b: Book, op: Op, clock: int)
    requires FloorInv(f, b.rows, clock) && Allowed(f, op, clock)
    ensures FloorInv(Exec(f, b, op).0, Exec(f, b, op).1.rows, op.now)
    ensures Continues(b, Exec(f, b, op).1, UsageSession, Target(op))
  {
    var r := Try(f, b, op);
    if r.Ok? {
      match op
      case OpenOp(_, _, _, _, _, _, _) => WhileOpenKeeps(f, b, op, clock);
      case AddTimeOp(_, _, _, _) => WhileOpenKeeps(f, b, op, clock);
      case TransferOp(_, _, _, _) => WhileOpenKeeps(f, b, op, clock);
      case PauseOp(_, _, _) => WhileOpenKeeps(f, b, op, clock);
      case ResumeOp(_, _, _) => WhileOpenKeeps(f, b, op, clock);
      case CloseOp(user, id, now) => CloseKeeps(f, b, user, id, clock, now);
      case _ =>
        EditShape(f, b, op);
        SameSessionsKeep(f, r.value.0, b.rows, clock, op.now);
    } else {
      AllLater(f, clock, op.now);
    }
  }

  /** The calls that end no session write no ledger row. */
  lemma WhileOpenKeeps(f: Floor, b: Book, op: Op, clock: int)
    requires FloorInv(f, b.rows, clock) && Allowed(f, op, clock) && Try(f, b, op).Ok?
    requires op.OpenOp? || op.AddTimeOp? || op.TransferOp? || op.PauseOp? || op.ResumeOp?
    ensures var (f', b') := Try(f, b, op).value; FloorInv(f', b.rows, op.now) && b' == b
  {
    match op
    case OpenOp(user, computer, customer, source, planned, id, now) =>
      OpenKeeps(f, b.rows, user, computer, customer, source, planned, id, clock, now);
    case AddTimeOp(user, id, seconds, now) => AddTimeKeeps(f, b.rows, user, id, seconds, clock, now);
    case TransferOp(user, id, to, now) => TransferKeeps(f, b.rows, user, id, to, clock, now);
    case PauseOp(user, id, now) => PauseKeeps(f, b.rows, user, id, clock, now);
    case ResumeOp(user, id, now) => ResumeKeeps(f, b.rows, user, id, clock, now);
  }

  /** Edits of groups and computers leave sessions, statuses and the ledger alone. */
  lemma EditShape(f: Floor, b: Book, op: Op)
    requires Linked(f) && Try(f, b, op).Ok? && (op.CreateComputerOp? ==> op.computer !in f.computers)
    requires op.UpdateGroupOp? || op.CreateComputerOp? || op.UpdateComputerOp? || op.RemoveComputerOp?
    ensures var (f', b') := Try(f, b, op).value;
            && f'.sessions == f.sessions && b' == b
            && (forall c :: c in f.computers ==>
                  c in f'.computers && f'.computers[c].status == f.computers[c].status)
            && (forall c :: c in f'.computers && c !in f.computers ==> f'.computers[c].status != IN_USE)
  {
  }

  /** No call of this service changes the customers' table. */
  lemma CustomersKept(f: Floor, b: Book, op: Op)
    requires Linked(f)
    ensures Exec(f, b, op).0.customers == f.customers
  {
  }

  /** Edits of groups, computers and customers: every session stays, and every computer keeps its status. */
  lemma SameSessionsKeep(f: Floor, f': Floor, rows: seq<Row>, clock: int, now: int)
    requires FloorInv(f, rows, clock) && clock <= now
    requires f'.sessions == f.sessions
    requires forall c :: c in f.computers ==> c in f'.computers && f'.computers[c].status == f.computers[c].status
    requires forall c :: c in f'.computers && c !in f.computers ==> f'.computers[c].status != IN_USE
    ensures FloorInv(f', rows, now)
  {
    assert forall c :: Busy(f', c) <==> Busy(f, c);
    assert forall c :: Busy(f, c) ==> c in f.computers;
    forall c
      ensures TotalMoneyEnded(f', c) == TotalMoneyEnded(f, c)
    {
      SumOverSame(f.sessions.Keys, k => MoneyEnded(f, c, k), k => MoneyEnded(f', c, k));
    }
    forall k
      ensures RowsMatch(f', rows, k)
    {
      assert RowsMatch(f, rows, k);
    }
    AllLater(f, clock, now);
  }

  /** Rows that other services write do not matter here. */
  lemma OtherServiceKeeps(f: Floor, b: Book, b': Book, t: RefType, clock: int, now: int)
    requires FloorInv(f, b.rows, clock) && clock <= now && t != UsageSession && GrowsBy(b, b', t)
    ensures FloorInv(f, b'.rows, now)
  {
    forall k
      ensures RowsMatch(f, b'.rows, k)
    {
      assert RowsMatch(f, b.rows, k);
      OtherTypesUnchanged(b.rows, b'.rows, t, UsageSession, k);
    }
    AllLater(f, clock, now);
    forall c
      ensures Referencing(b'.rows, UsageSession, c, MONEY) == Referencing(b.rows, UsageSession, c, MONEY)
    {
      ReferencingOthers(b.rows, b'.rows, t, UsageSession, c, MONEY);
    }
  }

  // ---- results about single calls ----------------------------------------------------------------

  /** ENDED is final: no call changes an ended session's row. */
  lemma EndedIsFinal(f: Floor, b: Book, op: Op, id: Id)
    requires Linked(f) && id in f.sessions && f.sessions[id].status == ENDED
    requires op.OpenOp? ==> op.id !in f.sessions
    ensures id in Exec(f, b, op).0.sessions && Exec(f, b, op).0.sessions[id] == f.sessions[id]
  {
  }

  ghost predicate EndedKept(f: Floor, f': Floor) {
    forall id :: id in f.sessions && f.sessions[id].status == ENDED ==>
      id in f'.sessions && f'.sessions[id] == f.sessions[id]
  }

  lemma AllEndedFinal(f: Floor, b: Book, op: Op)
    requires Linked(f) && (op.OpenOp? ==> op.id !in f.sessions)
    ensures EndedKept(f, Exec(f, b, op).0)
  {
    forall id | id in f.sessions && f.sessions[id].status == ENDED
      ensures id in Exec(f, b, op).0.sessions && Exec(f, b, op).0.sessions[id] == f.sessions[id]
    {
      EndedIsFinal(f, b, op, id);
    }
  }

  /** A transfer to the session's own computer is refused. */
  lemma NoTransferToSelf(f: Floor, user: Principal, id: Id, now: int)
    requires Linked(f) && id in f.sessions
    ensures Transfer(f, user, id, f.sessions[id].computer, now).Err?
  {
    assert Live(f.sessions[id]) ==> Busy(f, f.sessions[id].computer);
  }

  /** The paused gap is meant to be free. A transfer bills it exactly when it has lasted a whole second. */
  lemma TransferBillsPausedGap(f: Floor, user: Principal, id: Id, to: Id, now: int)
    requires Linked(f) && Transfer(f, user, id, to, now).Ok? && f.sessions[id].status == PAUSED
    ensures Transfer(f, user, id, to, now).value.sessions[id].secondsBilled == f.sessions[id].secondsBilled
            <==> now - f.sessions[id].billedThroughAt < 1000
  {
  }

  /** Two free computers without a price group, and no session. */
  function TwoComputers(user: Principal, from: Id, to: Id): Floor {
    var c := Computer(user.tenant, "", None, AVAILABLE, false);
    Floor(map[], map[from := c, to := c], map[], {})
  }

  /** A session opened and paused at time 0 on the first of them. */
  function PausedAtZero(user: Principal, computer: Id): Session {
    var c := Computer(user.tenant, "", None, AVAILABLE, false);
    Suspended(NewSession(user, c, computer, None, FREE, None, 1.0, 0), DEFAULT_PRICING, 0)
  }

  lemma OpenedAndPaused(user: Principal, id: Id, from: Id, to: Id)
    requires from != to && user.branches == {}
    ensures var started := Open(TwoComputers(user, from, to), user, from, None, FREE, None, id, 0);
            && started.Ok? && Linked(started.value) && Pause(started.value, user, id, 0).Ok?
            && var f := Pause(started.value, user, id, 0).value;
               && Linked(f) && f.sessions == map[id := PausedAtZero(user, from)]
               && to in f.computers && f.computers[to] == TwoComputers(user, from, to).computers[to]
  {
    var f := TwoComputers(user, from, to);
    assert !Busy(f, from);
  }

  /** An input that shows it: opened, paused at once and moved at 5 s, a session is billed 5 s with no active time. */
  lemma PausedGapBilledExample(user: Principal, id: Id, from: Id, to: Id)
    requires from != to && user.branches == {}
    ensures var started := Open(TwoComputers(user, from, to), user, from, None, FREE, None, id, 0);
            && started.Ok? && Linked(started.value) && Pause(started.value, user, id, 0).Ok?
            && var f := Pause(started.value, user, id, 0).value;
               && Linked(f) && Transfer(f, user, id, to, 5000).Ok?
               && var s := Transfer(f, user, id, to, 5000).value.sessions[id];
                  s.secondsBilled == 5 && ActiveMs(s.events, 5000) == 0
  {
    OpenedAndPaused(user, id, from, to);
    var f := Pause(Open(TwoComputers(user, from, to), user, from, None, FREE, None, id, 0).value, user, id, 0).value;
    var s := PausedAtZero(user, from);
    assert !Busy(f, to);
    assert LoadActive(f, user, id) == Ok(s);
    PausedWatch(s, from, to);
  }

  lemma PausedWatch(s: Session, from: Id, to: Id)
    requires s.events == [Started(0), Paused(0)]
    ensures ActiveMs(s.events + [Transferred(5000, from, to, 5, SegmentCharge(5, DEFAULT_PRICING))], 5000) == 0
  {
    var evs := s.events;
    EventAppend([], Started(0));
    EventAppend([Started(0)], Paused(0));
    assert evs == [] + [Started(0)] + [Paused(0)];
    EventAppend(evs, Transferred(5000, from, to, 5, SegmentCharge(5, DEFAULT_PRICING)));
  }

  /** A close refused for lack of balance: only then does an otherwise valid close fail, and nothing changes. */
  lemma CloseRefusedIffOverdraft(f: Floor, b: Book, user: Principal, id: Id, now: int)
    requires Linked(f) && LoadActive(f, user, id).Ok? && Replays(b)
    ensures var s := f.sessions[id];
            var p := PricingOf(f, f.computers[s.computer]);
            var d := Debit(user, id, Closed(s, p, now), p);
            Close(f, b, user, id, now).Err?
            <==> d.Some? && Total(b.rows, d.value.customer, d.value.unit) < -d.value.amount
    ensures Close(f, b, user, id, now).Err? ==> Exec(f, b, CloseOp(user, id, now)) == (f, b)
  {
  }

  /** Under the invariant, billed seconds lie within the time spent ACTIVE unless a paused session was moved. */
  lemma BilledWithinActive(s: Session, clock: int)
    requires SessionOk(s, clock)
    ensures !MovedWhilePaused(s.events) ==> 1000 * s.secondsBilled <= ActiveMs(s.events, clock)
    ensures s.status == ENDED ==> ActiveMs(s.events, clock) - 1000 * s.secondsBilled <= 999 * |s.segments|
  {
  }

  // ---- pausing barely changes the price ----------------------------------------------------------

  function BilledSegments(segs: seq<Segment>): nat {
    if segs == [] then 0 else BilledSegments(segs[..|segs| - 1]) + if segs[|segs| - 1].seconds > 0 then 1 else 0
  }

  lemma RawChargeAdds(s: int, s': int, p: nat, r: real)
    ensures RawCharge(s + s', p, r) == RawCharge(s, p, r) + RawCharge(s', p, r)
  {
    var m, m', q := s as real / 60.0, s' as real / 60.0, p as real;
    assert (s + s') as real / 60.0 == m + m';
    assert (m + m') * q == m * q + m' * q;
    assert (m * q + m' * q) * r == m * q * r + m' * q * r;
  }

  /** Each billed segment rounds once, so k of them are within k/2 of the exact price. */
  lemma {:induction false} SegmentRounding(segs: seq<Segment>, p: Pricing)
    requires forall i :: 0 <= i < |segs| ==> segs[i].pricing == p && segs[i].seconds >= 0
    ensures var k := BilledSegments(segs) as real;
            var exact := RawCharge(Seconds(segs), p.pricePerMinute, p.ratio);
            -k / 2.0 <= Charges(segs) as real - exact <= k / 2.0
  {
    if segs == [] {
      assert RawCharge(0, p.pricePerMinute, p.ratio) == 0.0;
    } else {
      var init, last := segs[..|segs| - 1], segs[|segs| - 1].seconds;
      SegmentRounding(init, p);
      RawChargeAdds(Seconds(init), last, p.pricePerMinute, p.ratio);
      JsRoundNearest(RawCharge(last, p.pricePerMinute, p.ratio));
      if last == 0 {
        assert RawCharge(0, p.pricePerMinute, p.ratio) == 0.0;
      }
    }
  }

  lemma {:induction false} SecondsNonNegative(segs: seq<Segment>)
    requires forall i :: 0 <= i < |segs| ==> segs[i].seconds >= 0
    ensures Seconds(segs) >= 0
  {
    if segs == [] {
    } else {
      SecondsNonNegative(segs[..|segs| - 1]);
    }
  }

  /** Rounding by the rule and the minimum charge widen a gap to at most the next whole unit. */
  lemma FinalGap(sum: int, one: int, bound: nat, rule: RoundingRule, minCharge: nat)
    requires Abs(sum - one) <= bound
    ensures var gap := Abs(Max(RoundMinor(sum, rule), minCharge) - Max(RoundMinor(one, rule), minCharge));
            (rule.NONE? ==> gap <= Abs(sum - one)) && gap <= RoundMinor(bound, UP)
  {
    RoundMinorLaws(sum, one, rule);
    RoundMinorLaws(one, sum, rule);
    RoundMinorLaws(Abs(sum - one), bound, UP);
    RoundUpIsLeast(bound, 0);
  }

  lemma CountedGap(sum: int, one: int, k: nat, rule: RoundingRule, minCharge: nat)
    requires 2 * Abs(sum - one) <= k + 1
    ensures var gap := Abs(Max(RoundMinor(sum, rule), minCharge) - Max(RoundMinor(one, rule), minCharge));
            (rule.NONE? ==> 2 * gap <= k + 1) && 0 <= gap <= RoundMinor((k + 1) / 2, UP)
  {
    FinalGap(sum, one, (k + 1) / 2, rule, minCharge);
  }

  /** The sum of the rounded segments against the rounded whole. */
  lemma ChargesNearOne(segs: seq<Segment>, p: Pricing)
    requires forall i :: 0 <= i < |segs| ==> segs[i].pricing == p && segs[i].seconds >= 0
    ensures 2 * Abs(Charges(segs) - JsRound(RawCharge(Seconds(segs), p.pricePerMinute, p.ratio)))
            <= BilledSegments(segs) + 1
  {
    SegmentRounding(segs, p);
    JsRoundNearest(RawCharge(Seconds(segs), p.pricePerMinute, p.ratio));
  }

  lemma BillIsOneOfTwo(segs: seq<Segment>, p: Pricing, source: BillingSource)
    requires segs != [] && source != FREE && p.minMinutes == 0 && segs[|segs| - 1].pricing == p && Seconds(segs) >= 0
    ensures var one := JsRound(RawCharge(Seconds(segs), p.pricePerMinute, p.ratio));
            var once := ComputeSessionCharge(Seconds(segs), p.pricePerMinute, p.ratio, p.minCharge, 0, p.rounding);
            && once == Max(RoundMinor(one, p.rounding), p.minCharge)
            && (Bill(source, segs) == once
                || Bill(source, segs) == Max(RoundMinor(Charges(segs), p.rounding), p.minCharge))
  {
  }

  /** With one price and no minimum time, k billed segments cost what one stretch costs, within (k+1)/2. */
  lemma PausingBarelyChangesThePrice(segs: seq<Segment>, p: Pricing, source: BillingSource)
    requires segs != [] && source != FREE && p.minMinutes == 0
    requires forall i :: 0 <= i < |segs| ==> segs[i].pricing == p && segs[i].seconds >= 0
    ensures var once := ComputeSessionCharge(Seconds(segs), p.pricePerMinute, p.ratio, p.minCharge, 0, p.rounding);
            var k := BilledSegments(segs);
            && (p.rounding == NONE ==> 2 * Abs(Bill(source, segs) - once) <= k + 1)
            && Abs(Bill(source, segs) - once) <= RoundMinor((k + 1) / 2, UP)
  {
    var one := JsRound(RawCharge(Seconds(segs), p.pricePerMinute, p.ratio));
    assert Seconds(segs) >= 0 by {
      SecondsNonNegative(segs);
    }
    BillIsOneOfTwo(segs, p, source);
    ChargesNearOne(segs, p);
    CountedGap(Charges(segs), one, BilledSegments(segs), p.rounding, p.minCharge);
  }

  // ---- the bill, without the pricing engine --------------------------------------------------------

  lemma {:induction false} ChargesAreSum(segs: seq<Segment>) returns (amounts: seq<int>)
    ensures PricesOf(amounts, segs) && Sum(amounts) == Charges(segs)
    ensures segs != [] ==> Sum(amounts[..|segs| - 1]) == Charges(segs[..|segs| - 1])
  {
    if segs == [] {
      amounts := [];
    } else {
      var n := |segs| - 1;
      var init := ChargesAreSum(segs[..n]);
      var p := segs[n].pricing;
      amounts := init + [SegmentCharge(segs[n].seconds, p)];
      PriceIsNearest(segs[n].seconds, p.pricePerMinute, p.ratio, 0);
      assert amounts[..n] == init;
      forall i | 0 <= i < |segs|
        ensures IsPriceOf(amounts[i], segs[i].seconds, segs[i].pricing.pricePerMinute, segs[i].pricing.ratio)
      {
        if i < n {
          assert amounts[i] == init[i] && segs[..n][i] == segs[i];
        }
      }
    }
  }

  /** The bill of a session is what it must cost. */
  lemma BillIsRight(source: BillingSource, segs: seq<Segment>)
    requires segs != []
    ensures MustCost(Bill(source, segs), source, segs)
  {
    if source != FREE {
      var amounts := ChargesAreSum(segs);
      var p := segs[|segs| - 1].pricing;
      if Sum(amounts[..|segs| - 1]) > 0 {
        RoundMinorIs(Charges(segs), p.rounding);
        assert IsRounded(RoundMinor(Charges(segs), p.rounding), Sum(amounts), p.rounding);
        assert CostsSum(Bill(source, segs), segs, amounts);
      } else {
        SessionChargeIs(Seconds(segs), p.pricePerMinute, p.ratio, p.minCharge, p.minMinutes, p.rounding);
        assert CostsOne(Bill(source, segs), segs);
      }
      assert PricesOf(amounts, segs);
    }
  }

  // ---- which price a segment gets ------------------------------------------------------------------

  /** The calls that bill a stretch of the session: its close, its transfer, or a pause that finds it active. */
  ghost predicate Bills(f: Floor, b: Book, op: Op, id: Id)
    requires Linked(f)
  {
    && id in f.sessions && Try(f, b, op).Ok?
    && (op.TransferOp? || op.CloseOp? || (op.PauseOp? && f.sessions[id].status == ACTIVE)) && op.id == id
  }

  /** The live price of the computer the session is on. */
  ghost function PriceNow(f: Floor, id: Id): Pricing
    requires Linked(f) && id in f.sessions
  {
    PricingOf(f, f.computers[f.sessions[id].computer])
  }

  ghost predicate AllAt(segs: seq<Segment>, p: Pricing) {
    forall i :: 0 <= i < |segs| ==> segs[i].pricing == p
  }

  /** A billing call adds one segment: the whole seconds since the checkpoint (none when a paused session is closed) at
      the live price. No other call adds any. */
  lemma SegmentsAtOwnPrice(f: Floor, b: Book, op: Op, id: Id)
    requires Linked(f) && id in f.sessions && (op.OpenOp? ==> op.id !in f.sessions)
    ensures id in Exec(f, b, op).0.sessions
            && Exec(f, b, op).0.sessions[id].segments
               == f.sessions[id].segments
                  + if Bills(f, b, op, id) then [Segment(if op.CloseOp? && f.sessions[id].status == PAUSED then 0
                                                         else WholeSeconds(f.sessions[id].billedThroughAt, op.now),
                                                         PriceNow(f, id))]
                    else []
  {
  }

  /** Prices are documented as frozen at opening. A billing call keeps a session at one price exactly when the live
      price is still that one. */
  lemma PriceKeptIff(f: Floor, b: Book, op: Op, id: Id, p: Pricing)
    requires Linked(f) && (op.OpenOp? ==> op.id !in f.sessions) && Bills(f, b, op, id)
    requires AllAt(f.sessions[id].segments, p)
    ensures id in Exec(f, b, op).0.sessions
            && (AllAt(Exec(f, b, op).0.sessions[id].segments, p) <==> PriceNow(f, id) == p)
  {
    SegmentsAtOwnPrice(f, b, op, id);
    var segs := Exec(f, b, op).0.sessions[id].segments;
    assert segs[|segs| - 1].pricing == PriceNow(f, id);
  }

  /** The price group of the computer the session is on. */
  ghost function GroupOf(f: Floor, id: Id): Option<Id>
    requires Linked(f) && id in f.sessions
  {
    f.computers[f.sessions[id].computer].group
  }

  /** A call that neither moves the session, nor puts its computer into another group, nor edits that group. */
  predicate Steady(op: Op, id: Id, computer: Id, group: Option<Id>) {
    && !(op.TransferOp? && op.id == id)
    && !(op.UpdateComputerOp? && op.computer == computer && op.regroup.Some?)
    && !(op.UpdateGroupOp? && Some(op.group) == group)
  }

  /** Such a call leaves the session's live price as it is. */
  lemma SteadyKeepsPrice(f: Floor, b: Book, op: Op, id: Id)
    requires Linked(f) && id in f.sessions && Allowed(f, op, op.now)
    requires Steady(op, id, f.sessions[id].computer, GroupOf(f, id))
    requires Linked(Exec(f, b, op).0)
    ensures var f' := Exec(f, b, op).0;
            && id in f'.sessions && f'.sessions[id].computer == f.sessions[id].computer
            && GroupOf(f', id) == GroupOf(f, id) && PriceNow(f', id) == PriceNow(f, id)
  {
    var f' := Exec(f, b, op).0;
    GroupsKept(f, b, op, f.sessions[id].computer);
    assert op.UpdateGroupOp? ==> f'.groups == f.groups[op.group := op.pricing];
    assert !op.UpdateGroupOp? ==> f'.groups == f.groups;
  }

  lemma SamePrice(f: Floor, f': Floor, id: Id)
    requires Linked(f) && id in f.sessions && f' == f.(customers := f'.customers)
    ensures Linked(f') && GroupOf(f', id) == GroupOf(f, id) && PriceNow(f', id) == PriceNow(f, id)
  {
  }

  /** Only a re-assignment changes a computer's group. */
  lemma GroupsKept(f: Floor, b: Book, op: Op, c: Id)
    requires Linked(f) && c in f.computers && Allowed(f, op, op.now)
    requires !(op.UpdateComputerOp? && op.computer == c && op.regroup.Some?)
    ensures var f' := Exec(f, b, op).0;
            c in f'.computers && f'.computers[c].group == f.computers[c].group
  {
  }

  lemma {:induction false} BilledAtMostAll(segs: seq<Segment>)
    ensures BilledSegments(segs) <= |segs|
  {
    if segs == [] {
    } else {
      BilledAtMostAll(segs[..|segs| - 1]);
    }
  }

  function PerMinute(price: nat): Pricing {
    Pricing(price, 1.0, 0, 0, NONE, false)
  }

  /** One free computer of a group with that price. */
  function OneComputer(user: Principal, computer: Id, group: Id, price: nat): Floor {
    Floor(map[group := PerMinute(price)], map[computer := Computer(user.tenant, "", Some(group), AVAILABLE, false)],
          map[], {})
  }

  /** The floor after an opening there at time 0. */
  function OpenedAtZero(f: Floor, user: Principal, id: Id, computer: Id): Floor
    requires computer in f.computers
  {
    var s := NewSession(user, f.computers[computer], computer, None, PAY_PER_USE, None, 1.0, 0);
    f.(sessions := map[id := s], computers := f.computers[computer := f.computers[computer].(status := IN_USE)])
  }

  lemma OpensAtSixty(f: Floor, user: Principal, id: Id, computer: Id, group: Id, b: Book)
    requires user.branches == {} && f.sessions == map[] && group in f.groups && f.groups[group] == PerMinute(60)
    requires f.computers == map[computer := Computer(user.tenant, "", Some(group), AVAILABLE, false)]
    ensures Linked(f)
    ensures Try(f, b, OpenOp(user, computer, None, PAY_PER_USE, None, id, 0))
            == Ok((OpenedAtZero(f, user, id, computer), b))
    ensures Linked(OpenedAtZero(f, user, id, computer))
    ensures PriceNow(OpenedAtZero(f, user, id, computer), id) == PerMinute(60)
  {
    assert !Busy(f, computer);
  }

  /** A minute later, whatever the edits in between: a close at 600 a minute costs 600. */
  lemma ClosesAtSixHundred(f: Floor, user: Principal, id: Id, computer: Id, b: Book)
    requires user.branches == {} && Linked(f) && id in f.sessions && PriceNow(f, id) == PerMinute(600)
    requires var c := Computer(user.tenant, "", None, AVAILABLE, false);
             f.sessions[id] == NewSession(user, c, computer, None, PAY_PER_USE, None, 1.0, 0)
    ensures Try(f, b, CloseOp(user, id, 60000)).Ok?
    ensures Exec(f, b, CloseOp(user, id, 60000)).0.sessions[id].amount == 600
  {
    assert FinalTotal(f.sessions[id], PerMinute(600), 60) == 600;
  }

  /** An input where the price is not frozen: opened at 60 a minute, the group edited to 600, closed after a minute. */
  lemma EditedPriceExample(user: Principal, id: Id, computer: Id, group: Id, b: Book)
    requires user.branches == {}
    ensures var f := OneComputer(user, computer, group, 60);
            && Linked(f) && Try(f, b, OpenOp(user, computer, None, PAY_PER_USE, None, id, 0)).Ok?
            && var f1 := Exec(f, b, OpenOp(user, computer, None, PAY_PER_USE, None, id, 0)).0;
               && Linked(f1) && id in f1.sessions && PriceNow(f1, id) == PerMinute(60)
               && var f2 := Exec(f1, b, UpdateGroupOp(group, PerMinute(600), 1000)).0;
                  && Linked(f2) && Try(f2, b, CloseOp(user, id, 60000)).Ok?
                  && Exec(f2, b, CloseOp(user, id, 60000)).0.sessions[id].amount == 600
  {
    var f := OneComputer(user, computer, group, 60);
    OpensAtSixty(f, user, id, computer, group, b);
    var f1 := OpenedAtZero(f, user, id, computer);
    var f2 := f1.(groups := f1.groups[group := PerMinute(600)]);
    assert Exec(f1, b, UpdateGroupOp(group, PerMinute(600), 1000)).0 == f2;
    ClosesAtSixHundred(f2, user, id, computer, b);
  }

  function TwoGroups(user: Principal, computer: Id, group: Id, dear: Id): Floor {
    OneComputer(user, computer, group, 60).(groups := map[group := PerMinute(60), dear := PerMinute(600)])
  }

  /** Another such input, without an edit of any group: the computer is put into a dearer group during the session. */
  lemma RegroupedPriceExample(user: Principal, id: Id, computer: Id, group: Id, dear: Id, b: Book)
    requires user.branches == {} && group != dear
    ensures var f := TwoGroups(user, computer, group, dear);
            && Linked(f) && Try(f, b, OpenOp(user, computer, None, PAY_PER_USE, None, id, 0)).Ok?
            && var f1 := Exec(f, b, OpenOp(user, computer, None, PAY_PER_USE, None, id, 0)).0;
               && Linked(f1) && id in f1.sessions && PriceNow(f1, id) == PerMinute(60)
               && var f2 := Exec(f1, b, UpdateComputerOp(user, computer, None, Some(Some(dear)), 1000)).0;
                  && Linked(f2) && Try(f2, b, CloseOp(user, id, 60000)).Ok?
                  && Exec(f2, b, CloseOp(user, id, 60000)).0.sessions[id].amount == 600
  {
    var f := TwoGroups(user, computer, group, dear);
    OpensAtSixty(f, user, id, computer, group, b);
    var f1 := OpenedAtZero(f, user, id, computer);
    var f2 := f1.(computers := f1.computers[computer := f1.computers[computer].(group := Some(dear))]);
    assert Exec(f1, b, UpdateComputerOp(user, computer, None, Some(Some(dear)), 1000)).0 == f2;
    ClosesAtSixHundred(f2, user, id, computer, b);
  }

  /** A minute at 60 costs 60. */
  lemma MinuteAtSixty()
    ensures ComputeSessionCharge(60, 60, 1.0, 0, 0, NONE) == 60
  {
  }

  /** What an ended session costs: its bill, and never less than the minimum charge unless it is free. */
  lemma FinalChargeIsBill(s: Session, p: Pricing, now: int, clock: int)
    requires SessionOk(s, clock) && Live(s) && clock <= now
    ensures var t := Closed(s, p, now);
            && t.segments == s.segments + [Segment(ClosingSeconds(s, now), p)]
            && t.amount == FinalTotal(s, p, ClosingSeconds(s, now)) == Bill(s.source, t.segments)
            && (s.source == FREE ==> t.amount == 0)
            && (s.source != FREE ==> t.amount >= p.minCharge)
  {
    CloseOk(s, p, now, clock);
  }
}
