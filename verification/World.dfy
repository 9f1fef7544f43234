/** All services over one ledger, in any interleaving: the state, the steps, the joint invariant, and its results. */
module World {
  import opened Common
  import opened Ledger
  import Admin
  import Sessions
  import SessionProofs
  import Sales
  import SaleProofs
  import Payments
  import PaymentProofs
  import Subscriptions
  import Printing
  import Cash
  import Drawer

  datatype State = State(setup: Sales.Setup, rules: Printing.Rules, book: Book, floor: Sessions.Floor, shop: Sales.Shop,
                         subs: Subscriptions.Subs, jobs: Printing.Jobs, till: Cash.Till, clock: int)

  datatype Step =
    | LoadStep(user: Principal, customer: Id, unit: Unit, amount: nat, time: int)
    | SessionStep(session: Sessions.Op)
    | ShopStep(sale: Payments.Op)
    | SubStep(sub: Subscriptions.Op)
    | JobStep(job: Printing.Op)
    | TillStep(till: Cash.Op)
    | AdminStep(admin: Admin.Op)
  {
    function Now(): int {
      match this
      case LoadStep(_, _, _, _, time) => time
      case SessionStep(op) => op.now
      case ShopStep(op) => op.now
      case SubStep(op) => op.now
      case JobStep(op) => op.now
      case TillStep(op) => op.now
      case AdminStep(op) => op.now
    }
  }

  /** The environment: time goes forward, drawn ids are new, a query lists exactly the rows it selects. */
  ghost predicate Allowed(w: State, s: Step) {
    w.clock <= s.Now()
    && match s
       case LoadStep(_, _, _, _, _) => true
       case SessionStep(op) => SessionProofs.Allowed(w.floor, op, w.clock)
       case ShopStep(op) => PaymentProofs.Allowed(w.shop, w.subs, op)
       case SubStep(op) => Subscriptions.Allowed(w.subs, op)
       case JobStep(op) => op.CreateOp? ==> op.id !in w.jobs
       case TillStep(op) => op.OpenOp? ==> op.id !in w.till.shifts
       case AdminStep(op) => Admin.Allowed(w.setup, op)
  }

  datatype Part = LedgerPart | FloorPart | ShopPart | SubsPart | JobsPart | TillPart

  /** One service's invariant over its tables and the shared ledger. */
  ghost predicate Holds(part: Part, w: State) {
    match part
    case LedgerPart => Replays(w.book)
    case FloorPart =>
      SessionProofs.FloorInv(w.floor, w.book.rows, w.clock) && w.floor.customers == w.setup.customers.Keys
    case ShopPart =>
      SaleProofs.ShopInv(w.setup, w.shop, w.book.rows) && Payments.Linked(w.shop) && Drawer.CashLinked(w.shop)
    case SubsPart => Subscriptions.SubInv(w.subs, w.book.rows)
    case JobsPart => Printing.JobInv(w.jobs, w.book.rows)
    case TillPart => Cash.TillInv(w.till)
  }

  /** The joint invariant: every service's. A proof names the parts it needs. */
  ghost predicate WorldInv(w: State) {
    forall part: Part :: Holds(part, w)
  }

  /** One call; a refused one changes nothing but the time. */
  ghost function Exec(w: State, s: Step): State
    requires WorldInv(w) && Allowed(w, s)
  {
    match s
    case LoadStep(user, customer, unit, amount, time) =>
      var r := LoadBalance(w.book, w.setup.customers, user, customer, unit, amount);
      w.(book := if r.Ok? then r.value else w.book, clock := time)
    case SessionStep(op) =>
      assert Holds(FloorPart, w);
      var (f, b) := Sessions.Exec(w.floor, w.book, op);
      w.(floor := f, book := b, clock := op.now)
    case ShopStep(op) =>
      assert Holds(ShopPart, w);
      var r := Payments.Exec(w.setup, w.shop, w.book, w.subs, op);
      w.(shop := r.shop, book := r.book, subs := r.subs, clock := op.now)
    case SubStep(op) =>
      SweepListed(w, op);
      var (subs, b) := Subscriptions.Exec(w.setup.catalog.packages, w.setup.customers.Keys, w.subs, w.book, op);
      w.(subs := subs, book := b, clock := op.now)
    case JobStep(op) =>
      var (jobs, b) := Printing.Exec(w.rules, w.setup.customers.Keys, w.jobs, w.book, op);
      w.(jobs := jobs, book := b, clock := op.now)
    case TillStep(op) => w.(till := Cash.Exec(w.till, w.shop, op), clock := op.now)
    case AdminStep(op) =>
      var (setup, rules) := Admin.Exec(w.setup, w.rules, op);
      w.(setup := setup, rules := rules, floor := w.floor.(customers := setup.customers.Keys), clock := op.now)
  }

  lemma SweepListed(w: State, op: Subscriptions.Op)
    requires Subscriptions.Allowed(w.subs, op)
    ensures op.SweepOp? ==> forall id :: id in op.order ==> id in w.subs
  {
    if op.SweepOp? {
      Subscriptions.DueListed(w.subs, op.tenant, op.now, op.order);
    }
  }

  /** A store with no ledger, sessions, sales, subscriptions, jobs or shifts, and no computer in use; whatever has been
      set up. */
  ghost predicate Empty(w: State) {
    && w.book == EMPTY_BOOK && w.floor.sessions == map[] && w.shop == Sales.EMPTY_SHOP && w.subs == map[]
    && w.jobs == map[] && w.till.shifts == map[] && w.till.movements == []
    && w.floor.customers == w.setup.customers.Keys
    && forall c :: c in w.floor.computers ==> w.floor.computers[c].status != Sessions.IN_USE
  }

  // ---- every step keeps the invariant --------------------------------------------------------------------

  /** Ledger rows of one type leave the services of the other types alone. */
  lemma Frame(w: State, b': Book, t: RefType, now: int)
    requires WorldInv(w) && GrowsBy(w.book, b', t) && w.clock <= now
    ensures Replays(b')
    ensures t != UsageSession ==> SessionProofs.FloorInv(w.floor, b'.rows, now)
    ensures t != Sale ==> SaleProofs.ShopInv(w.setup, w.shop, b'.rows)
    ensures t != Subscription ==> Subscriptions.SubInv(w.subs, b'.rows)
    ensures t != PrintJob ==> Printing.JobInv(w.jobs, b'.rows)
  {
    assert Holds(LedgerPart, w) && Holds(FloorPart, w) && Holds(ShopPart, w) && Holds(SubsPart, w)
           && Holds(JobsPart, w);
    if t != UsageSession {
      SessionProofs.OtherServiceKeeps(w.floor, w.book, b', t, w.clock, now);
    }
    if t != Sale {
      SaleProofs.OtherServiceKeepsShop(w.setup, w.shop, w.book, b', t);
    }
    if t != Subscription {
      Subscriptions.OtherServiceKeepsSubs(w.subs, w.book, b', t);
    }
    if t != PrintJob {
      Printing.OtherServiceKeepsJobs(w.jobs, w.book, b', t);
    }
  }

  lemma LoadGrows(b: Book, customers: map<Id, Id>, user: Principal, customer: Id, unit: Unit, amount: nat)
    requires LoadBalance(b, customers, user, customer, unit, amount).Ok?
    ensures GrowsBy(b, LoadBalance(b, customers, user, customer, unit, amount).value, ManualLoad)
  {
    ApplyContinues(b, Delta(user.tenant, customer, unit, amount, if unit.MONEY? then LOAD else PACKAGE, ManualLoad, "",
                            user.employee));
  }

  /** The type of the rows a step may add. */
  function RowType(s: Step): RefType {
    match s
    case LoadStep(_, _, _, _, _) => ManualLoad
    case SessionStep(_) => UsageSession
    case ShopStep(_) => Sale
    case SubStep(_) => Subscription
    case JobStep(_) => PrintJob
    case TillStep(_) => ManualLoad
    case AdminStep(_) => ManualLoad
  }

  lemma StepGrows(w: State, s: Step)
    requires WorldInv(w) && Allowed(w, s)
    ensures GrowsBy(w.book, Exec(w, s).book, RowType(s))
  {
    match s
    case LoadStep(user, customer, unit, amount, _) =>
      if LoadBalance(w.book, w.setup.customers, user, customer, unit, amount).Ok? {
        LoadGrows(w.book, w.setup.customers, user, customer, unit, amount);
      }
    case SessionStep(op) =>
      assert Holds(FloorPart, w);
      SessionProofs.ExecKeeps(w.floor, w.book, op, w.clock);
    case ShopStep(op) =>
      assert Holds(ShopPart, w) && Holds(SubsPart, w);
      PaymentProofs.ExecKeeps(w.setup, w.shop, w.book, w.subs, op);
    case SubStep(op) =>
      assert Holds(LedgerPart, w) && Holds(SubsPart, w);
      SweepListed(w, op);
      Subscriptions.ExecKeeps(w.setup.catalog.packages, w.setup.customers.Keys, w.subs, w.book, op);
    case JobStep(op) =>
      assert Holds(JobsPart, w);
      Printing.ExecKeeps(w.rules, w.setup.customers.Keys, w.jobs, w.book, op);
    case _ =>
  }

  lemma FloorKept(w: State, op: Sessions.Op)
    requires WorldInv(w) && Allowed(w, SessionStep(op))
    ensures Holds(FloorPart, Exec(w, SessionStep(op)))
  {
    assert Holds(FloorPart, w);
    SessionProofs.ExecKeeps(w.floor, w.book, op, w.clock);
    SessionProofs.CustomersKept(w.floor, w.book, op);
  }

  lemma ShopKept(w: State, op: Payments.Op)
    requires WorldInv(w) && Allowed(w, ShopStep(op))
    ensures Holds(ShopPart, Exec(w, ShopStep(op))) && Holds(SubsPart, Exec(w, ShopStep(op)))
  {
    assert Holds(ShopPart, w) && Holds(SubsPart, w);
    PaymentProofs.ExecKeeps(w.setup, w.shop, w.book, w.subs, op);
    PaymentProofs.LinkedFromInv(w.setup, Exec(w, ShopStep(op)).shop, Exec(w, ShopStep(op)).book.rows);
    Drawer.ExecMovesCash(w.setup, w.shop, w.book, w.subs, op, w.till, "");
  }

  lemma SubsKept(w: State, op: Subscriptions.Op)
    requires WorldInv(w) && Allowed(w, SubStep(op))
    ensures Holds(SubsPart, Exec(w, SubStep(op)))
  {
    assert Holds(LedgerPart, w) && Holds(SubsPart, w);
    SweepListed(w, op);
    Subscriptions.ExecKeeps(w.setup.catalog.packages, w.setup.customers.Keys, w.subs, w.book, op);
  }

  /** The part of the service that takes the step. */
  lemma OwnPartKept(w: State, s: Step)
    requires WorldInv(w) && Allowed(w, s)
    ensures var w' := Exec(w, s);
            && (s.SessionStep? ==> Holds(FloorPart, w'))
            && (s.AdminStep? ==> Holds(FloorPart, w') && Holds(ShopPart, w'))
            && (s.ShopStep? ==> Holds(ShopPart, w') && Holds(SubsPart, w'))
            && (s.SubStep? ==> Holds(SubsPart, w'))
            && (s.JobStep? ==> Holds(JobsPart, w'))
            && (s.TillStep? ==> Holds(TillPart, w'))
  {
    match s
    case LoadStep(_, _, _, _, _) =>
    case SessionStep(op) => FloorKept(w, op);
    case ShopStep(op) => ShopKept(w, op);
    case SubStep(op) => SubsKept(w, op);
    case JobStep(op) =>
      assert Holds(JobsPart, w);
      Printing.ExecKeeps(w.rules, w.setup.customers.Keys, w.jobs, w.book, op);
    case TillStep(op) =>
      assert Holds(TillPart, w);
      Cash.ExecKeeps(w.till, w.shop, op);
    case AdminStep(op) => AdminKeeps(w, op);
  }

  /** Edits by administrators keep the parts that look at what they edit. */
  lemma AdminKeeps(w: State, op: Admin.Op)
    requires WorldInv(w) && Allowed(w, AdminStep(op))
    ensures var w' := Exec(w, AdminStep(op)); Holds(FloorPart, w') && Holds(ShopPart, w')
  {
    assert Holds(FloorPart, w) && Holds(ShopPart, w);
    var w' := Exec(w, AdminStep(op));
    Admin.ExecKeeps(w.setup, w.rules, op);
    Admin.LaterSetupKeeps(w.setup, w'.setup, w.shop, w.book.rows);
    SessionProofs.SameSessionsKeep(w.floor, w'.floor, w.book.rows, w.clock, op.now);
  }

  /** Any service's step, accepted or refused, keeps every service's invariant. */
  lemma ExecKeeps(w: State, s: Step)
    requires WorldInv(w) && Allowed(w, s)
    ensures WorldInv(Exec(w, s))
  {
    var w' := Exec(w, s);
    StepGrows(w, s);
    Frame(w, w'.book, RowType(s), s.Now());
    OwnPartKept(w, s);
    forall part: Part
      ensures Holds(part, w')
    {
      assert Holds(part, w);
    }
  }

  lemma EmptyKeeps(w: State)
    requires Empty(w)
    ensures WorldInv(w)
  {
    assert forall c :: c in w.floor.computers ==> !Sessions.Busy(w.floor, c);
    assert forall c, u :: Cached(w.book, c, u) == 0;
    forall c
      ensures Referencing(w.book.rows, UsageSession, c, MONEY) == -SessionProofs.TotalMoneyEnded(w.floor, c)
    {
    }
    forall k
      ensures SessionProofs.RowsMatch(w.floor, w.book.rows, k)
      ensures Subscriptions.SubMatches(w.subs, w.book.rows, k)
      ensures Printing.JobMatches(w.jobs, w.book.rows, k)
      ensures SaleProofs.SaleMatches(w.setup, w.shop, w.book.rows, k)
    {
    }
  }

  // ---- runs -------------------------------------------------------------------------------------------------

  /** Each step of the run is allowed when it is taken. */
  ghost predicate Runs(w: State, steps: seq<Step>)
    requires WorldInv(w)
    decreases steps
  {
    steps == [] || (Allowed(w, steps[0])
                    && (ExecKeeps(w, steps[0]); Runs(Exec(w, steps[0]), steps[1..])))
  }

  ghost function End(w: State, steps: seq<Step>): State
    requires WorldInv(w) && Runs(w, steps)
    decreases steps
  {
    if steps == [] then w
    else ExecKeeps(w, steps[0]); End(Exec(w, steps[0]), steps[1..])
  }

  /** What later states keep of earlier ones. */
  ghost predicate Kept(w: State, w': State) {
    && w.book.rows <= w'.book.rows && w.clock <= w'.clock
    && PaymentProofs.PaymentsKept(w.shop, w'.shop) && PaymentProofs.SalesKept(w.shop, w'.shop)
    && SessionProofs.EndedKept(w.floor, w'.floor)
    && Cash.ClosedKept(w.till, w'.till)
    && Admin.SetupKept(w.setup, w'.setup)
  }

  lemma StepKeepsShopPast(w: State, s: Step)
    requires WorldInv(w) && Allowed(w, s)
    ensures PaymentProofs.PaymentsKept(w.shop, Exec(w, s).shop) && PaymentProofs.SalesKept(w.shop, Exec(w, s).shop)
  {
    if s.ShopStep? {
      assert Holds(ShopPart, w);
      PaymentProofs.ExecKeepsTables(w.setup, w.shop, w.book, w.subs, s.sale);
    }
  }

  lemma StepKeepsPast(w: State, s: Step)
    requires WorldInv(w) && Allowed(w, s)
    ensures Kept(w, Exec(w, s))
  {
    StepGrows(w, s);
    StepKeepsShopPast(w, s);
    match s
    case SessionStep(op) =>
      assert Holds(FloorPart, w);
      SessionProofs.AllEndedFinal(w.floor, w.book, op);
    case TillStep(op) =>
      assert Holds(TillPart, w);
      Cash.ExecKeeps(w.till, w.shop, op);
    case AdminStep(op) => Admin.ExecKeeps(w.setup, w.rules, op);
    case _ =>
  }

  lemma KeptTwice(w1: State, w2: State, w3: State)
    requires Kept(w1, w2) && Kept(w2, w3)
    ensures Kept(w1, w3)
  {
    PaymentProofs.PaymentsKeptTwice(w1.shop, w2.shop, w3.shop);
    forall id | id in w1.shop.sales
      ensures id in w3.shop.sales && PaymentProofs.SaleKept(w1.shop.sales[id], w3.shop.sales[id])
    {
      assert PaymentProofs.SaleKept(w1.shop.sales[id], w2.shop.sales[id]);
      assert PaymentProofs.SaleKept(w2.shop.sales[id], w3.shop.sales[id]);
    }
  }

  /** Over every run, the joint invariant holds at the end and the past is kept. */
  lemma {:induction false} RunKeeps(w: State, steps: seq<Step>)
    requires WorldInv(w) && Runs(w, steps)
    ensures WorldInv(End(w, steps)) && Kept(w, End(w, steps))
    decreases steps
  {
    if steps == [] {
    } else {
      var w1 := Exec(w, steps[0]);
      ExecKeeps(w, steps[0]);
      StepKeepsPast(w, steps[0]);
      RunKeeps(w1, steps[1..]);
      KeptTwice(w, w1, End(w1, steps[1..]));
    }
  }

  /** A state that some run from an empty store ends in. */
  ghost predicate Reachable(w: State) {
    exists w0: State, steps: seq<Step> :: EndsIn(w0, steps, w)
  }

  ghost predicate EndsIn(w0: State, steps: seq<Step>, w: State) {
    Empty(w0) && (EmptyKeeps(w0); Runs(w0, steps) && End(w0, steps) == w)
  }

  lemma ReachableKeeps(w: State)
    requires Reachable(w)
    ensures WorldInv(w)
  {
    var w0: State, steps: seq<Step> :| EndsIn(w0, steps, w);
    EmptyKeeps(w0);
    RunKeeps(w0, steps);
  }
}
