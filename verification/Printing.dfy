/** Print jobs: created pending, then approved against the page quota or else the money balance. */
module Printing {
  import opened Common
  import opened Ledger
  import opened Catalogue

  datatype JobStatus = PENDING_APPROVAL | PRINTED | CANCELLED_JOB

  datatype Job = Job(tenant: Id, branch: Id, customer: Option<Id>, pages: nat, copies: nat, color: bool, unitPrice: nat,
                     total: nat, status: JobStatus)

  type Jobs = map<Id, Job>

  datatype RuleKey = RuleKey(tenant: Id, color: bool, paper: string, duplex: bool)

  type Rules = map<RuleKey, seq<PriceRow>>

  function DefaultUnit(color: bool): nat {
    if color then 150 else 50
  }

  function UnitPrice(rules: Rules, key: RuleKey, now: int): nat {
    var rule := if key in rules then Newest(rules[key], (p: PriceRow) => ValidAt(p, now)) else None;
    if rule.Some? then rule.value.price else DefaultUnit(key.color)
  }

  function Create(jobs: Jobs, rules: Rules, customers: set<Id>, user: Principal, branch: Id, customer: Option<Id>,
                  pages: nat, copies: nat, key: RuleKey, id: Id, now: int): Result<Jobs>
  {
    var unit := UnitPrice(rules, key, now);
    if customer.Some? && customer.value !in customers then Err(FOREIGN_KEY_VIOLATION)
    else Ok(jobs[id := Job(user.tenant, branch, customer, pages, copies, key.color, unit, unit * pages * copies,
                           PENDING_APPROVAL)])
  }

  function QuotaUnit(j: Job): Unit {
    if j.color then PRINT_COLOR else PRINT_BW
  }

  function Pages(j: Job): nat {
    j.pages * j.copies
  }

  /** Wholly from the quota if it covers the pages, else wholly from the money balance. */
  function ChargeFor(b: Book, user: Principal, id: Id, j: Job, customer: Id): Delta {
    if Cached(b, customer, QuotaUnit(j)) >= Pages(j) then
      Delta(user.tenant, customer, QuotaUnit(j), 0 - Pages(j), PRINT, PrintJob, id, user.employee)
    else Delta(user.tenant, customer, MONEY, 0 - j.total, PRINT, PrintJob, id, user.employee)
  }

  function Approve(jobs: Jobs, b: Book, user: Principal, id: Id): Result<(Jobs, Book)> {
    if id !in jobs || jobs[id].tenant != user.tenant || jobs[id].status != PENDING_APPROVAL then Err(NOT_FOUND)
    else
      var j := jobs[id];
      var b' :- if j.customer.Some? then Apply(b, ChargeFor(b, user, id, j, j.customer.value)) else Ok(b);
      Ok((jobs[id := j.(status := PRINTED)], b'))
  }

  /** The status is not looked at: a printed job can be cancelled too, and keeps its charge. */
  function CancelJob(jobs: Jobs, user: Principal, id: Id): Result<Jobs> {
    if id !in jobs || jobs[id].tenant != user.tenant then Err(NOT_FOUND)
    else Ok(jobs[id := jobs[id].(status := CANCELLED_JOB)])
  }

  /** One call that touches the print jobs; `id` of a creation is new. */
  datatype Op =
    | CreateOp(user: Principal, branch: Id, customer: Option<Id>, pages: nat, copies: nat, key: RuleKey, id: Id,
               now: int)
    | ApproveOp(user: Principal, id: Id, now: int)
    | CancelOp(user: Principal, id: Id, now: int)

  function Exec(rules: Rules, customers: set<Id>, jobs: Jobs, b: Book, op: Op): (Jobs, Book) {
    match op
    case CreateOp(user, branch, customer, pages, copies, key, id, now) =>
      var r := Create(jobs, rules, customers, user, branch, customer, pages, copies, key, id, now);
      (if r.Ok? then r.value else jobs, b)
    case ApproveOp(user, id, _) =>
      var r := Approve(jobs, b, user, id);
      if r.Ok? then r.value else (jobs, b)
    case CancelOp(user, id, _) =>
      var r := CancelJob(jobs, user, id);
      (if r.Ok? then r.value else jobs, b)
  }

  // ---- the service ---------------------------------------------------------------------------------

  class PrintService {
    const balances: BalanceService
    var jobs: Jobs

    constructor (balances: BalanceService)
      ensures this.balances == balances && jobs == map[]
    {
      this.balances, this.jobs := balances, map[];
    }

    method CreateJob(rules: Rules, customers: set<Id>, user: Principal, branch: Id, customer: Option<Id>, pages: nat,
                     copies: nat, key: RuleKey, id: Id, now: int) returns (r: Result<()>)
      modifies this
      ensures match Create(old(jobs), rules, customers, user, branch, customer, pages, copies, key, id, now)
              case Ok(j) => r == Ok(()) && jobs == j
              case Err(e) => r == Err(e) && jobs == old(jobs)
    {
      var unit := UnitPrice(rules, key, now);
      var total := unit * pages * copies;
      if customer.Some? && customer.value !in customers {
        return Err(FOREIGN_KEY_VIOLATION);
      }
      r := Ok(());
      jobs := jobs[id := Job(user.tenant, branch, customer, pages, copies, key.color, unit, total, PENDING_APPROVAL)];
    }

    method ApproveJob(user: Principal, id: Id) returns (r: Result<()>)
      modifies this, balances
      ensures match Approve(old(jobs), old(balances.Contents()), user, id)
              case Ok((j, b)) => r == Ok(()) && jobs == j && balances.Contents() == b
              case Err(e) => r == Err(e) && jobs == old(jobs) && balances.Contents() == old(balances.Contents())
    {
      if id !in jobs || jobs[id].tenant != user.tenant || jobs[id].status != PENDING_APPROVAL {
        return Err(NOT_FOUND);
      }
      var job := jobs[id];
      var totalPages := job.pages * job.copies;
      if job.customer.Some? {
        var customer := job.customer.value;
        var quotaUnit := if job.color then PRINT_COLOR else PRINT_BW;
        var quota :=
          if customer in balances.balances then ReadUnit(balances.balances[customer], quotaUnit) else 0;
        if quota >= totalPages {
          var _ :- balances.ApplyWithin(
            Delta(user.tenant, customer, quotaUnit, 0 - totalPages, PRINT, PrintJob, id, user.employee));
        } else {
          var _ :- balances.ApplyWithin(
            Delta(user.tenant, customer, MONEY, 0 - job.total, PRINT, PrintJob, id, user.employee));
        }
      }
      jobs := jobs[id := job.(status := PRINTED)];
      r := Ok(());
    }

    method Cancel(user: Principal, id: Id) returns (r: Result<()>)
      modifies this
      ensures match CancelJob(old(jobs), user, id)
              case Ok(j) => r == Ok(()) && jobs == j
              case Err(e) => r == Err(e) && jobs == old(jobs)
    {
      if id !in jobs || jobs[id].tenant != user.tenant {
        return Err(NOT_FOUND);
      }
      jobs := jobs[id := jobs[id].(status := CANCELLED_JOB)];
      r := Ok(());
    }
  }

  // ---- what every run keeps ----------------------------------------------------------------------------

  /** At most one row, for the whole job: all pages from the quota or the whole price from money. */
  ghost predicate JobOk(j: Job, rows: seq<Row>) {
    && |rows| <= 1
    && (j.status == PENDING_APPROVAL || j.customer.None? ==> rows == [])
    && (j.status == PRINTED && j.customer.Some? ==> |rows| == 1)
    && (|rows| == 1 ==>
          && Some(rows[0].customer) == j.customer && rows[0].kind == PRINT
          && ((rows[0].unit == QuotaUnit(j) && rows[0].amount == 0 - Pages(j))
              || (rows[0].unit == MONEY && rows[0].amount == 0 - j.total)))
  }

  ghost predicate JobMatches(jobs: Jobs, rows: seq<Row>, id: Id) {
    if id in jobs then JobOk(jobs[id], RowsOf(rows, PrintJob, id)) else RowsOf(rows, PrintJob, id) == []
  }

  ghost predicate JobInv(jobs: Jobs, rows: seq<Row>) {
    forall id :: JobMatches(jobs, rows, id)
  }

  lemma PutJobKeeps(jobs: Jobs, rows: seq<Row>, id: Id, j: Job)
    requires JobInv(jobs, rows)
    requires if id in jobs then j == jobs[id].(status := CANCELLED_JOB) else j.status == PENDING_APPROVAL
    ensures JobInv(jobs[id := j], rows)
  {
    var jobs' := jobs[id := j];
    forall k
      ensures JobMatches(jobs', rows, k)
    {
      assert JobMatches(jobs, rows, k);
    }
  }

  lemma ApproveKeeps(jobs: Jobs, b: Book, user: Principal, id: Id)
    requires JobInv(jobs, b.rows) && Approve(jobs, b, user, id).Ok?
    ensures var (jobs', b') := Approve(jobs, b, user, id).value;
            JobInv(jobs', b'.rows) && Continues(b, b', PrintJob, id)
  {
    var (jobs', b') := Approve(jobs, b, user, id).value;
    var j := jobs[id];
    assert JobMatches(jobs, b.rows, id);
    if j.customer.Some? {
      ApplyContinues(b, ChargeFor(b, user, id, j, j.customer.value));
      RowsOfAppend(b.rows, b'.rows[|b.rows|], PrintJob, id);
    }
    forall k
      ensures JobMatches(jobs', b'.rows, k)
    {
      if k != id {
        OthersUnchanged(b.rows, b'.rows, PrintJob, id, PrintJob, k);
        assert JobMatches(jobs, b.rows, k);
      }
    }
  }

  /** Every call keeps the jobs' invariant, and adds at most the rows of the job it is about. */
  lemma ExecKeeps(rules: Rules, customers: set<Id>, jobs: Jobs, b: Book, op: Op)
    requires JobInv(jobs, b.rows) && (op.CreateOp? ==> op.id !in jobs)
    ensures var (jobs', b') := Exec(rules, customers, jobs, b, op);
            JobInv(jobs', b'.rows) && Continues(b, b', PrintJob, op.id)
  {
    match op
    case CreateOp(user, branch, customer, pages, copies, key, id, now) =>
      var r := Create(jobs, rules, customers, user, branch, customer, pages, copies, key, id, now);
      if r.Ok? {
        PutJobKeeps(jobs, b.rows, id, r.value[id]);
      }
    case ApproveOp(user, id, _) =>
      if Approve(jobs, b, user, id).Ok? {
        ApproveKeeps(jobs, b, user, id);
      }
    case CancelOp(user, id, _) =>
      if id in jobs {
        PutJobKeeps(jobs, b.rows, id, jobs[id].(status := CANCELLED_JOB));
      }
  }

  /** A new job waits, costs every page of every copy at one price, and touches no other job. The price is that of a
      valid rule that no other valid rule is newer than, or the default if no rule is valid. */
  lemma NewJobPrice(jobs: Jobs, rules: Rules, customers: set<Id>, user: Principal, branch: Id, customer: Option<Id>,
                    pages: nat, copies: nat, key: RuleKey, id: Id, now: int)
    ensures Create(jobs, rules, customers, user, branch, customer, pages, copies, key, id, now).Err?
            <==> customer.Some? && customer.value !in customers
    ensures Create(jobs, rules, customers, user, branch, customer, pages, copies, key, id, now).Ok? ==>
            var jobs' := Create(jobs, rules, customers, user, branch, customer, pages, copies, key, id, now).value;
            var valid := set r | key in rules && r in rules[key] && ValidAt(r, now);
            && id in jobs' && jobs'[id].status == PENDING_APPROVAL && jobs'[id].customer == customer
            && jobs'[id].tenant == user.tenant && jobs'[id].branch == branch && jobs'[id].color == key.color
            && jobs'[id].pages == pages && jobs'[id].copies == copies
            && jobs'[id].total == jobs'[id].unitPrice * (pages * copies)
            && (valid == {} ==> jobs'[id].unitPrice == if key.color then 150 else 50)
            && (valid != {} ==> exists r :: r in valid && jobs'[id].unitPrice == r.price
                                            && forall q :: q in valid ==> q.validFrom <= r.validFrom)
            && (forall k :: k in jobs && k != id ==> k in jobs' && jobs'[k] == jobs[k])
  {
    var valid := set r | key in rules && r in rules[key] && ValidAt(r, now);
    var rule := if key in rules then Newest(rules[key], (p: PriceRow) => ValidAt(p, now)) else None;
    assert rule.Some? ==> rule.value in valid;
    assert rule.None? ==> valid == {};
    Distributes(UnitPrice(rules, key, now), pages, copies);
  }

  lemma Distributes(unit: nat, pages: nat, copies: nat)
    ensures unit * pages * copies == unit * (pages * copies)
  {
  }

  /** A pending job of a customer is refused exactly when neither its quota nor its money covers it. */
  lemma RefusedIffNeitherCovers(jobs: Jobs, b: Book, user: Principal, id: Id)
    requires Replays(b) && id in jobs && jobs[id].tenant == user.tenant && jobs[id].status == PENDING_APPROVAL
    ensures var j := jobs[id];
            Approve(jobs, b, user, id).Err?
            <==> j.customer.Some? && Total(b.rows, j.customer.value, QuotaUnit(j)) < Pages(j)
                 && Total(b.rows, j.customer.value, MONEY) < j.total
  {
  }

  /** Quota first: the approval of a customer's job takes exactly its pages from the quota of its colour, and no money,
      if the replayed quota covers them; otherwise exactly its price from money, and nothing from the quota. Nothing
      else moves, and an anonymous job moves nothing. */
  lemma QuotaFirst(jobs: Jobs, b: Book, user: Principal, id: Id, c: Id, u: Unit)
    requires Replays(b) && Approve(jobs, b, user, id).Ok?
    ensures var (jobs', b') := Approve(jobs, b, user, id).value;
            var j := jobs[id];
            var quota := if j.color then PRINT_COLOR else PRINT_BW;
            && jobs' == jobs[id := j.(status := PRINTED)]
            && (j.customer.Some? ==>
                  && |b'.rows| == |b.rows| + 1
                  && var r := b'.rows[|b.rows|];
                     r.tenant == user.tenant && r.kind == PRINT && r.actor == user.employee)
            && Total(b'.rows, c, u) - Total(b.rows, c, u)
               == if j.customer != Some(c) then 0
                  else if Total(b.rows, c, quota) >= j.pages * j.copies then
                    (if u == quota then 0 - j.pages * j.copies else 0)
                  else (if u == MONEY then 0 - j.total else 0)
  {
    var b' := Approve(jobs, b, user, id).value.1;
    if jobs[id].customer.Some? {
      TotalAppend(b.rows, b'.rows[|b.rows|], c, u);
    }
  }

  /** Only a pending job of the tenant can be approved; any job of the tenant can be cancelled, which moves nothing. */
  lemma ApproveAndCancelRefusals(jobs: Jobs, b: Book, user: Principal, id: Id)
    ensures Approve(jobs, b, user, id).Err? && Approve(jobs, b, user, id).error == NOT_FOUND
            <==> !(id in jobs && jobs[id].tenant == user.tenant && jobs[id].status == PENDING_APPROVAL)
    ensures match CancelJob(jobs, user, id)
            case Err(e) => e == NOT_FOUND && !(id in jobs && jobs[id].tenant == user.tenant)
            case Ok(jobs') =>
              && id in jobs && jobs[id].tenant == user.tenant
              && jobs' == jobs[id := jobs[id].(status := CANCELLED_JOB)]
  {
  }

  /** Once approved or cancelled, a job is never charged again. */
  lemma ChargedAtMostOnce(jobs: Jobs, b: Book, user: Principal, user2: Principal, id: Id)
    requires Approve(jobs, b, user, id).Ok?
    ensures var (jobs', b') := Approve(jobs, b, user, id).value;
            Approve(jobs', b', user2, id).Err?
            && (CancelJob(jobs', user2, id).Ok? ==> Approve(CancelJob(jobs', user2, id).value, b', user2, id).Err?)
  {
  }

  lemma OtherServiceKeepsJobs(jobs: Jobs, b: Book, b': Book, t: RefType)
    requires JobInv(jobs, b.rows) && t != PrintJob && GrowsBy(b, b', t)
    ensures JobInv(jobs, b'.rows)
  {
    forall k
      ensures JobMatches(jobs, b'.rows, k)
    {
      OtherTypesUnchanged(b.rows, b'.rows, t, PrintJob, k);
      assert JobMatches(jobs, b.rows, k);
    }
  }
}
