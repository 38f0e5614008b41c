/** What persistence/jobs/jobs.go stores, without the buckets: jobs by ID and the index of running IDs. */
module JobTable {
  import opened Keys
  import opened Meeseeks
  import opened Wrappers

  datatype JobError =
    | InvalidStatus(status: string)
    | NoJobWithID
    | NotRunning(status: string)
    | UnreadableJob(id: uint64)
    | NotCommitted

  datatype Table = Table(sequence: uint64, jobs: map<uint64, Job>, running: set<uint64>) {

    /** The index lists exactly the running jobs; jobs sit under their own IDs, handed out so far. */
    ghost predicate Consistent() {
      && (forall id :: id in running ==> id in jobs && jobs[id].status == RUNNING)
      && (forall id :: id in jobs ==> IsStored(id))
    }

    ghost predicate IsStored(id: uint64)
      requires id in jobs
    {
      && jobs[id].id == id && 1 <= id <= sequence
      && (jobs[id].status == RUNNING ==> id in running)
    }

    /** No job that has ended differs in later. */
    ghost predicate KeepsEnded(later: Table) {
      forall id :: id in jobs && jobs[id].status != RUNNING ==> id in later.jobs && later.jobs[id] == jobs[id]
    }
  }

  const EMPTY := Table(0, map[], {})

  /** The job of ID 0 that commands without a record run under. */
  function NullJob(req: Request, now: int): Job {
    Job(0, req, now, 0, RUNNING)
  }

  function NextID(t: Table): uint64 {
    if t.sequence == MAX_UINT64 then 0 else t.sequence + 1
  }

  function Created(t: Table, req: Request, now: int): Table {
    var id := NextID(t);
    Table(id, t.jobs[id := Job(id, req, now, 0, RUNNING)], t.running + {id})
  }

  predicate IsEndStatus(status: string) {
    status == SUCCESSFUL || status == FAILED
  }

  function Finished(t: Table, id: uint64, status: string, now: int): Result<Table, JobError> {
    if !IsEndStatus(status) then Failure(InvalidStatus(status))
    else if id !in t.jobs then Failure(NoJobWithID)
    else if t.jobs[id].status != RUNNING then Failure(NotRunning(t.jobs[id].status))
    else Success(t.(
      jobs := t.jobs[id := t.jobs[id].(endTime := now, status := status)],
      running := t.running - {id}))
  }

  /** The table when a finish leaves it unchanged on error. */
  function AfterFinish(t: Table, id: uint64, status: string, now: int): Table {
    match Finished(t, id, status, now)
    case Success(u) => u
    case Failure(_) => t
  }

  function Kill(job: Job, now: int): Job {
    job.(status := KILLED, endTime := now)
  }

  /** Every indexed job killed, whatever its status, and the index emptied. */
  function Killed(t: Table, now: int): Table {
    Table(t.sequence, map id | id in t.jobs :: if id in t.running then Kill(t.jobs[id], now) else t.jobs[id], {})
  }

  // ------------------------------------------------------------ what is kept

  /** Creating keeps the table consistent, and ended jobs as they are, until the 64-bit sequence wraps. */
  lemma CreateKeeps(t: Table, req: Request, now: int)
    requires t.Consistent()
    ensures Created(t, req, now).Consistent() <==> t.sequence < MAX_UINT64
    ensures t.sequence < MAX_UINT64 ==> NextID(t) !in t.jobs && t.KeepsEnded(Created(t, req, now))
  {
    var u := Created(t, req, now);
    if t.sequence == MAX_UINT64 {
      assert !u.IsStored(0);
    } else {
      assert NextID(t) !in t.jobs;
      forall id | id in u.jobs ensures u.IsStored(id) {
        if id != NextID(t) {
          assert t.IsStored(id);
        }
      }
    }
  }

  lemma FinishKeeps(t: Table, id: uint64, status: string, now: int)
    requires t.Consistent()
    ensures AfterFinish(t, id, status, now).Consistent()
    ensures t.KeepsEnded(AfterFinish(t, id, status, now))
    ensures Finished(t, id, status, now).Success? <==> IsEndStatus(status) && id in t.running
    ensures id == 0 ==> AfterFinish(t, id, status, now) == t
  {
    var u := AfterFinish(t, id, status, now);
    assert id in t.jobs ==> t.IsStored(id);
    forall j | j in u.jobs ensures u.IsStored(j) {
      assert t.IsStored(j);
    }
  }

  /** The job was has ended now, with this status; nothing else about it is different. */
  ghost predicate EndedAs(was: Job, later: Job, status: string, now: int) {
    && later.status == status && later.endTime == now
    && later.id == was.id && later.request == was.request && later.startTime == was.startTime
  }

  /** A new job is stored under a number of its own, for the request, running since now; nothing else changes. */
  lemma CreatedExactly(t: Table, req: Request, now: int)
    requires t.Consistent() && t.sequence < MAX_UINT64
    ensures var u := Created(t, req, now);
      var id := u.sequence;
      && id == t.sequence + 1 && id !in t.jobs && u.jobs.Keys == t.jobs.Keys + {id} && u.running == t.running + {id}
      && u.jobs[id].id == id && u.jobs[id].request == req && u.jobs[id].startTime == now
      && u.jobs[id].endTime == 0 && u.jobs[id].status == "Running"
      && forall j :: j in t.jobs ==> u.jobs[j] == t.jobs[j]
  {
    CreateKeeps(t, req, now);
  }

  /** Which error a finish reports, and what a good one writes. */
  lemma FinishedExactly(t: Table, id: uint64, status: string, now: int)
    ensures var r, known := Finished(t, id, status, now), status == "Successful" || status == "Failed";
      && (r == Failure(InvalidStatus(status)) <==> !known)
      && (r == Failure(NoJobWithID) <==> known && id !in t.jobs)
      && (r.Failure? && r.error.NotRunning? <==> known && id in t.jobs && t.jobs[id].status != "Running")
      && (r.Failure? && r.error.NotRunning? ==> r.error.status == t.jobs[id].status)
      && (r.Success? <==> known && id in t.jobs && t.jobs[id].status == "Running")
    ensures Finished(t, id, status, now).Success? ==>
      var u := AfterFinish(t, id, status, now);
      && u.jobs.Keys == t.jobs.Keys && u.running == t.running - {id} && u.sequence == t.sequence
      && EndedAs(t.jobs[id], u.jobs[id], status, now)
      && forall j :: j in t.jobs && j != id ==> u.jobs[j] == t.jobs[j]
    ensures Finished(t, id, status, now).Failure? ==> AfterFinish(t, id, status, now) == t
  {
  }

  /** Every indexed job gets the status Killed and the time now, and keeps the rest; the other jobs keep everything. */
  lemma KilledExactly(t: Table, now: int)
    ensures var u := Killed(t, now);
      && u.jobs.Keys == t.jobs.Keys && u.running == {} && u.sequence == t.sequence
      && forall id :: id in t.jobs ==>
           if id in t.running then EndedAs(t.jobs[id], u.jobs[id], "Killed", now) else u.jobs[id] == t.jobs[id]
  {
  }

  /** Killing does not look at the status it overwrites; the index makes that safe. */
  lemma KillKeeps(t: Table, now: int)
    requires t.Consistent()
    ensures Killed(t, now).Consistent() && Killed(t, now).running == {}
    ensures t.KeepsEnded(Killed(t, now))
    ensures forall id :: id in t.jobs && t.jobs[id].status == "Running" ==>
      id in Killed(t, now).jobs && EndedAs(t.jobs[id], Killed(t, now).jobs[id], "Killed", now)
  {
    var u := Killed(t, now);
    forall j | j in u.jobs ensures u.IsStored(j) {
      assert t.IsStored(j);
    }
    forall j | j in t.jobs && t.jobs[j].status != RUNNING ensures u.jobs[j] == t.jobs[j] {
      assert j !in t.running;
    }
    forall j | j in t.jobs && t.jobs[j].status == RUNNING ensures EndedAs(t.jobs[j], u.jobs[j], "Killed", now) {
      assert t.IsStored(j);
    }
  }

  // ------------------------------------------------------------------- runs

  datatype Op =
    | NewJob(req: Request, now: int)
    | EndJob(id: uint64, status: string, now: int)
    | KillJobs(now: int)

  function Apply(t: Table, op: Op): Table {
    match op
    case NewJob(req, now) => Created(t, req, now)
    case EndJob(id, status, now) => AfterFinish(t, id, status, now)
    case KillJobs(now) => Killed(t, now)
  }

  function Replay(ops: seq<Op>): Table {
    if ops == [] then EMPTY else Apply(Replay(ops[..|ops| - 1]), ops[|ops| - 1])
  }

  lemma EndedStays(t: Table, u: Table, v: Table)
    requires t.KeepsEnded(u) && u.KeepsEnded(v)
    ensures t.KeepsEnded(v)
  {
  }

  lemma ApplyKeeps(t: Table, op: Op)
    requires t.Consistent() && t.sequence < MAX_UINT64
    ensures Apply(t, op).Consistent() && t.KeepsEnded(Apply(t, op)) && Apply(t, op).sequence <= t.sequence + 1
  {
    hide Table.Consistent, Table.KeepsEnded, Killed, Finished;
    match op
    case NewJob(req, now) => CreateKeeps(t, req, now);
    case EndJob(id, status, now) =>
      FinishKeeps(t, id, status, now);
      assert AfterFinish(t, id, status, now).sequence == t.sequence by { FinishKeepsSequence(t, id, status, now); }
    case KillJobs(now) =>
      KillKeeps(t, now);
      assert Killed(t, now).sequence == t.sequence by { KillKeepsSequence(t, now); }
  }

  lemma FinishKeepsSequence(t: Table, id: uint64, status: string, now: int)
    ensures AfterFinish(t, id, status, now).sequence == t.sequence
  {
  }

  lemma KillKeepsSequence(t: Table, now: int)
    ensures Killed(t, now).sequence == t.sequence
  {
  }

  /**
   * Under every sequence of creates, finishes and kills, however wrong their arguments, the index is exactly the
   * running jobs, IDs stay within the sequence, and no job that ended at any point differs later.
   */
  lemma {:induction false} StoreRun(ops: seq<Op>, i: nat)
    requires i <= |ops| <= MAX_UINT64
    ensures Replay(ops).Consistent() && Replay(ops).sequence as int <= |ops|
    ensures forall id :: id in Replay(ops).running <==> id in Replay(ops).jobs && Replay(ops).jobs[id].status == RUNNING
    ensures Replay(ops[..i]).KeepsEnded(Replay(ops))
    decreases |ops|
  {
    if ops == [] {
      assert ops[..i] == ops;
    } else {
      var front := ops[..|ops| - 1];
      var j := if i == |ops| then i - 1 else i;
      StoreRun(front, j);
      hide Apply, Table.KeepsEnded;
      ApplyKeeps(Replay(front), ops[|ops| - 1]);
      assert front[..j] == ops[..j];
      if i == |ops| {
        assert ops[..i] == ops;
        TableStays(Replay(ops));
      } else {
        EndedStays(Replay(ops[..i]), Replay(front), Replay(ops));
      }
      IndexExact(Replay(ops));
    }
  }

  lemma TableStays(t: Table)
    ensures t.KeepsEnded(t)
  {
  }

  lemma IndexExact(t: Table)
    requires t.Consistent()
    ensures forall id :: id in t.running <==> id in t.jobs && t.jobs[id].status == RUNNING
  {
    forall id | id in t.jobs && t.jobs[id].status == RUNNING ensures id in t.running {
      assert t.IsStored(id);
    }
  }

  // --------------------------------------------------------------- searching

  /**
   * What a search must answer: matching jobs in strictly descending ID order,
   * no more than the limit, and none skipped in favour of an older one.
   */
  ghost predicate IsLatest(t: Table, limit: int, matches: Job -> bool, r: seq<Job>) {
    && (forall i, j :: 0 <= i < j < |r| ==> r[i].id > r[j].id)
    && (forall i :: 0 <= i < |r| ==> r[i].id in t.jobs && t.jobs[r[i].id] == r[i] && matches(r[i]))
    && (limit <= 0 ==> r == [])
    && (limit > 0 ==> |r| <= limit)
    && (forall id :: id in t.jobs && matches(t.jobs[id]) && t.jobs[id] !in r ==> |r| >= limit)
    && (forall id :: id in t.jobs && matches(t.jobs[id]) && t.jobs[id] !in r ==>
          forall i :: 0 <= i < |r| ==> r[i].id > id)
  }

  /** Matchers that agree on every job make the same search. */
  lemma SameMatches(t: Table, limit: int, matches: Job -> bool, others: Job -> bool, r: seq<Job>)
    requires forall job: Job :: matches(job) <==> others(job)
    requires IsLatest(t, limit, matches, r)
    ensures IsLatest(t, limit, others, r)
  {
  }

  /** Every job of an answer is stored and matches, in descending order. */
  lemma LatestAt(t: Table, limit: int, matches: Job -> bool, r: seq<Job>, i: nat)
    requires IsLatest(t, limit, matches, r) && i < |r|
    ensures r[i].id in t.jobs && t.jobs[r[i].id] == r[i] && matches(r[i])
    ensures forall k :: 0 <= k < i ==> r[k].id > r[i].id
  {
  }

  /** A matching job newer than an answer's i-th comes before it. */
  lemma LatestBefore(t: Table, limit: int, matches: Job -> bool, r: seq<Job>, i: nat, id: uint64)
    requires IsLatest(t, limit, matches, r) && i < |r| && id in t.jobs && matches(t.jobs[id])
    requires t.jobs[id].id == id
    ensures id > r[i].id ==> exists k :: 0 <= k < i && r[k].id == id
  {
    if id > r[i].id {
      assert t.jobs[id] in r;
      var k :| 0 <= k < |r| && r[k] == t.jobs[id];
      assert k < i;
    }
  }

  /** Answers that agree so far agree on the next job. */
  lemma LatestNext(t: Table, limit: int, matches: Job -> bool, r: seq<Job>, s: seq<Job>, i: nat)
    requires IsLatest(t, limit, matches, r) && IsLatest(t, limit, matches, s)
    requires i < |r| && i < |s| && forall k :: 0 <= k < i ==> r[k] == s[k]
    ensures r[i] == s[i]
  {
    hide IsLatest;
    LatestAt(t, limit, matches, r, i);
    LatestAt(t, limit, matches, s, i);
    LatestBefore(t, limit, matches, r, i, s[i].id);
    LatestBefore(t, limit, matches, s, i, r[i].id);
  }

  lemma {:induction false} LatestAgree(t: Table, limit: int, matches: Job -> bool, r: seq<Job>, s: seq<Job>, n: nat)
    requires IsLatest(t, limit, matches, r) && IsLatest(t, limit, matches, s)
    requires n <= |r| && n <= |s|
    ensures forall k :: 0 <= k < n ==> r[k] == s[k]
  {
    hide IsLatest;
    if n > 0 {
      LatestAgree(t, limit, matches, r, s, n - 1);
      LatestNext(t, limit, matches, r, s, n - 1);
    }
  }

  /** Only a full answer leaves a matching job out. */
  lemma LatestFull(t: Table, limit: int, matches: Job -> bool, r: seq<Job>, id: uint64)
    requires IsLatest(t, limit, matches, r) && id in t.jobs && matches(t.jobs[id]) && t.jobs[id].id == id
    ensures |r| >= limit || exists k :: 0 <= k < |r| && r[k].id == id
  {
    if t.jobs[id] in r {
      var k :| 0 <= k < |r| && r[k] == t.jobs[id];
      assert r[k].id == id;
    }
  }

  /** A table, a limit and a filter determine the answer. */
  lemma LatestUnique(t: Table, limit: int, matches: Job -> bool, r: seq<Job>, s: seq<Job>)
    requires IsLatest(t, limit, matches, r) && IsLatest(t, limit, matches, s)
    ensures r == s
  {
    var n := if |r| < |s| then |r| else |s|;
    LatestAgree(t, limit, matches, r, s, n);
    if |r| < |s| {
      LatestFull(t, limit, matches, r, s[n].id);
    } else if |s| < |r| {
      LatestFull(t, limit, matches, s, r[n].id);
    }
  }
}
