/** persistence/jobs/jobs.go over its two Bolt buckets. */
module Jobs {
  import opened Bolt
  import opened Bytes
  import opened JobTable
  import opened Keys
  import opened Meeseeks
  import opened Wrappers

  datatype JobFilter = JobFilter(limit: int, filter: Option<Job -> bool>)

  function Matcher(filter: JobFilter): Job -> bool {
    match filter.filter
    case Some(f) => f
    case None => (job: Job) => true
  }

  /** Without a filter every job matches. */
  lemma MatcherIs(filter: JobFilter)
    ensures filter.filter.None? ==> forall job: Job :: Matcher(filter)(job)
    ensures filter.filter.Some? ==> Matcher(filter) == filter.filter.value
  {
  }

  lemma SameAnswer(t: Table, filter: JobFilter, r: seq<Job>)
    requires IsLatest(t, filter.limit, Matcher(filter), r)
    ensures filter.filter.None? ==> IsLatest(t, filter.limit, (job: Job) => true, r)
    ensures filter.filter.Some? ==> IsLatest(t, filter.limit, filter.filter.value, r)
  {
    MatcherIs(filter);
    hide Matcher, IsLatest;
    if filter.filter.None? {
      SameMatches(t, filter.limit, Matcher(filter), (job: Job) => true, r);
    }
  }

  /** Every value is a job under the key of its own ID. */
  ghost predicate JobsKeyed(items: map<Key, Entry<Job>>) {
    forall k :: k in items ==> |k| == 8 && items[k].Leaf? && IDToBytes(items[k].value.id) == k
  }

  ghost predicate RunningKeyed(items: map<Key, Entry<string>>) {
    forall k :: k in items ==> |k| == 8 && items[k].Leaf?
  }

  ghost function JobsByID(items: map<Key, Entry<Job>>): map<uint64, Job>
    requires JobsKeyed(items)
  {
    map id: uint64 | IDToBytes(id) in items :: items[IDToBytes(id)].value
  }

  ghost function RunningIDs(items: map<Key, Entry<string>>): set<uint64> {
    set id: uint64 | IDToBytes(id) in items
  }

  /** jobsMultiMatch: the conjunction of the matchers. */
  function MultiMatch(matchers: seq<Job -> bool>): Job -> bool {
    (job: Job) => forall i :: 0 <= i < |matchers| ==> matchers[i](job)
  }

  function IsUser(username: Text): Job -> bool {
    (job: Job) => job.request.username == username
  }

  function IsJobID(id: uint64): Job -> bool {
    (job: Job) => job.id == id
  }

  function IsStatusOrEmpty(status: string): Job -> bool {
    (job: Job) => status == "" || job.status == status
  }

  lemma PutKeyed(items: map<Key, Entry<Job>>, id: uint64, job: Job)
    requires JobsKeyed(items) && job.id == id
    ensures JobsKeyed(items[IDToBytes(id) := Leaf(job)])
  {
  }

  lemma PutJobAt(items: map<Key, Entry<Job>>, id: uint64, job: Job, j: uint64)
    requires JobsKeyed(items) && JobsKeyed(items[IDToBytes(id) := Leaf(job)])
    ensures var after := JobsByID(items[IDToBytes(id) := Leaf(job)]);
      && (j in after <==> j == id || j in JobsByID(items))
      && (j in after ==> after[j] == if j == id then job else JobsByID(items)[j])
  {
    IDsApart();
  }

  lemma PutJob(items: map<Key, Entry<Job>>, id: uint64, job: Job)
    requires JobsKeyed(items) && JobsKeyed(items[IDToBytes(id) := Leaf(job)])
    ensures JobsByID(items[IDToBytes(id) := Leaf(job)]) == JobsByID(items)[id := job]
  {
    hide JobsByID, IDToBytes, JobsKeyed;
    var before, after := JobsByID(items), JobsByID(items[IDToBytes(id) := Leaf(job)]);
    forall j: uint64
      ensures j in after <==> j in before[id := job]
      ensures j in after ==> after[j] == before[id := job][j]
    {
      PutJobAt(items, id, job, j);
    }
  }

  lemma PutRunning(items: map<Key, Entry<string>>, id: uint64)
    ensures RunningIDs(items[IDToBytes(id) := Leaf(RUNNING)]) == RunningIDs(items) + {id}
  {
    IDsApart();
  }

  lemma DropRunning(items: map<Key, Entry<string>>, id: uint64)
    ensures RunningIDs(items - {IDToBytes(id)}) == RunningIDs(items) - {id}
  {
    IDsApart();
  }

  ghost function Abstract(jobs: Bucket<Job>, running: Bucket<string>): Table
    requires JobsKeyed(jobs.items)
  {
    Table(jobs.sequence, JobsByID(jobs.items), RunningIDs(running.items))
  }

  lemma EmptyAbstract()
    ensures Abstract(EmptyBucket(), EmptyBucket()) == EMPTY
  {
  }

  lemma {:induction false} CreatedAbstract(bucket: Bucket<Job>, index: Bucket<string>, job: Job)
    requires JobsKeyed(bucket.items) && RunningKeyed(index.items)
    ensures var key := IDToBytes(job.id);
      && index.Put(key, RUNNING).Success? && bucket.Put(key, job).Success?
      && var b, i := bucket.Put(key, job).value, index.Put(key, RUNNING).value;
      && JobsKeyed(b.items) && RunningKeyed(i.items)
      && Abstract(b, i)
           == Table(bucket.sequence, JobsByID(bucket.items)[job.id := job], RunningIDs(index.items) + {job.id})
  {
    PutKeyed(bucket.items, job.id, job);
    PutJob(bucket.items, job.id, job);
    PutRunning(index.items, job.id);
  }

  ghost function KilledItems(items: map<Key, Entry<Job>>, done: set<Key>, now: int): map<Key, Entry<Job>>
    requires JobsKeyed(items)
  {
    map k | k in items :: if k in done then Leaf(Kill(items[k].value, now)) else items[k]
  }

  lemma KilledPut(items: map<Key, Entry<Job>>, done: set<Key>, k: Key, now: int)
    requires JobsKeyed(items) && k in items
    ensures KilledItems(items, done + {k}, now) == KilledItems(items, done, now)[k := Leaf(Kill(items[k].value, now))]
  {
  }

  /** Saving the killed job and dropping its key is one more key handled. */
  lemma KilledStep(jobs: Bucket<Job>, running: Bucket<string>, done: set<Key>, k: Key, now: int)
    requires JobsKeyed(jobs.items) && RunningKeyed(running.items)
    requires k in jobs.items && k in running.items && k !in done
    ensures var j := Kill(jobs.items[k].value, now);
      && jobs.(items := KilledItems(jobs.items, done, now)).Put(IDToBytes(j.id), j)
           == Success(jobs.(items := KilledItems(jobs.items, done + {k}, now)))
      && running.(items := running.items - done).Delete(k) == Success(running.(items := running.items - (done + {k})))
  {
    KilledPut(jobs.items, done, k, now);
    assert running.items - done - {k} == running.items - (done + {k});
  }

  lemma KilledNone(items: map<Key, Entry<Job>>, now: int)
    requires JobsKeyed(items)
    ensures KilledItems(items, {}, now) == items
  {
  }

  /** A running key not yet handled leads to its job, unless the job is missing from the table. */
  lemma KilledAt(jobs: Bucket<Job>, running: Bucket<string>, done: set<Key>, k: Key, now: int)
    requires JobsKeyed(jobs.items) && k in running.items && |k| == 8 && k !in done
    ensures var payload := jobs.(items := KilledItems(jobs.items, done, now)).Get(k);
      && (payload.Some? ==> k in jobs.items && payload.value == jobs.items[k].value && IDToBytes(payload.value.id) == k)
      && (payload.None? ==> !(RunningIDs(running.items) <= JobsByID(jobs.items).Keys))
  {
    KeyRoundTrip(k);
    var id := IDFromBytes(k);
    assert id in RunningIDs(running.items);
    assert k !in jobs.items ==> id !in JobsByID(jobs.items);
  }

  /** The keys a cursor has passed on its way up. */
  ghost function Visited(keys: seq<Key>, pos: int): set<Key> {
    set i | 0 <= i < pos && i < |keys| :: keys[i]
  }

  lemma VisitedStep(keys: seq<Key>, pos: int)
    requires (exists ks :: keys == Ascending(ks)) && 0 <= pos < |keys|
    ensures keys[pos] !in Visited(keys, pos) && Visited(keys, pos + 1) == Visited(keys, pos) + {keys[pos]}
  {
    hide Less, Ascending;
    var ks :| keys == Ascending(ks);
    AscendingSorted(ks);
    LessIrreflexive(keys[pos]);
  }

  /** Nothing visited at the start, every key once the cursor is past the end. */
  lemma VisitedEnds(items: map<Key, Entry<string>>, pos: int)
    requires pos >= |Ascending(items.Keys)|
    ensures Visited(Ascending(items.Keys), 0) == {} && Visited(Ascending(items.Keys), pos) == items.Keys
  {
    var keys := Ascending(items.Keys);
    forall k ensures k in Visited(keys, pos) <==> k in items {
      if k in items {
        assert k in keys;
        var i :| 0 <= i < |keys| && keys[i] == k;
      }
    }
  }

  lemma RunningKeyAt(items: map<Key, Entry<string>>, pos: int)
    requires RunningKeyed(items) && 0 <= pos < |Ascending(items.Keys)|
    ensures Ascending(items.Keys)[pos] in items && |Ascending(items.Keys)[pos]| == 8
  {
    assert Ascending(items.Keys)[pos] in Ascending(items.Keys);
  }

  lemma KilledKeyed(items: map<Key, Entry<Job>>, done: set<Key>, now: int)
    requires JobsKeyed(items)
    ensures JobsKeyed(KilledItems(items, done, now))
  {
  }

  lemma KilledJobAt(jobs: map<Key, Entry<Job>>, running: map<Key, Entry<string>>, now: int, id: uint64)
    requires JobsKeyed(jobs) && JobsKeyed(KilledItems(jobs, running.Keys, now))
    ensures var before, after := JobsByID(jobs), JobsByID(KilledItems(jobs, running.Keys, now));
      && (id in after <==> id in before)
      && (id in after ==> after[id] == if id in RunningIDs(running) then Kill(before[id], now) else before[id])
    ensures running.Keys <= jobs.Keys && id in RunningIDs(running) ==> id in JobsByID(jobs)
  {
    hide Less;
  }

  lemma {:induction false} KilledAbstract(bucket: Bucket<Job>, index: Bucket<string>, now: int)
    requires JobsKeyed(bucket.items) && index.items.Keys <= bucket.items.Keys
    ensures JobsKeyed(KilledItems(bucket.items, index.items.Keys, now))
    ensures Abstract(bucket.(items := KilledItems(bucket.items, index.items.Keys, now)), index.(items := map[]))
         == Killed(Abstract(bucket, index), now)
    ensures RunningIDs(index.items) <= JobsByID(bucket.items).Keys && RunningKeyed(map[])
  {
    KilledKeyed(bucket.items, index.items.Keys, now);
    assert RunningIDs(map[]) == {};
    hide JobsByID, RunningIDs, KilledItems, JobsKeyed;
    forall id: uint64
      ensures var before, after := JobsByID(bucket.items), JobsByID(KilledItems(bucket.items, index.items.Keys, now));
        && (id in after <==> id in before)
        && (id in after ==> after[id] == if id in RunningIDs(index.items) then Kill(before[id], now) else before[id])
      ensures id in RunningIDs(index.items) ==> id in JobsByID(bucket.items)
    {
      KilledJobAt(bucket.items, index.items, now, id);
    }
    IsKilled(Abstract(bucket, index), JobsByID(KilledItems(bucket.items, index.items.Keys, now)), now);
  }

  lemma IsKilled(t: Table, after: map<uint64, Job>, now: int)
    requires forall id: uint64 :: id in after <==> id in t.jobs
    requires forall id: uint64 :: id in after ==>
      after[id] == if id in t.running then Kill(t.jobs[id], now) else t.jobs[id]
    ensures Killed(t, now) == Table(t.sequence, after, {})
  {
    assert after == Killed(t, now).jobs;
  }

  lemma KilledInBucket(
    jobs: Bucket<Job>, running: Bucket<string>, killed: Bucket<Job>, index: Bucket<string>, now: int)
    requires JobsKeyed(jobs.items) && JobsKeyed(killed.items)
    requires RunningKeyed(running.items) && RunningKeyed(index.items)
    requires RunningIDs(running.items) <= JobsByID(jobs.items).Keys
    requires Abstract(killed, index) == Killed(Abstract(jobs, running), now)
    ensures forall id :: id in RunningIDs(running.items) ==>
      && id in JobsByID(jobs.items) && id in JobsByID(killed.items)
      && EndedAs(JobsByID(jobs.items)[id], JobsByID(killed.items)[id], "Killed", now)
  {
    KilledExactly(Abstract(jobs, running), now);
    hide JobsByID, RunningIDs, JobsKeyed, RunningKeyed, Killed, EndedAs;
  }

  /** The body of the failRunningJobs transaction. */
  method KillIndexed(jobs: Bucket<Job>, running: Bucket<string>, now: int)
    returns (r: Result<(Bucket<Job>, Bucket<string>), JobError>)
    requires JobsKeyed(jobs.items) && RunningKeyed(running.items)
    ensures r.Success? <==> RunningIDs(running.items) <= JobsByID(jobs.items).Keys
    ensures r.Success? ==> JobsKeyed(r.value.0.items) && RunningKeyed(r.value.1.items)
    ensures r.Success? ==> Abstract(r.value.0, r.value.1) == Killed(Abstract(jobs, running), now)
    ensures r.Success? ==> forall id :: id in RunningIDs(running.items) ==>
      && id in JobsByID(jobs.items) && id in JobsByID(r.value.0.items)
      && EndedAs(JobsByID(jobs.items)[id], JobsByID(r.value.0.items)[id], "Killed", now)
  {
    hide Ascending, Less, IDToBytes, RunningIDs, JobsByID, KilledItems, Abstract, Killed, IDFromBytes, Visited;
    hide JobsKeyed, RunningKeyed, Bucket.Get, Bucket.Put, Bucket.Delete, Kill;
    KilledNone(jobs.items, now);
    VisitedEnds(running.items, |running.items|);
    var index, bucket := running, jobs;
    ghost var done: set<Key> := {};
    var c := new Cursor(running);
    var key, value := c.First();
    while key.Some?
      invariant c.Valid() && c.bucket == running && 0 <= c.pos && key == c.At().0
      invariant done == Visited(c.keys, c.pos) <= jobs.items.Keys
      invariant bucket == jobs.(items := KilledItems(jobs.items, done, now))
      invariant index == running.(items := running.items - done)
      decreases |c.keys| - c.pos
    {
      var k := key.value;
      VisitedStep(c.keys, c.pos);
      RunningKeyAt(running.items, c.pos);
      var jobID := IDFromBytes(k);
      var payload := bucket.Get(k);
      KilledAt(jobs, running, done, k, now);
      if payload.None? {
        return Failure(UnreadableJob(jobID));
      }
      KilledStep(jobs, running, done, k, now);
      var j := Kill(payload.value, now);
      bucket := bucket.Put(IDToBytes(j.id), j).value;
      index := index.Delete(k).value;
      done := done + {k};
      key, value := c.Next();
    }
    VisitedEnds(running.items, c.pos);
    KilledAbstract(jobs, running, now);
    assert index.items == map[];
    KilledInBucket(jobs, running, bucket, index, now);
    return Success((bucket, index));
  }

  /** The two buckets exist together: create makes both in one transaction. */
  class Store {
    var jobs: Option<Bucket<Job>>
    var running: Option<Bucket<string>>

    ghost predicate Valid()
      reads this
    {
      && (jobs.Some? <==> running.Some?)
      && (jobs.Some? ==> JobsKeyed(jobs.value.items) && RunningKeyed(running.value.items))
    }

    ghost function Contents(): Table
      requires Valid()
      reads this
    {
      if jobs.None? then EMPTY else Abstract(jobs.value, running.value)
    }

    constructor ()
      ensures Valid() && Contents() == EMPTY
    {
      jobs, running := None, None;
    }

    /** commits tells whether Bolt manages to commit; a transaction that fails leaves nothing behind. */
    method Create(req: Request, now: int, commits: bool) returns (r: Result<Job, JobError>)
      requires Valid()
      modifies this
      ensures Valid()
      ensures commits ==> Contents() == Created(old(Contents()), req, now)
      ensures commits ==> r.Success? && Contents().jobs == old(Contents()).jobs[r.value.id := r.value]
      ensures commits ==> Contents().running == old(Contents()).running + {r.value.id}
      ensures commits ==> r == Success(Job(NextID(old(Contents())), req, now, 0, "Running"))
      ensures !commits ==> Contents() == old(Contents()) && r == Failure(NotCommitted)
    {
      hide IDToBytes, JobsByID, RunningIDs;
      var bucket := if jobs.Some? then jobs.value else EmptyBucket();
      var index := if running.Some? then running.value else EmptyBucket();
      ghost var before := Contents();
      EmptyAbstract();
      assert before == Abstract(bucket, index);

      bucket := bucket.NextSequence();
      var job := Job(bucket.sequence, req, now, 0, RUNNING);
      var key := IDToBytes(job.id);
      CreatedAbstract(bucket, index, job);
      index := index.Put(key, RUNNING).value;
      bucket := bucket.Put(key, job).value;
      if !commits {
        return Failure(NotCommitted);
      }
      jobs, running := Some(bucket), Some(index);
      r := Success(job);
    }

    method Get(id: uint64) returns (r: Result<Job, JobError>)
      requires Valid()
      ensures r == if id in Contents().jobs then Success(Contents().jobs[id]) else Failure(NoJobWithID)
    {
      if jobs.None? {
        return Failure(NoJobWithID);
      }
      var payload := jobs.value.Get(IDToBytes(id));
      if payload.None? {
        return Failure(NoJobWithID);
      }
      return Success(payload.value);
    }

    method Finish(id: uint64, status: string, now: int, commits: bool) returns (r: Result<(), JobError>)
      requires Valid()
      modifies this
      ensures Valid()
      ensures commits ==> Contents() == AfterFinish(old(Contents()), id, status, now)
      ensures !commits ==> Contents() == old(Contents())
      ensures r == match Finished(old(Contents()), id, status, now)
                   case Failure(e) => Failure(e)
                   case Success(_) => if commits then Success(()) else Failure(NotCommitted)
      ensures r == Failure(InvalidStatus(status)) <==> status != "Successful" && status != "Failed"
      ensures r.Success? ==> id in old(Contents()).jobs && old(Contents()).jobs[id].status == "Running"
      ensures r.Success? ==> Contents() == old(Contents()).(
        jobs := old(Contents()).jobs[id := old(Contents()).jobs[id].(endTime := now, status := status)],
        running := old(Contents()).running - {id})
      ensures r.Failure? ==> Contents() == old(Contents())
    {
      if !(status == SUCCESSFUL || status == FAILED) {
        return Failure(InvalidStatus(status));
      }
      var found := Get(id);
      if found.Failure? {
        return Failure(found.error);
      }
      var job := found.value;
      if job.status != RUNNING {
        return Failure(JobError.NotRunning(job.status));
      }
      var key := IDToBytes(id);
      assert job.id == id by { IDsApart(); }
      var index := running.value.Delete(key).value;
      job := job.(endTime := now, status := status);
      PutKeyed(jobs.value.items, id, job);
      PutJob(jobs.value.items, id, job);
      DropRunning(running.value.items, id);
      var bucket := jobs.value.Put(IDToBytes(job.id), job).value;
      if !commits {
        return Failure(NotCommitted);
      }
      jobs, running := Some(bucket), Some(index);
      r := Success(());
    }

    /**
     * Kills what the index lists. An indexed ID without a job is an error,
     * and then the whole transaction is rolled back.
     */
    method FailRunningJobs(now: int) returns (r: Result<(), JobError>)
      requires Valid()
      modifies this
      ensures Valid()
      ensures r.Success? <==> old(Contents()).running <= old(Contents()).jobs.Keys
      ensures r.Success? ==> Contents() == Killed(old(Contents()), now)
      ensures r.Success? ==> Contents().jobs.Keys == old(Contents()).jobs.Keys && Contents().running == {}
      ensures r.Success? ==> forall id :: id in old(Contents()).jobs ==>
        if id !in old(Contents()).running then Contents().jobs[id] == old(Contents()).jobs[id]
        else EndedAs(old(Contents()).jobs[id], Contents().jobs[id], "Killed", now)
      ensures r.Failure? ==> Contents() == old(Contents())
    {
      KilledExactly(Contents(), now);
      if running.None? || jobs.None? {
        return Success(());
      }
      var killed := KillIndexed(jobs.value, running.value, now);
      if killed.Failure? {
        return Failure(killed.error);
      }
      jobs, running := Some(killed.value.0), Some(killed.value.1);
      r := Success(());
    }

    /** Jobs that match, newest first, no more than the limit. */
    method Find(filter: JobFilter) returns (latest: seq<Job>)
      requires Valid()
      ensures IsLatest(Contents(), filter.limit, Matcher(filter), latest)
      ensures filter.filter.None? ==> IsLatest(Contents(), filter.limit, (job: Job) => true, latest)
      ensures filter.filter.Some? ==> IsLatest(Contents(), filter.limit, filter.filter.value, latest)
    {
      MatcherIs(filter);
      hide Ascending, Less, IDToBytes, FoundSoFar, IsLatest, Abstract, Matcher, JobsKeyed, RunningKeyed;
      latest := [];
      var matches := Matcher(filter);
      if jobs.None? {
        FindNothing(filter.limit, matches);
        SameAnswer(Contents(), filter, latest);
        return;
      }
      var bucket := jobs.value;
      FindStart(bucket.items, matches);
      var cur := new Cursor(bucket);
      var key, payload := cur.Last();
      while |latest| < filter.limit
        invariant jobs == Some(bucket)
        invariant cur.Valid() && cur.bucket == bucket && payload == cur.At().1 && cur.pos < |cur.keys|
        invariant filter.limit > 0 ==> |latest| <= filter.limit
        invariant filter.limit <= 0 ==> latest == []
        invariant FoundSoFar(bucket.items, cur.keys, cur.pos, matches, latest)
        decreases cur.pos + 1
      {
        PayloadAtKey(bucket, cur.keys, cur.pos);
        if payload.None? {
          break;
        }
        var job := payload.value;
        FindStep(bucket.items, cur.keys, cur.pos, matches, latest);
        if matches(job) {
          latest := latest + [job];
        }
        key, payload := cur.Prev();
      }
      FindEnd(bucket, running.value, cur.keys, cur.pos, filter.limit, matches, latest);
      SameAnswer(Contents(), filter, latest);
    }

    lemma StoredIDs()
      requires Valid()
      ensures forall id :: id in Contents().jobs ==> Contents().jobs[id].id == id
    {
      IDsApart();
    }

    /** The newest job of the user, found with a limit of one. */
    method FindLastJobIDForUser(user: Text) returns (r: Option<uint64>)
      requires Valid()
      ensures r.None? ==> forall id :: id in Contents().jobs ==> Contents().jobs[id].request.username != user
      ensures r.Some? ==> r.value in Contents().jobs && Contents().jobs[r.value].request.username == user
      ensures r.Some? ==>
        forall id :: id in Contents().jobs && Contents().jobs[id].request.username == user ==> id <= r.value
    {
      var found := Find(JobFilter(1, Some(IsUser(user))));
      StoredIDs();
      if |found| == 0 {
        return None;
      }
      return Some(found[0].id);
    }

    /** The lookup behind the job and logs commands: another user's job is not found. */
    method FindOwnJob(user: Text, id: uint64) returns (r: Option<Job>)
      requires Valid()
      ensures r.Some? <==> id in Contents().jobs && Contents().jobs[id].request.username == user
      ensures r.Some? ==> r.value == Contents().jobs[id]
    {
      var filter := JobFilter(1, Some(MultiMatch([IsUser(user), IsJobID(id)])));
      var found := Find(filter);
      ghost var matches := Matcher(filter);
      assert forall job: Job :: matches(job) <==> IsUser(user)(job) && IsJobID(id)(job) by {
        assert [IsUser(user), IsJobID(id)][0] == IsUser(user) && [IsUser(user), IsJobID(id)][1] == IsJobID(id);
      }
      StoredIDs();
      if |found| == 0 {
        return None;
      }
      return Some(found[0]);
    }

    /** What the jobs command lists: the user's newest jobs, of one status if one is given. */
    method ListJobs(user: Text, status: string, limit: int) returns (latest: seq<Job>)
      requires Valid()
      ensures IsLatest(Contents(), limit, ListFilter(user, status), latest)
      ensures forall job :: job in latest ==> job.request.username == user && (status == "" || job.status == status)
      ensures forall job, id ::
        id in Contents().jobs && Contents().jobs[id] == job && job !in latest
        && job.request.username == user && (status == "" || job.status == status) ==>
          |latest| >= limit && forall i :: 0 <= i < |latest| ==> latest[i].id > id
    {
      var matches := MultiMatch([IsUser(user), IsStatusOrEmpty(status)]);
      latest := Find(JobFilter(limit, Some(matches)));
      forall job: Job ensures matches(job) <==> ListFilter(user, status)(job) {
        var ms := [IsUser(user), IsStatusOrEmpty(status)];
        assert ms[0](job) == (job.request.username == user) && ms[1](job) == (status == "" || job.status == status);
      }
      SameMatches(Contents(), limit, matches, ListFilter(user, status), latest);
    }
  }

  function ListFilter(user: Text, status: string): Job -> bool {
    (job: Job) => job.request.username == user && (status == "" || job.status == status)
  }

  // ------------------------------------------------- the downward walk of Find

  ghost predicate IsPassed(items: map<Key, Entry<Job>>, keys: seq<Key>, pos: int, job: Job)
    requires JobsKeyed(items) && keys == Ascending(items.Keys)
  {
    exists k :: 0 <= k < |keys| && pos < k && items[keys[k]].value == job
  }

  /** Each is a matching job the cursor has passed. */
  ghost predicate AllPassed(
    items: map<Key, Entry<Job>>, keys: seq<Key>, pos: int, matches: Job -> bool, latest: seq<Job>)
    requires JobsKeyed(items) && keys == Ascending(items.Keys)
  {
    forall i :: 0 <= i < |latest| ==> matches(latest[i]) && IsPassed(items, keys, pos, latest[i])
  }

  ghost predicate Descending(latest: seq<Job>) {
    forall i, j :: 0 <= i < j < |latest| ==> latest[i].id > latest[j].id
  }

  /** No matching job the cursor has passed is missing. */
  ghost predicate NoneMissed(
    items: map<Key, Entry<Job>>, keys: seq<Key>, pos: int, matches: Job -> bool, latest: seq<Job>)
    requires JobsKeyed(items) && keys == Ascending(items.Keys)
  {
    forall k :: 0 <= k < |keys| && pos < k ==>
      keys[k] in items && (matches(items[keys[k]].value) ==> items[keys[k]].value in latest)
  }

  /** latest holds exactly the matching jobs among the keys the cursor has passed, newest first. */
  ghost predicate FoundSoFar(
    items: map<Key, Entry<Job>>, keys: seq<Key>, pos: int, matches: Job -> bool, latest: seq<Job>)
    requires JobsKeyed(items) && keys == Ascending(items.Keys)
  {
    && AllPassed(items, keys, pos, matches, latest) && Descending(latest)
    && NoneMissed(items, keys, pos, matches, latest)
  }

  lemma PassedIsNewer(items: map<Key, Entry<Job>>, keys: seq<Key>, pos: int, id: uint64, at: int, passed: Job)
    requires JobsKeyed(items) && keys == Ascending(items.Keys) && 0 <= at <= pos && at < |keys|
    requires keys[at] == IDToBytes(id) && IsPassed(items, keys, pos, passed)
    ensures passed.id > id && IsPassed(items, keys, pos - 1, passed)
  {
    hide Less, Ascending, IDToBytes;
    var k :| 0 <= k < |keys| && pos < k && items[keys[k]].value == passed;
    assert keys[k] == IDToBytes(passed.id);
    AscendingSorted(items.Keys);
    IDOrder(id, passed.id);
  }

  lemma FindNothing(limit: int, matches: Job -> bool)
    ensures IsLatest(EMPTY, limit, matches, [])
  {
  }

  lemma FindStart(items: map<Key, Entry<Job>>, matches: Job -> bool)
    requires JobsKeyed(items)
    ensures var keys := Ascending(items.Keys); FoundSoFar(items, keys, |keys| - 1, matches, [])
  {
  }

  /** No key of the jobs bucket has a nil value. */
  lemma PayloadAtKey(bucket: Bucket<Job>, keys: seq<Key>, pos: int)
    requires JobsKeyed(bucket.items) && keys == Ascending(bucket.items.Keys)
    ensures 0 <= pos < |keys| ==>
      keys[pos] in bucket.items && bucket.Get(keys[pos]) == Some(bucket.items[keys[pos]].value)
  {
  }

  lemma StepPassed(
    items: map<Key, Entry<Job>>, keys: seq<Key>, pos: int, matches: Job -> bool, latest: seq<Job>)
    requires JobsKeyed(items) && keys == Ascending(items.Keys) && 0 <= pos < |keys| && keys[pos] in items
    requires AllPassed(items, keys, pos, matches, latest) && Descending(latest)
    ensures var job := items[keys[pos]].value;
      var longer := if matches(job) then latest + [job] else latest;
      AllPassed(items, keys, pos - 1, matches, longer) && Descending(longer)
  {
    hide Ascending, Less, IDToBytes;
    var job := items[keys[pos]].value;
    var longer := if matches(job) then latest + [job] else latest;
    KeyOfJob(items, keys[pos]);
    forall i | 0 <= i < |longer|
      ensures matches(longer[i]) && IsPassed(items, keys, pos - 1, longer[i])
      ensures i < |latest| ==> longer[i] == latest[i] && longer[i].id > job.id
    {
      if i < |latest| {
        PassedIsNewer(items, keys, pos, job.id, pos, latest[i]);
      } else {
        assert longer[i] == job;
      }
    }
  }

  lemma KeyOfJob(items: map<Key, Entry<Job>>, k: Key)
    requires JobsKeyed(items) && k in items
    ensures k == IDToBytes(items[k].value.id)
  {
  }

  lemma StepMissesNone(
    items: map<Key, Entry<Job>>, keys: seq<Key>, pos: int, matches: Job -> bool, latest: seq<Job>)
    requires JobsKeyed(items) && keys == Ascending(items.Keys) && 0 <= pos < |keys| && keys[pos] in items
    requires NoneMissed(items, keys, pos, matches, latest)
    ensures var job := items[keys[pos]].value;
      NoneMissed(items, keys, pos - 1, matches, if matches(job) then latest + [job] else latest)
  {
    hide Ascending, Less, IDToBytes, JobsKeyed;
  }

  lemma FindStep(items: map<Key, Entry<Job>>, keys: seq<Key>, pos: int, matches: Job -> bool, latest: seq<Job>)
    requires JobsKeyed(items) && keys == Ascending(items.Keys) && 0 <= pos < |keys|
    requires FoundSoFar(items, keys, pos, matches, latest)
    ensures keys[pos] in items
    ensures var job := items[keys[pos]].value;
      FoundSoFar(items, keys, pos - 1, matches, if matches(job) then latest + [job] else latest)
  {
    assert keys[pos] in keys;
    hide Ascending, AllPassed, Descending, NoneMissed;
    StepPassed(items, keys, pos, matches, latest);
    StepMissesNone(items, keys, pos, matches, latest);
  }

  lemma {:induction false} FindEnd(bucket: Bucket<Job>, index: Bucket<string>, keys: seq<Key>, pos: int, limit: int,
                matches: Job -> bool, latest: seq<Job>)
    requires JobsKeyed(bucket.items) && keys == Ascending(bucket.items.Keys) && -1 <= pos < |keys|
    requires FoundSoFar(bucket.items, keys, pos, matches, latest)
    requires |latest| >= limit || pos == -1
    requires (limit > 0 ==> |latest| <= limit) && (limit <= 0 ==> latest == [])
    ensures IsLatest(Abstract(bucket, index), limit, matches, latest)
  {
    var items, t := bucket.items, Abstract(bucket, index);
    forall i | 0 <= i < |latest| ensures latest[i].id in t.jobs && t.jobs[latest[i].id] == latest[i] {
      assert IsPassed(items, keys, pos, latest[i]);
      var k :| 0 <= k < |keys| && pos < k && items[keys[k]].value == latest[i];
      assert IDToBytes(latest[i].id) == keys[k];
    }
    forall id | id in t.jobs && matches(t.jobs[id]) && t.jobs[id] !in latest
      ensures |latest| >= limit && forall i :: 0 <= i < |latest| ==> latest[i].id > id
    {
      FindRest(items, keys, pos, matches, latest, id);
    }
  }

  /** A matching job that was not found has a smaller ID than all that were. */
  lemma {:induction false} FindRest(
    items: map<Key, Entry<Job>>, keys: seq<Key>, pos: int, matches: Job -> bool, latest: seq<Job>, id: uint64)
    requires JobsKeyed(items) && keys == Ascending(items.Keys) && FoundSoFar(items, keys, pos, matches, latest)
    requires IDToBytes(id) in items && matches(items[IDToBytes(id)].value) && items[IDToBytes(id)].value !in latest
    ensures 0 <= pos && forall i :: 0 <= i < |latest| ==> latest[i].id > id
  {
    assert IDToBytes(id) in keys;
    var k :| 0 <= k < |keys| && keys[k] == IDToBytes(id);
    forall i | 0 <= i < |latest| ensures latest[i].id > id {
      PassedIsNewer(items, keys, pos, id, k, latest[i]);
    }
  }
}
