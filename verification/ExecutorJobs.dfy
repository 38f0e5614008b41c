/** What the job database says about the tasks, over every run of the executor. */
module ExecutorJobs {
  import Auth
  import Commands
  import opened Executor
  import opened ExecutorInvariant
  import opened ExecutorRuns
  import opened JobTable
  import opened Keys
  import opened Meeseeks
  import opened Wrappers

  // ------------------------------------------------------- the running index

  /** Tasks whose job was created and recorded, and that have not called Fail or Succeed. */
  function InFlight(s: State): set<nat> {
    set t | t in s.tasks && s.tasks[t].phase.IsOpen() && s.tasks[t].jobID != 0
  }

  function JobsOf(s: State, ts: set<nat>): set<uint64> {
    set t | t in ts && t in s.tasks :: s.tasks[t].jobID
  }

  lemma {:induction false} IndexOf(s: State)
    requires Inv(s)
    ensures s.table.running == JobsOf(s, InFlight(s)) + s.lost
    ensures JobsOf(s, InFlight(s)) !! s.lost
  {
    hide Tickets, Memory, AllSound, QueueInOrder, Counters, Contexts;
    var flying := JobsOf(s, InFlight(s));
    forall id | id in flying ensures id in s.table.running && id !in s.lost {
      var t :| t in InFlight(s) && s.tasks[t].jobID == id;
      assert JobRight(s, t) && IndexedRight(s, id);
    }
    forall id | id in s.table.running && id !in s.lost ensures id in flying {
      assert OwnerRight(s, id) && IndexedRight(s, id);
      assert s.owner[id] in InFlight(s);
    }
  }

  /** The index lists each job in flight, and the jobs that no task will finish; never one as both. */
  lemma RunningIndexIsInFlight(es: seq<Event>, s: State)
    requires Reaches(es, s)
    ensures s.table.running == JobsOf(s, InFlight(s)) + s.lost && JobsOf(s, InFlight(s)) !! s.lost
    ensures forall t, u :: t in InFlight(s) && u in InFlight(s) && t != u ==> s.tasks[t].jobID != s.tasks[u].jobID
  {
    ReachedKeeps(es, s);
    IndexOf(s);
    hide Tickets, Memory, AllSound, QueueInOrder, Counters, Contexts, RunningIndex;
    forall t, u | t in InFlight(s) && u in InFlight(s) && t != u ensures s.tasks[t].jobID != s.tasks[u].jobID {
      assert JobRight(s, t) && JobRight(s, u);
    }
  }

  /** Every call of Fail and Succeed reaches the database. */
  ghost predicate NoDatabaseError(es: seq<Event>) {
    forall e :: e in es && e.Finish? ==> e.commits
  }

  lemma {:induction false} NothingLost(es: seq<Event>, s: State)
    requires Reaches(es, s) && NoDatabaseError(es) && s.up
    ensures s.lost == {}
    decreases |es|
  {
    hide Reaches;
    if es == [] {
      NoStep(s);
    } else {
      var front, before, e := LastStep(es, s);
      assert forall x :: x in front ==> x in es;
      assert e in es;
      hide NoDatabaseError, Enabled;
      LostStep(before, e);
      if before.up {
        NothingLost(front, before);
      }
    }
  }

  lemma LostInLoop(s: State, e: Event)
    requires Enabled(s, e)
    ensures e.Resolve? ==> AfterResolve(s, e.commits).lost == s.lost && AfterResolve(s, e.commits).up == s.up
    ensures e.Authorize? ==> AfterAuthorize(s).lost == s.lost && AfterAuthorize(s).up == s.up
    ensures e.Create? ==> AfterCreate(s, e.now, e.commits).lost == s.lost && AfterCreate(s, e.now, e.commits).up == s.up
  {
    hide Commands.Found, Commands.AliasIn, Auth.Refusal, JobTable.Created;
  }

  lemma LostStep(s: State, e: Event)
    requires Enabled(s, e) && (e.Finish? ==> e.commits) && Step(s, e).up
    ensures Step(s, e).lost == {} || (s.up && Step(s, e).lost == s.lost)
  {
    LostInLoop(s, e);
    hide AfterResolve, AfterAuthorize, AfterCreate, Members, AfterFinish, Killed, CrashedTasks;
  }

  /** Without database errors, and whatever was killed before, a running server's index is exactly what is in flight. */
  lemma RunningIndexExact(es: seq<Event>, s: State)
    requires Reaches(es, s) && NoDatabaseError(es) && s.up
    ensures s.table.running == JobsOf(s, InFlight(s))
  {
    RunningIndexIsInFlight(es, s);
    NothingLost(es, s);
  }

  /** A crash loses the tasks in the pipeline and leaves the index to list the jobs they will not finish. */
  lemma {:induction false} CrashLosesInFlight(es: seq<Event>, s: State, down: State)
    requires Reaches(es, s) && Reaches(es + [Crash], down)
    ensures InFlight(down) == {} && down.table == s.table && s.table.running == down.lost
    ensures forall t :: t in InFlight(s) ==>
      t in down.tasks && down.tasks[t].phase == Lost && s.tasks[t].jobID in down.lost
  {
    ReachedKeeps(es, s);
    IndexOf(s);
    Extended(es, s, Crash, down);
    hide Inv, Reaches, JobsOf, Enabled;
    CrashStep(s);
    LostTasks(s);
    hide Step, InFlight, AfterCrash;
    forall t | t in InFlight(s) ensures s.tasks[t].jobID in s.table.running {
      assert s.tasks[t].jobID in JobsOf(s, InFlight(s)) by { JobOf(s, t); }
    }
  }

  lemma JobOf(s: State, t: nat)
    requires t in InFlight(s)
    ensures s.tasks[t].jobID in JobsOf(s, InFlight(s))
  {
  }

  lemma LostTasks(s: State)
    ensures var down := AfterCrash(s);
      && InFlight(down) == {} && down.table == s.table && down.lost == s.table.running
      && forall t :: t in InFlight(s) ==> t in s.tasks && t in down.tasks && down.tasks[t].phase == Lost
  {
    hide Members;
  }

  /** A restart empties the index: every job listed as running is killed and every other job is left as it was. */
  lemma RestartKills(es: seq<Event>, down: State, now: int, again: State)
    requires Reaches(es, down) && Reaches(es + [Restart(now)], again)
    ensures again.up && again.table.running == {} && again.table.jobs.Keys == down.table.jobs.Keys
    ensures forall id :: id in down.table.jobs ==>
      var was, later := down.table.jobs[id], again.table.jobs[id];
      if was.status != "Running" then later == was
      else
        && later.status == "Killed" && later.endTime == now
        && later.id == was.id && later.request == was.request && later.startTime == was.startTime
  {
    ReachedKeeps(es, down);
    ConsistentTable(down);
    Extended(es, down, Restart(now), again);
    hide Inv, Reaches;
    RestartStep(down, now);
    hide Step, Enabled;
    KillKeeps(down.table, now);
    KilledKeys(down.table, now);
    hide Killed, Table.Consistent;
  }

  lemma KilledKeys(t: Table, now: int)
    ensures Killed(t, now).jobs.Keys == t.jobs.Keys
  {
  }

  lemma RestartStep(s: State, now: int)
    requires Enabled(s, Restart(now))
    ensures var u := Step(s, Restart(now)); u.up && u.table == Killed(s.table, now)
  {
  }

  // ------------------------------------------------------ what a job records

  /** The status stored for a task that has called Fail or Succeed is the one its answer announced. */
  ghost predicate Recorded(s: State, t: nat) {
    t in s.tasks && 11 <= s.tasks[t].phase.Rank() <= 13 && s.tasks[t].jobID != 0 ==>
      StoredStatus(s.table, s.tasks[t].jobID, if s.tasks[t].failed then "Failed" else "Successful")
  }

  ghost predicate StoredStatus(table: Table, id: uint64, status: string) {
    id in table.jobs && table.jobs[id].status == status
  }

  lemma FinishStores(s: State, t: nat, now: int, status: string)
    requires Inv(s) && TaskIn(s, t, Answered) && s.tasks[t].jobID != 0 && IsEndStatus(status)
    ensures StoredStatus(AfterFinish(s.table, s.tasks[t].jobID, status, now), s.tasks[t].jobID, status)
  {
    hide Tickets, Memory, AllSound, QueueInOrder, Counters, Contexts;
    assert JobRight(s, t) && IndexedRight(s, s.tasks[t].jobID);
    FinishKeeps(s.table, s.tasks[t].jobID, status, now);
  }

  lemma RecordedFinish(s: State, u: State, t: nat, now: int)
    requires Inv(s) && Enabled(s, Finish(t, now, true)) && u == AfterFinishCall(s, t, now, true)
    ensures Recorded(u, t)
  {
    hide Inv, AfterFinish, StoredStatus;
    if s.tasks[t].jobID != 0 {
      FinishStores(s, t, now, if s.tasks[t].failed then FAILED else SUCCESSFUL);
    }
  }

  lemma RecordedStays(s: State, u: State, t: nat)
    requires Grows(s, u) && t in s.tasks && Recorded(s, t) && s.tasks[t].phase.Rank() >= 11
    ensures Recorded(u, t)
  {
    assert Forward(s.tasks[t], u.tasks[t]);
  }

  lemma FinishStep(s: State, e: Event)
    requires Enabled(s, e) && e.Finish?
    ensures Step(s, e) == AfterFinishCall(s, e.t, e.now, e.commits)
  {
    hide AfterFinish;
  }

  lemma {:induction false} RecordedStep(s: State, e: Event, u: State, t: nat)
    requires Inv(s) && Enabled(s, e) && u == Step(s, e) && (e.Finish? ==> e.commits) && Recorded(s, t)
    ensures Recorded(u, t)
  {
    hide Recorded, Step, Enabled, Inv, Forward;
    if t !in s.tasks || s.tasks[t].phase.Rank() < 11 {
      if t in u.tasks && 11 <= u.tasks[t].phase.Rank() <= 13 {
        OnlyFinish(s, e, u, t);
        FinishStep(s, e);
        RecordedFinish(s, u, t, e.now);
      } else {
        NotFinished(u, t);
      }
    } else {
      StepGrows(s, e);
      RecordedStays(s, u, t);
    }
  }

  lemma NotFinished(u: State, t: nat)
    requires !(t in u.tasks && 11 <= u.tasks[t].phase.Rank() <= 13)
    ensures Recorded(u, t)
  {
  }

  /** Only the call of Fail or Succeed takes a task past it. */
  lemma OnlyFinish(s: State, e: Event, u: State, t: nat)
    requires Inv(s) && Enabled(s, e) && u == Step(s, e) && t in u.tasks
    requires (t !in s.tasks || s.tasks[t].phase.Rank() < 11) && 11 <= u.tasks[t].phase.Rank() <= 13
    ensures e.Finish? && e.t == t
  {
    hide Tickets, QueueInOrder, Memory, AllSound, Counters, Owners, RunningIndex, Contexts, MovesOnly;
    NextIsNew(s);
    if e.Dispatch? {
      HeadIsQueued(s);
    }
    OneMoves(s, e);
    if e.Crash? {
      hide Inv, Enabled, Step;
      CrashStep(s);
      CrashFinishesNone(s, t);
    } else {
      MoverFinishes(s, e, u, t);
    }
  }

  lemma MoverFinishes(s: State, e: Event, u: State, t: nat)
    requires Enabled(s, e) && MovesOnly(s, e) && u == Step(s, e) && t in u.tasks && !e.Crash?
    requires (t !in s.tasks || s.tasks[t].phase.Rank() < 11) && 11 <= u.tasks[t].phase.Rank() <= 13
    ensures e.Finish? && e.t == t
  {
    hide Step, Enabled, Forward, Remembers;
    assert Mover(s, e) == Some(t);
  }

  lemma CrashFinishesNone(s: State, t: nat)
    requires t in s.tasks && s.tasks[t].phase.Rank() < 11
    ensures AfterCrash(s).tasks[t].phase.Rank() > 13
  {
    hide Members;
  }

  /** Without database errors the stored status of every job whose task got through agrees with the answer sent. */
  lemma {:induction false} StatusMatchesAnswer(es: seq<Event>, s: State, t: nat)
    requires Reaches(es, s) && NoDatabaseError(es)
    ensures Recorded(s, t)
    decreases |es|
  {
    hide Reaches, Recorded;
    if es == [] {
      NoStep(s);
      NotFinished(s, t);
    } else {
      var front, before, e := LastStep(es, s);
      assert forall x :: x in front ==> x in es;
      assert e in es;
      StatusMatchesAnswer(front, before, t);
      ReachedKeeps(front, before);
      RecordedStep(before, e, s, t);
    }
  }
}
