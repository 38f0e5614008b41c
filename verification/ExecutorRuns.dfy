/** What holds over every run of the executor, from an empty installation through crashes and restarts. */
module ExecutorRuns {
  import Auth
  import Commands
  import opened Bytes
  import opened Executor
  import opened ExecutorInvariant
  import opened JobTable
  import opened Keys
  import opened Meeseeks
  import opened Wrappers

  /** The events es can happen in this order, and lead to s. */
  ghost predicate Reaches(es: seq<Event>, s: State) {
    Run(INITIAL, es) == Some(s)
  }

  // ---------------------------------------------------------------- induction

  lemma InitialInv()
    ensures Inv(INITIAL)
  {
    assert forall group :: Members(INITIAL.tasks, group) == {};
  }

  lemma LastStep(es: seq<Event>, s: State) returns (front: seq<Event>, before: State, e: Event)
    requires Reaches(es, s) && es != []
    ensures es == front + [e] && Reaches(front, before) && Enabled(before, e) && s == Step(before, e)
  {
    hide Enabled, Step;
    front, e := es[..|es| - 1], es[|es| - 1];
    before := Run(INITIAL, front).value;
  }

  lemma OneMore(es: seq<Event>, s: State, e: Event)
    requires Reaches(es, s) && Enabled(s, e)
    ensures Reaches(es + [e], Step(s, e))
  {
    hide Enabled, Step;
    assert (es + [e])[..|es|] == es;
  }

  lemma Extended(es: seq<Event>, s: State, e: Event, u: State)
    requires Reaches(es, s) && Reaches(es + [e], u)
    ensures Enabled(s, e) && u == Step(s, e)
  {
    hide Enabled, Step;
    assert (es + [e])[..|es|] == es;
  }

  lemma {:induction false} ReachedKeeps(es: seq<Event>, s: State)
    requires Reaches(es, s)
    ensures Inv(s)
    decreases |es|
  {
    hide Inv, Reaches;
    if es == [] {
      assert s == INITIAL by { NoStep(s); }
      InitialInv();
    } else {
      var front, before, e := LastStep(es, s);
      ReachedKeeps(front, before);
      StepKeeps(before, e);
    }
  }

  lemma ReachedParts(es: seq<Event>, s: State)
    requires Reaches(es, s)
    ensures Tickets(s) && Memory(s) && AllSound(s) && QueueInOrder(s) && Counters(s)
    ensures Owners(s) && RunningIndex(s) && Contexts(s)
  {
    hide Reaches, Tickets, Memory, AllSound, QueueInOrder, Counters, Owners, RunningIndex, Contexts;
    ReachedKeeps(es, s);
  }

  lemma ReachedSound(es: seq<Event>, s: State, t: nat)
    requires Reaches(es, s) && t in s.tasks
    ensures Sound(s.tasks[t])
  {
    hide *;
    ReachedParts(es, s);
    SoundAt(s, t);
  }

  lemma NoStep(s: State)
    requires Reaches([], s)
    ensures s == INITIAL
  {
  }

  // ------------------------------------------------------- nothing is undone

  /** A task only moves forward, keeps what it replied, and never changes again once it has left the pipeline. */
  ghost predicate Forward(was: Task, now: Task) {
    && now.original == was.original
    && was.replies <= now.replies
    && was.phase.Rank() <= now.phase.Rank()
    && (!was.phase.InPipeline() ==> now == was)
    && (was.phase.Rank() >= 9 ==> now.failed == was.failed)
    && (was.phase.Rank() >= 3 ==> now.jobID == was.jobID && now.cmd == was.cmd && now.request == was.request)
  }

  ghost predicate Grows(s: State, u: State) {
    s.table.KeepsEnded(u.table) && AllForward(s, u)
  }

  /** The events that touch the table, and what they make of it. */
  function TableAfter(s: State, e: Event): Table
    requires Enabled(s, e)
  {
    match e
    case Create(now, commits) =>
      var task := s.tasks[s.current.value];
      if task.cmd.value.record && commits then JobTable.Created(s.table, task.request, now) else s.table
    case Finish(t, now, commits) =>
      var task := s.tasks[t];
      if commits then AfterFinish(s.table, task.jobID, if task.failed then FAILED else SUCCESSFUL, now) else s.table
    case Restart(now) => Killed(s.table, now)
    case _ => s.table
  }

  lemma TableInLoop(s: State, e: Event)
    requires Enabled(s, e)
    ensures e.Resolve? ==> AfterResolve(s, e.commits).table == s.table
    ensures e.Authorize? ==> AfterAuthorize(s).table == s.table
    ensures e.Create? ==> AfterCreate(s, e.now, e.commits).table == TableAfter(s, e)
  {
    hide Commands.Found, Commands.AliasIn, Auth.Refusal, JobTable.Created, Sight;
  }

  lemma TableStep(s: State, e: Event)
    requires Enabled(s, e)
    ensures Step(s, e).table == TableAfter(s, e)
  {
    TableInLoop(s, e);
    hide AfterResolve, AfterAuthorize, AfterCreate, Members, AfterFinish, Killed, CrashedTasks, JobTable.Created;
  }

  lemma TableGrows(s: State, e: Event)
    requires Inv(s) && Enabled(s, e)
    ensures s.table.KeepsEnded(Step(s, e).table)
  {
    ConsistentTable(s);
    TableStep(s, e);
    TableSame(s.table);
    hide Inv, Step, Table.Consistent, Table.KeepsEnded, JobTable.Created, AfterFinish, Killed;
    match e
    case Create(now, commits) =>
      if s.tasks[s.current.value].cmd.value.record && commits {
        CreateKeeps(s.table, s.tasks[s.current.value].request, now);
      }
    case Finish(t, now, commits) =>
      FinishKeeps(s.table, s.tasks[t].jobID, if s.tasks[t].failed then FAILED else SUCCESSFUL, now);
    case Restart(now) => KillKeeps(s.table, now);
    case _ =>
  }

  lemma ConsistentTable(s: State)
    requires Inv(s)
    ensures s.table.Consistent()
  {
    hide Table.Consistent;
  }

  lemma TableSame(t: Table)
    ensures t.KeepsEnded(t)
  {
  }

  /** What the program cannot prevent: a crash or a command to cancel while it is up, a restart while it is down. */
  lemma AlwaysPossible(s: State, caller: Text, id: uint64, now: int)
    ensures Enabled(s, CancelJob(caller, id)) <==> s.up
    ensures Enabled(s, KillJob(id)) <==> s.up
    ensures Enabled(s, Crash) <==> s.up
    ensures Enabled(s, Restart(now)) <==> !s.up
    ensures Enabled(s, CloseAfterWait) <==> s.up && !s.closed && s.wg == 0
  {
  }

  /** The task that an event moves, if it moves exactly one. */
  function Mover(s: State, e: Event): Option<nat>
    requires Enabled(s, e)
  {
    match e
    case Receive(_) => Some(s.received)
    case Resolve(_) => s.current case Authorize => s.current case Create(_, _) => s.current
    case Count => s.current case Send => s.current
    case Dispatch => Some(s.queue[0])
    case Greet(t) => Some(t) case Activate(t) => Some(t) case Execute(t, _) => Some(t)
    case Answer(t) => Some(t) case Finish(t, _, _) => Some(t) case Done(t) => Some(t) case Release(t) => Some(t)
    case _ => None
  }

  /** The call of Fail or Succeed is not skipped. */
  predicate PassesFinish(was: Task, now: Task, e: Event) {
    was.phase.Rank() < 11 <= now.phase.Rank() <= 13 ==> e.Finish? && was.phase == Answered
  }

  predicate IsFresh(task: Task) {
    task.phase == Received && task.resolvedIn.None? && task.checkedIn.None?
  }

  /** A task's resolution and its check are recorded at its own Resolve and Authorize, as of that moment. */
  predicate Remembers(s: State, e: Event, t: nat, now: Task)
    requires t in s.tasks
  {
    var was := s.tasks[t];
    && (now.resolvedIn == was.resolvedIn
        || (e.Resolve? && s.current == Some(t) && was.phase == Received
            && now.resolvedIn == Some(Sight(s.world, e.commits))))
    && (now.checkedIn == was.checkedIn
        || (e.Authorize? && s.current == Some(t) && was.phase == Resolved && now.checkedIn == Some(s.world)))
  }

  ghost predicate MovesOnly(s: State, e: Event)
    requires Enabled(s, e)
  {
    var u, mover := Step(s, e), Mover(s, e);
    && (mover.Some? ==> OneMoved(s, u, mover.value))
    && (mover.Some? && mover.value in s.tasks ==> Forward(s.tasks[mover.value], u.tasks[mover.value]))
    && (mover.Some? && mover.value in s.tasks ==> PassesFinish(s.tasks[mover.value], u.tasks[mover.value], e))
    && (mover.Some? && mover.value in s.tasks ==> Remembers(s, e, mover.value, u.tasks[mover.value]))
    && (mover.Some? && mover.value !in s.tasks ==> IsFresh(u.tasks[mover.value]))
    && (mover.None? && !e.Crash? ==> u.tasks == s.tasks)
  }

  ghost predicate Advances(s: State, e: Event, u: State, t: nat) {
    && OneMoved(s, u, t) && t in s.tasks && Forward(s.tasks[t], u.tasks[t])
    && !(11 <= u.tasks[t].phase.Rank() <= 13)
    && Remembers(s, e, t, u.tasks[t])
  }

  lemma ResolveAdvances(s: State, commits: bool)
    requires Enabled(s, Resolve(commits))
    ensures Advances(s, Resolve(commits), AfterResolve(s, commits), s.current.value)
  {
    hide Commands.Found, Commands.AliasIn, Sight;
  }

  lemma AuthorizeAdvances(s: State)
    requires Enabled(s, Authorize)
    ensures Advances(s, Authorize, AfterAuthorize(s), s.current.value)
  {
    hide Auth.Refusal;
  }

  lemma CreateAdvances(s: State, now: int, commits: bool)
    requires Enabled(s, Create(now, commits))
    ensures Advances(s, Create(now, commits), AfterCreate(s, now, commits), s.current.value)
  {
    hide JobTable.Created, NextID;
  }

  lemma LoopMoves(s: State, e: Event)
    requires Enabled(s, e) && (e.Resolve? || e.Authorize? || e.Create?)
    ensures MovesOnly(s, e)
  {
    hide AfterResolve, AfterAuthorize, AfterCreate, OneMoved, Forward, Remembers;
    match e
    case Resolve(commits) => ResolveAdvances(s, commits);
    case Authorize => AuthorizeAdvances(s);
    case Create(now, commits) => CreateAdvances(s, now, commits);
  }

  lemma QueueMoves(s: State, e: Event)
    requires Enabled(s, e) && (e.Count? || e.Send?)
    ensures MovesOnly(s, e)
  {
  }

  lemma EndsOfQueue(s: State, e: Event)
    requires Enabled(s, e) && (e.Receive? || e.Dispatch?)
    requires (e.Dispatch? ==> TaskIn(s, s.queue[0], Queued)) && (e.Receive? ==> s.received !in s.tasks)
    ensures MovesOnly(s, e)
  {
  }

  lemma GreetMoves(s: State, t: nat)
    requires Enabled(s, Greet(t))
    ensures MovesOnly(s, Greet(t))
  {
  }

  lemma AnswerMoves(s: State, t: nat)
    requires Enabled(s, Answer(t))
    ensures MovesOnly(s, Answer(t))
  {
  }

  lemma ActivateMoves(s: State, t: nat)
    requires Enabled(s, Activate(t))
    ensures MovesOnly(s, Activate(t))
  {
    hide Active.Add;
  }

  lemma ExecuteMoves(s: State, t: nat, failed: bool)
    requires Enabled(s, Execute(t, failed))
    ensures MovesOnly(s, Execute(t, failed))
  {
  }

  lemma FinishMoves(s: State, t: nat, now: int, commits: bool)
    requires Enabled(s, Event.Finish(t, now, commits))
    ensures MovesOnly(s, Event.Finish(t, now, commits))
  {
    hide AfterFinish;
  }

  lemma DoneMoves(s: State, t: nat)
    requires Enabled(s, Done(t))
    ensures MovesOnly(s, Done(t))
  {
  }

  lemma ReleaseMoves(s: State, t: nat)
    requires Enabled(s, Release(t))
    ensures MovesOnly(s, Release(t))
  {
    hide Active.Cancel;
  }

  lemma {:induction false} OneMoves(s: State, e: Event)
    requires Enabled(s, e) && (e.Dispatch? ==> TaskIn(s, s.queue[0], Queued)) && (e.Receive? ==> s.received !in s.tasks)
    ensures MovesOnly(s, e)
  {
    match e
    case Resolve(_) => LoopMoves(s, e);
    case Authorize => LoopMoves(s, e);
    case Create(_, _) => LoopMoves(s, e);
    case Count => QueueMoves(s, e);
    case Send => QueueMoves(s, e);
    case Receive(_) => EndsOfQueue(s, e);
    case Dispatch => EndsOfQueue(s, e);
    case Greet(t) => GreetMoves(s, t);
    case Activate(t) => ActivateMoves(s, t);
    case Execute(t, failed) => ExecuteMoves(s, t, failed);
    case Answer(t) => AnswerMoves(s, t);
    case Finish(t, now, commits) => FinishMoves(s, t, now, commits);
    case Done(t) => DoneMoves(s, t);
    case Release(t) => ReleaseMoves(s, t);
    case _ =>
      hide Members, Killed, CrashedTasks;
  }

  lemma ForwardCrash(s: State)
    ensures AllForward(s, AfterCrash(s))
  {
    hide Members;
  }

  ghost predicate AllForward(s: State, u: State) {
    forall t {:trigger u.tasks[t]} {:trigger s.tasks[t]} ::
      t in s.tasks ==> t in u.tasks && Forward(s.tasks[t], u.tasks[t])
  }

  lemma OthersForward(s: State, u: State, t: nat)
    requires OneMoved(s, u, t) && (t in s.tasks ==> Forward(s.tasks[t], u.tasks[t]))
    ensures AllForward(s, u)
  {
    forall x | x in s.tasks ensures Forward(s.tasks[x], u.tasks[x]) {
      if x != t {
        assert u.tasks[x] == s.tasks[x];
      }
    }
  }

  lemma {:induction false} TasksGrow(s: State, e: Event)
    requires Tickets(s) && QueueInOrder(s) && Enabled(s, e)
    ensures AllForward(s, Step(s, e))
  {
    hide Tickets, QueueInOrder, Members, AllForward, OneMoved, Forward, Remembers;
    NextIsNew(s);
    if e.Dispatch? {
      HeadIsQueued(s);
    }
    OneMoves(s, e);
    hide Enabled, Step, Mover;
    if e.Crash? {
      ForwardCrash(s);
      assert Step(s, e) == AfterCrash(s) by { CrashStep(s); }
    } else if Mover(s, e).Some? {
      OthersForward(s, Step(s, e), Mover(s, e).value);
    } else {
      ForwardSame(s, Step(s, e));
    }
  }

  lemma CrashStep(s: State)
    requires Enabled(s, Crash)
    ensures Step(s, Crash) == AfterCrash(s)
  {
  }

  lemma {:induction false} StepGrows(s: State, e: Event)
    requires Inv(s) && Enabled(s, e)
    ensures Grows(s, Step(s, e))
  {
    hide Enabled, Step, Table.KeepsEnded, Forward;
    hide Tickets, QueueInOrder, Memory, Counters, AllSound, Owners, RunningIndex, Contexts;
    TableGrows(s, e);
    TasksGrow(s, e);
  }

  /**
   * However a run goes on, crashes and restarts included, a job that has ended keeps its
   * status and times, replies are not taken back, and requests that left do not return.
   */
  lemma {:induction false} NothingUndone(es: seq<Event>, more: seq<Event>, s: State, u: State)
    requires Reaches(es, s) && Reaches(es + more, u)
    ensures Grows(s, u)
    decreases |more|
  {
    hide Reaches, Forward;
    if more == [] {
      assert es + more == es;
      assert u == s by { SameRun(es, s, u); }
      ForwardSame(s, u);
      TableSame(s.table);
    } else {
      var front, before, e := LastStep(es + more, u);
      assert front == (es + more)[..|es + more| - 1] == es + more[..|more| - 1];
      NothingUndone(es, more[..|more| - 1], s, before);
      ReachedKeeps(front, before);
      StepGrows(before, e);
      forall t | t in s.tasks ensures t in u.tasks && Forward(s.tasks[t], u.tasks[t]) {
        ForwardTwice(s.tasks[t], before.tasks[t], u.tasks[t]);
      }
    }
  }

  lemma SameRun(es: seq<Event>, s: State, u: State)
    requires Reaches(es, s) && Reaches(es, u)
    ensures s == u
  {
  }

  lemma ForwardSame(s: State, u: State)
    requires u.tasks == s.tasks
    ensures AllForward(s, u)
  {
  }

  lemma ForwardTwice(a: Task, b: Task, c: Task)
    requires Forward(a, b) && Forward(b, c)
    ensures Forward(a, c)
  {
  }
}
