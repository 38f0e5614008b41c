/** What every step of the executor keeps. */
module ExecutorInvariant {
  import Auth
  import Commands
  import opened Executor
  import opened JobTable
  import opened Keys
  import opened Meeseeks
  import opened Wrappers

  // --------------------------------------------------------------- the parts

  /** Tasks are numbered in order of arrival, and the Run loop works on the last one only. */
  ghost predicate Tickets(s: State) {
    && (forall t: nat :: t in s.tasks <==> t < s.received)
    && (s.current.Some? ==> s.current.value in s.tasks && s.current.value == s.received - 1)
    && (s.current.Some? ==> s.tasks[s.current.value].phase.InRunLoop())
    && (forall t :: t in s.tasks && s.tasks[t].phase.InRunLoop() ==> s.current == Some(t))
  }

  /** Nothing of a process outlives it. */
  ghost predicate Memory(s: State) {
    !s.up ==>
      && s.current.None? && s.queue == [] && s.active.ctx == map[] && s.lost == s.table.running
      && forall t :: t in s.tasks ==> !s.tasks[t].phase.InPipeline()
  }

  /** Replies that end a conversation. */
  function FinalReplies(replies: seq<Reply>): nat {
    if replies == [] then 0 else
      FinalReplies(replies[..|replies| - 1]) + if replies[|replies| - 1] == Handshake then 0 else 1
  }

  function ExpectedReplies(task: Task): seq<Reply>
    requires task.phase.Rank() >= 7 && task.phase.Rank() <= 13 ==> task.cmd.Some?
  {
    var r := task.phase.Rank();
    if r <= 6 then []
    else if r <= 9 then Greeting(task.cmd.value)
    else if r <= 13 then Greeting(task.cmd.value) + [FinalReply(task.failed)]
    else match task.phase
      case Unknown => [UnknownCommand]
      case Rejected => [Unauthorized]
      case _ => [Failed]
  }

  /** The request and command are those Find resolved in world. */
  ghost predicate ResolvedBy(original: Request, request: Request, cmd: Option<Command>, world: World) {
    Commands.Found(world.commands, Commands.AliasIn(world.aliases, original), original) == (request, cmd)
  }

  ghost predicate RefusedIn(task: Task, world: World)
    requires task.cmd.Some?
  {
    Auth.Refusal(world.groups, task.request, task.cmd.value).Some?
  }

  ghost predicate Sound(task: Task) {
    var r := task.phase.Rank();
    && (task.phase != Lost && r != 0 ==>
          && (task.cmd.Some? <==> task.phase != Unknown) && task.resolvedIn.Some?
          && ResolvedBy(task.original, task.request, task.cmd, task.resolvedIn.value))
    && (2 <= r <= 13 || task.phase == NotCreated || task.phase == Rejected ==>
          task.checkedIn.Some? && (RefusedIn(task, task.checkedIn.value) <==> task.phase == Rejected))
    && (r <= 2 || 20 <= r <= 22 ==> task.jobID == 0)
    && (3 <= r <= 13 ==> (task.jobID != 0 <==> task.cmd.value.record))
    && (if task.phase == Lost then FinalReplies(task.replies) <= 1 else task.replies == ExpectedReplies(task))
  }

  ghost predicate AllSound(s: State) {
    forall t :: t in s.tasks ==> Sound(s.tasks[t])
  }

  /** The channel holds exactly the queued tasks, in order of arrival. */
  ghost predicate QueueInOrder(s: State) {
    && |s.queue| <= TASKS_CAPACITY
    && (forall i :: 0 <= i < |s.queue| ==> TaskIn(s, s.queue[i], Queued))
    && (forall i, j :: 0 <= i < j < |s.queue| ==> s.queue[i] < s.queue[j])
    && (forall t :: TaskIn(s, t, Queued) ==> t in s.queue)
  }

  ghost predicate Counters(s: State) {
    && s.wg == |Members(s.tasks, WaitGroup)|
    && s.counts.unknown == |Members(s.tasks, At(Unknown))|
    && s.counts.rejected == |Members(s.tasks, At(Rejected))|
    && s.counts.notCreated == |Members(s.tasks, At(NotCreated))|
    && s.counts.completed == |Members(s.tasks, At(Completed))|
    && s.counts.lost == |Members(s.tasks, At(Lost))|
  }

  /** Every stored job belongs to one task, which carries its request; IDs follow the order of arrival. */
  ghost predicate Owners(s: State) {
    && s.table.Consistent()
    && s.owner.Keys == s.table.jobs.Keys
    && (forall id {:trigger OwnerRight(s, id)} :: id in s.owner ==> OwnerRight(s, id))
    && (forall t {:trigger JobRight(s, t)} :: t in s.tasks ==> JobRight(s, t))
    && (forall t, u {:trigger InOrder(s, t, u)} :: t in s.tasks && u in s.tasks ==> InOrder(s, t, u))
  }

  ghost predicate OwnerRight(s: State, id: uint64) {
    && id in s.owner && s.owner[id] in s.tasks && s.tasks[s.owner[id]].jobID == id && id != 0
    && id in s.table.jobs && s.table.jobs[id].request == s.tasks[s.owner[id]].request
  }

  ghost predicate JobRight(s: State, t: nat)
    requires t in s.tasks
  {
    var id := s.tasks[t].jobID;
    id != 0 ==> id in s.owner && s.owner[id] == t
  }

  ghost predicate InOrder(s: State, t: nat, u: nat)
    requires t in s.tasks && u in s.tasks
  {
    t < u && s.tasks[t].jobID != 0 && s.tasks[u].jobID != 0 ==> s.tasks[t].jobID < s.tasks[u].jobID
  }

  /** The index of running jobs: those of open tasks, and those no task will finish. */
  ghost predicate RunningIndex(s: State) {
    && s.lost <= s.table.running
    && forall id {:trigger IndexedRight(s, id)} :: id in s.owner ==> IndexedRight(s, id)
  }

  ghost predicate IndexedRight(s: State, id: uint64)
    requires id in s.owner
  {
    && s.owner[id] in s.tasks
    && (id in s.table.running <==> s.tasks[s.owner[id]].phase.IsOpen() || id in s.lost)
    && (id in s.lost ==> !s.tasks[s.owner[id]].phase.IsOpen())
  }

  ghost predicate Contexts(s: State) {
    && (forall id {:trigger EntryRight(s, id)} :: id in s.active.ctx ==> EntryRight(s, id))
    && (forall t {:trigger CancelledRight(s, t)} :: t in s.tasks ==> CancelledRight(s, t))
    && (forall t {:trigger s.active.invoked[t]} :: t !in s.tasks ==> s.active.invoked[t] == 0)
  }

  /** A registered cancel function belongs to a task between Add and its own Cancel, and was never called. */
  ghost predicate EntryRight(s: State, id: uint64)
    requires id in s.active.ctx
  {
    var t := s.active.ctx[id];
    t in s.tasks && s.tasks[t].jobID == id && s.tasks[t].phase.HasContext() && s.active.invoked[t] == 0
  }

  /** Cancelled at most once, never before its context exists; a recorded task's is never dropped uncalled. */
  ghost predicate CancelledRight(s: State, t: nat)
    requires t in s.tasks
  {
    var task := s.tasks[t];
    && s.active.invoked[t] <= 1
    && (s.active.invoked[t] == 1 ==> task.phase.Rank() >= 8)
    && (task.jobID != 0 && task.phase.HasContext() ==> task.jobID in s.active.ctx || s.active.invoked[t] == 1)
    && (task.jobID != 0 && task.phase == Completed ==> s.active.invoked[t] == 1)
  }

  ghost predicate Inv(s: State) {
    && Tickets(s) && Memory(s) && AllSound(s) && QueueInOrder(s) && Counters(s)
    && Owners(s) && RunningIndex(s) && Contexts(s)
  }

  // ---------------------------------------------------- one task at a time

  /** Only task t differs, or is new. */
  ghost predicate OneMoved(s: State, u: State, t: nat) {
    t in u.tasks && u.tasks == s.tasks[t := u.tasks[t]]
  }

  /** u differs from s in nothing the Run loop, the tasks and the channel consist of. */
  ghost predicate SameTasks(s: State, u: State) {
    u.tasks == s.tasks && u.current == s.current && u.received == s.received && u.queue == s.queue
  }

  /** Nothing but a restart or a change of configuration happens while the process is down. */
  lemma UpToMove(s: State, e: Event)
    requires Memory(s) && Enabled(s, e) && !e.Change? && !e.Restart?
    ensures s.up
  {
  }

  // ------------------------------------------------------------------ tickets

  lemma TicketsStay(s: State, u: State, t: nat)
    requires Tickets(s) && OneMoved(s, u, t) && t in s.tasks
    requires u.received == s.received && u.current == s.current
    requires u.tasks[t].phase.InRunLoop() == s.tasks[t].phase.InRunLoop()
    ensures Tickets(u)
  {
  }

  lemma TicketsLeave(s: State, u: State, t: nat)
    requires Tickets(s) && OneMoved(s, u, t) && s.current == Some(t)
    requires u.received == s.received && u.current.None? && !u.tasks[t].phase.InRunLoop()
    ensures Tickets(u)
  {
  }

  lemma TicketsReceive(s: State, u: State)
    requires Tickets(s) && OneMoved(s, u, s.received) && s.current.None?
    requires u.received == s.received + 1 && u.current == Some(s.received) && u.tasks[s.received].phase.InRunLoop()
    ensures Tickets(u)
  {
  }

  lemma TicketsCrash(s: State)
    requires Tickets(s)
    ensures Tickets(AfterCrash(s))
  {
  }

  lemma TicketsSame(s: State, u: State)
    requires Tickets(s) && SameTasks(s, u)
    ensures Tickets(u)
  {
  }

  // ------------------------------------------------------------------- queue

  lemma QueueStay(s: State, u: State, t: nat)
    requires QueueInOrder(s) && OneMoved(s, u, t) && u.queue == s.queue
    requires u.tasks[t].phase != Queued && (t in s.tasks ==> s.tasks[t].phase != Queued)
    ensures QueueInOrder(u)
  {
    forall i | 0 <= i < |u.queue| ensures TaskIn(u, u.queue[i], Queued) {
      assert TaskIn(s, s.queue[i], Queued);
    }
    forall x | TaskIn(u, x, Queued) ensures x in u.queue {
      assert TaskIn(s, x, Queued);
    }
  }

  lemma QueueSend(s: State, u: State, t: nat)
    requires Tickets(s) && QueueInOrder(s) && OneMoved(s, u, t) && s.current == Some(t)
    requires |s.queue| < TASKS_CAPACITY && u.queue == s.queue + [t]
    requires u.tasks[t].phase == Queued && t in s.tasks && s.tasks[t].phase != Queued
    ensures QueueInOrder(u)
  {
    forall i | 0 <= i < |u.queue| ensures TaskIn(u, u.queue[i], Queued) && (i < |s.queue| ==> u.queue[i] < t) {
      assert i < |s.queue| ==> TaskIn(s, s.queue[i], Queued);
    }
    forall x | TaskIn(u, x, Queued) ensures x in u.queue {
      assert x == t || TaskIn(s, x, Queued);
      assert u.queue[|s.queue|] == t;
    }
  }

  lemma QueueDispatch(s: State, u: State)
    requires QueueInOrder(s) && s.queue != [] && OneMoved(s, u, s.queue[0])
    requires u.queue == s.queue[1..] && u.tasks[s.queue[0]].phase != Queued
    ensures QueueInOrder(u)
  {
    forall i | 0 <= i < |u.queue| ensures TaskIn(u, u.queue[i], Queued) {
      assert TaskIn(s, s.queue[i + 1], Queued);
    }
    forall x | TaskIn(u, x, Queued) ensures x in u.queue {
      assert TaskIn(s, x, Queued);
    }
  }

  lemma QueueCrash(s: State)
    requires QueueInOrder(s)
    ensures QueueInOrder(AfterCrash(s))
  {
  }

  lemma QueueSame(s: State, u: State)
    requires QueueInOrder(s) && SameTasks(s, u)
    ensures QueueInOrder(u)
  {
    forall i | 0 <= i < |u.queue| ensures TaskIn(u, u.queue[i], Queued) {
      assert TaskIn(s, s.queue[i], Queued);
    }
    forall x | TaskIn(u, x, Queued) ensures x in u.queue {
      assert TaskIn(s, x, Queued);
    }
  }

  // ---------------------------------------------------------------- counters

  function One(b: bool): int { if b then 1 else 0 }

  lemma MembersElsewhere(s: State, u: State, t: nat, group: Group)
    requires OneMoved(s, u, t)
    ensures Members(u.tasks, group) - {t} == Members(s.tasks, group) - {t}
  {
    hide Belongs;
    forall x | x != t ensures x in Members(u.tasks, group) <==> x in Members(s.tasks, group) {
    }
  }

  lemma MembersAt(tasks: map<nat, Task>, t: nat, group: Group)
    ensures t in Members(tasks, group) <==> t in tasks && Belongs(tasks[t].phase, group)
  {
  }

  lemma MembersMoved(s: State, u: State, t: nat, group: Group)
    requires OneMoved(s, u, t)
    ensures |Members(u.tasks, group)| == |Members(s.tasks, group)|
      + One(Belongs(u.tasks[t].phase, group)) - One(t in s.tasks && Belongs(s.tasks[t].phase, group))
  {
    hide Belongs, Members;
    MembersElsewhere(s, u, t, group);
    MembersAt(s.tasks, t, group);
    MembersAt(u.tasks, t, group);
    WithoutOne(Members(s.tasks, group), t);
    WithoutOne(Members(u.tasks, group), t);
  }

  lemma WithoutOne(a: set<nat>, t: nat)
    ensures |a| == |a - {t}| + One(t in a)
  {
    if t in a {
      assert a == (a - {t}) + {t};
    } else {
      assert a == a - {t};
    }
  }

  /** The counters move with the task. */
  ghost predicate Accounted(s: State, u: State, t: nat)
    requires t in u.tasks
  {
    var from := if t in s.tasks then Some(s.tasks[t].phase) else None;
    var to := u.tasks[t].phase;
    && u.wg == s.wg + One(to.IsCounted()) - One(from.Some? && from.value.IsCounted())
    && u.counts.unknown == s.counts.unknown + One(to == Unknown) - One(from == Some(Unknown))
    && u.counts.rejected == s.counts.rejected + One(to == Rejected) - One(from == Some(Rejected))
    && u.counts.notCreated == s.counts.notCreated + One(to == NotCreated) - One(from == Some(NotCreated))
    && u.counts.completed == s.counts.completed + One(to == Completed) - One(from == Some(Completed))
    && u.counts.lost == s.counts.lost + One(to == Lost) - One(from == Some(Lost))
  }

  lemma CountersMoved(s: State, u: State, t: nat)
    requires Counters(s) && OneMoved(s, u, t) && Accounted(s, u, t)
    ensures Counters(u)
  {
    hide Members;
    MembersMoved(s, u, t, WaitGroup);
    MembersMoved(s, u, t, At(Unknown));
    MembersMoved(s, u, t, At(Rejected));
    MembersMoved(s, u, t, At(NotCreated));
    MembersMoved(s, u, t, At(Completed));
    MembersMoved(s, u, t, At(Lost));
  }

  lemma MembersCrash(tasks: map<nat, Task>, phase: Phase)
    requires !phase.InPipeline() && phase != Lost
    ensures Members(CrashedTasks(tasks), At(phase)) == Members(tasks, At(phase))
  {
  }

  lemma MembersLost(tasks: map<nat, Task>)
    ensures Members(CrashedTasks(tasks), WaitGroup) == {}
    ensures |Members(CrashedTasks(tasks), At(Lost))| == |Members(tasks, At(Lost))| + |Members(tasks, Pipeline)|
  {
    assert Members(CrashedTasks(tasks), At(Lost)) == Members(tasks, At(Lost)) + Members(tasks, Pipeline);
    assert Members(tasks, At(Lost)) !! Members(tasks, Pipeline);
  }

  lemma CountersCrash(s: State)
    requires Counters(s)
    ensures Counters(AfterCrash(s))
  {
    hide Members, CrashedTasks;
    MembersCrash(s.tasks, Unknown);
    MembersCrash(s.tasks, Rejected);
    MembersCrash(s.tasks, NotCreated);
    MembersCrash(s.tasks, Completed);
    MembersLost(s.tasks);
  }

  // ------------------------------------------------------------- soundness

  lemma SoundMoved(s: State, u: State, t: nat)
    requires AllSound(s) && OneMoved(s, u, t) && Sound(u.tasks[t])
    ensures AllSound(u)
  {
  }

  lemma ExpectedIsFinal(task: Task)
    requires Sound(task) && task.phase != Lost
    ensures FinalReplies(task.replies) == One(task.phase.Rank() >= 10)
  {
    var h := if task.cmd.Some? then Greeting(task.cmd.value) else [];
    assert FinalReplies(h) == 0 by {
      if h != [] {
        assert h[..0] == [];
      }
    }
    if task.phase.Rank() >= 10 {
      var front, last := task.replies[..|task.replies| - 1], task.replies[|task.replies| - 1];
      assert front == [] || front == h;
      assert last != Handshake;
    }
  }

  lemma SoundLost(task: Task)
    requires Sound(task) && task.phase.InPipeline()
    ensures Sound(task.(phase := Lost))
  {
    hide ExpectedReplies, ResolvedBy;
    ExpectedIsFinal(task);
  }

  lemma SoundCrash(s: State)
    requires AllSound(s)
    ensures AllSound(AfterCrash(s))
  {
    hide Members, Sound;
    var u := AfterCrash(s);
    forall t | t in u.tasks ensures Sound(u.tasks[t]) {
      if s.tasks[t].phase.InPipeline() {
        SoundLost(s.tasks[t]);
      }
    }
  }

  // ------------------------------------------------------------------ owners

  lemma OwnersStay(s: State, u: State, t: nat)
    requires Owners(s) && OneMoved(s, u, t) && u.table == s.table && u.owner == s.owner
    requires if t in s.tasks then u.tasks[t].jobID == s.tasks[t].jobID else u.tasks[t].jobID == 0
    requires u.tasks[t].jobID != 0 ==> u.tasks[t].request == s.tasks[t].request
    ensures Owners(u)
  {
    forall id | id in u.owner ensures OwnerRight(u, id) {
      assert OwnerRight(s, id);
    }
    forall x | x in u.tasks ensures JobRight(u, x) {
      assert x in s.tasks ==> JobRight(s, x);
    }
    forall x, y | x in u.tasks && y in u.tasks ensures InOrder(u, x, y) {
      assert x in s.tasks && y in s.tasks ==> InOrder(s, x, y);
    }
  }

  /** Every number handed out so far is below the next. */
  lemma BelowNext(s: State, x: nat)
    requires Owners(s) && x in s.tasks && s.table.sequence < MAX_UINT64
    ensures s.tasks[x].jobID < NextID(s.table)
  {
    assert JobRight(s, x);
    assert s.tasks[x].jobID != 0 ==> s.table.IsStored(s.tasks[x].jobID);
  }

  lemma OwnersCreate(s: State, u: State, t: nat, now: int)
    requires Tickets(s) && Owners(s) && OneMoved(s, u, t) && s.current == Some(t) && s.table.sequence < MAX_UINT64
    requires s.tasks[t].jobID == 0 && u.tasks[t].jobID == NextID(s.table)
    requires u.tasks[t].request == s.tasks[t].request
    requires u.table == JobTable.Created(s.table, s.tasks[t].request, now) && u.owner == s.owner[NextID(s.table) := t]
    ensures Owners(u)
  {
    CreateKeeps(s.table, s.tasks[t].request, now);
    hide Table.Consistent, Table.KeepsEnded;
    var n := NextID(s.table);
    forall id | id in u.owner ensures OwnerRight(u, id) {
      assert id in s.owner ==> OwnerRight(s, id);
    }
    forall x | x in u.tasks ensures JobRight(u, x) && (x != t ==> u.tasks[x].jobID < n && x < t) {
      BelowNext(s, x);
      assert JobRight(s, x);
    }
    forall x, y | x in u.tasks && y in u.tasks ensures InOrder(u, x, y) {
      assert InOrder(s, x, y);
    }
  }

  /** A table that kept its jobs' requests keeps its owners. */
  lemma OwnersKeptByTable(s: State, u: State)
    requires Owners(s) && u.owner == s.owner && u.table.Consistent() && u.table.jobs.Keys == s.table.jobs.Keys
    requires forall id :: id in s.table.jobs ==> u.table.jobs[id].request == s.table.jobs[id].request
    requires u.tasks == s.tasks
    ensures Owners(u)
  {
    forall id | id in u.owner ensures OwnerRight(u, id) {
      assert OwnerRight(s, id);
    }
    forall x | x in u.tasks ensures JobRight(u, x) {
      assert JobRight(s, x);
    }
    forall x, y | x in u.tasks && y in u.tasks ensures InOrder(u, x, y) {
      assert InOrder(s, x, y);
    }
  }

  lemma OwnersCrash(s: State)
    requires Owners(s)
    ensures Owners(AfterCrash(s))
  {
    var u := AfterCrash(s);
    forall id | id in u.owner ensures OwnerRight(u, id) {
      assert OwnerRight(s, id);
    }
    forall x | x in u.tasks ensures JobRight(u, x) {
      assert JobRight(s, x);
    }
    forall x, y | x in u.tasks && y in u.tasks ensures InOrder(u, x, y) {
      assert InOrder(s, x, y);
    }
  }

  // ----------------------------------------------------------- running index

  lemma RunningStay(s: State, u: State, t: nat)
    requires Owners(s) && RunningIndex(s) && OneMoved(s, u, t)
    requires u.table == s.table && u.owner == s.owner && u.lost == s.lost
    requires t in s.tasks && s.tasks[t].jobID != 0 ==> u.tasks[t].phase.IsOpen() == s.tasks[t].phase.IsOpen()
    ensures RunningIndex(u)
  {
    forall id | id in u.owner ensures IndexedRight(u, id) {
      assert IndexedRight(s, id) && OwnerRight(s, id);
    }
  }

  lemma RunningCreate(s: State, u: State, t: nat, now: int)
    requires Owners(s) && RunningIndex(s) && OneMoved(s, u, t) && s.table.sequence < MAX_UINT64
    requires t in s.tasks && s.tasks[t].jobID == 0 && u.tasks[t].phase.IsOpen() && u.lost == s.lost
    requires u.table == JobTable.Created(s.table, s.tasks[t].request, now) && u.owner == s.owner[NextID(s.table) := t]
    ensures RunningIndex(u)
  {
    CreateKeeps(s.table, s.tasks[t].request, now);
    forall id | id in u.owner ensures IndexedRight(u, id) {
      if id != NextID(s.table) {
        assert IndexedRight(s, id) && OwnerRight(s, id);
      }
    }
  }

  lemma RunningFinish(s: State, u: State, t: nat, status: string, now: int, commits: bool)
    requires Owners(s) && RunningIndex(s) && OneMoved(s, u, t) && t in s.tasks && u.owner == s.owner
    requires IsEndStatus(status) && s.tasks[t].phase.IsOpen() && !u.tasks[t].phase.IsOpen()
    requires var id := s.tasks[t].jobID;
      && u.table == (if commits then AfterFinish(s.table, id, status, now) else s.table)
      && u.lost == (if commits || id == 0 then s.lost else s.lost + {id})
    ensures RunningIndex(u)
  {
    var id := s.tasks[t].jobID;
    FinishKeeps(s.table, id, status, now);
    assert JobRight(s, t);
    assert id != 0 ==> IndexedRight(s, id);
    forall j | j in u.owner ensures IndexedRight(u, j) {
      assert IndexedRight(s, j) && OwnerRight(s, j);
    }
  }

  lemma RunningCrash(s: State)
    requires Owners(s) && RunningIndex(s)
    ensures RunningIndex(AfterCrash(s))
  {
    hide Members;
    var u := AfterCrash(s);
    forall id | id in u.owner ensures IndexedRight(u, id) {
      assert IndexedRight(s, id);
      assert u.tasks[u.owner[id]].phase.IsOpen() ==> false;
    }
  }

  lemma RunningRestart(s: State, u: State, now: int)
    requires Memory(s) && !s.up && Owners(s) && RunningIndex(s)
    requires u.tasks == s.tasks && u.owner == s.owner && u.table == Killed(s.table, now) && u.lost == {}
    ensures RunningIndex(u)
  {
    forall id | id in u.owner ensures IndexedRight(u, id) {
      assert IndexedRight(s, id);
    }
  }

  lemma RunningSame(s: State, u: State)
    requires RunningIndex(s) && u.tasks == s.tasks && u.owner == s.owner && u.table == s.table && u.lost == s.lost
    ensures RunningIndex(u)
  {
    forall id | id in u.owner ensures IndexedRight(u, id) {
      assert IndexedRight(s, id);
    }
  }

  // ---------------------------------------------------------------- contexts

  lemma ContextsStay(s: State, u: State, t: nat)
    requires Contexts(s) && OneMoved(s, u, t) && u.active == s.active
    requires if t in s.tasks && s.tasks[t].phase.HasContext()
             then u.tasks[t].phase.HasContext() && u.tasks[t].jobID == s.tasks[t].jobID
             else
               && !u.tasks[t].phase.HasContext() && u.tasks[t].phase != Completed
               && (t in s.tasks ==> s.tasks[t].phase.Rank() < 8)
    ensures Contexts(u)
  {
    forall id | id in u.active.ctx ensures EntryRight(u, id) {
      assert EntryRight(s, id);
    }
    forall x | x in u.tasks ensures CancelledRight(u, x) {
      assert x in s.tasks ==> CancelledRight(s, x);
    }
  }

  lemma ContextsActivate(s: State, u: State, t: nat)
    requires Owners(s) && Contexts(s) && OneMoved(s, u, t) && t in s.tasks
    requires s.tasks[t].phase.Rank() < 8 && u.tasks[t].phase.HasContext() && u.tasks[t].jobID == s.tasks[t].jobID
    requires u.active == s.active.Add(s.tasks[t].jobID, t)
    ensures Contexts(u)
  {
    assert CancelledRight(s, t);
    forall id | id in u.active.ctx ensures EntryRight(u, id) {
      assert id in s.active.ctx ==> EntryRight(s, id);
    }
    forall x | x in u.tasks ensures CancelledRight(u, x) {
      assert CancelledRight(s, x);
    }
  }

  /** Cancelling an ID calls the function registered for it, of a task that has that ID. */
  lemma ContextsCancel(s: State, u: State, id: uint64)
    requires Owners(s) && Contexts(s) && u.tasks == s.tasks && u.active == s.active.Cancel(id)
    ensures Contexts(u)
    ensures id !in u.active.ctx
  {
    if id in s.active.ctx {
      var v := s.active.ctx[id];
      assert EntryRight(s, id);
      forall j | j in u.active.ctx ensures EntryRight(u, j) {
        assert EntryRight(s, j);
      }
      forall x | x in u.tasks ensures CancelledRight(u, x) {
        assert CancelledRight(s, x) && JobRight(s, x) && JobRight(s, v);
      }
    } else {
      ContextsSame(s, u);
    }
  }

  lemma ContextsComplete(s: State, u: State, t: nat)
    requires Contexts(s) && OneMoved(s, u, t) && u.active == s.active && t in s.tasks
    requires s.tasks[t].phase.HasContext() && u.tasks[t].phase == Completed && u.tasks[t].jobID == s.tasks[t].jobID
    requires s.tasks[t].jobID !in s.active.ctx
    ensures Contexts(u)
  {
    forall id | id in u.active.ctx ensures EntryRight(u, id) {
      assert EntryRight(s, id);
    }
    forall x | x in u.tasks ensures CancelledRight(u, x) {
      assert CancelledRight(s, x);
    }
  }

  lemma ContextsCrash(s: State)
    requires Contexts(s)
    ensures Contexts(AfterCrash(s))
  {
    hide Members;
    var u := AfterCrash(s);
    forall x | x in u.tasks ensures CancelledRight(u, x) {
      assert CancelledRight(s, x);
    }
  }

  lemma ContextsSame(s: State, u: State)
    requires Contexts(s) && u.tasks == s.tasks && u.active == s.active
    ensures Contexts(u)
  {
    forall id | id in u.active.ctx ensures EntryRight(u, id) {
      assert EntryRight(s, id);
    }
    forall x | x in u.tasks ensures CancelledRight(u, x) {
      assert CancelledRight(s, x);
    }
  }

  lemma CountersSame(s: State, u: State)
    requires Counters(s) && u.tasks == s.tasks && u.wg == s.wg && u.counts == s.counts
    ensures Counters(u)
  {
  }

  // --------------------------------------------------------------- the steps

  lemma CurrentInLoop(s: State)
    requires Tickets(s) && s.current.Some?
    ensures s.current.value in s.tasks && s.tasks[s.current.value].phase.InRunLoop()
  {
  }

  lemma SoundAt(s: State, t: nat)
    requires AllSound(s) && t in s.tasks
    ensures Sound(s.tasks[t])
  {
  }

  lemma NextIsNew(s: State)
    requires Tickets(s)
    ensures s.received !in s.tasks
  {
  }

  lemma HeadIsQueued(s: State)
    requires QueueInOrder(s) && s.queue != []
    ensures TaskIn(s, s.queue[0], Queued)
  {
  }

  lemma TableConsistent(s: State)
    requires Owners(s)
    ensures s.table.Consistent()
  {
  }

  /** A move of one task that leaves channel, table and contexts alone. */
  lemma PlainMove(s: State, u: State, t: nat)
    requires Inv(s) && s.up && u.up && OneMoved(s, u, t) && t in s.tasks && Sound(u.tasks[t]) && Accounted(s, u, t)
    requires SameElsewhere(s, u) && u.received == s.received && u.current == s.current
    requires u.queue == s.queue && u.active == s.active
    requires u.tasks[t].jobID == s.tasks[t].jobID && u.tasks[t].request == s.tasks[t].request
    requires var p, q := s.tasks[t].phase, u.tasks[t].phase;
      && p != Queued && q != Queued && p.InRunLoop() == q.InRunLoop() && p.IsOpen() == q.IsOpen()
      && (if p.HasContext() then q.HasContext() else p.Rank() < 8 && q.Rank() < 8)
    ensures Inv(u)
  {
    hide Tickets, QueueInOrder, Counters, Accounted, AllSound, Sound, Owners, RunningIndex, Contexts;
    TicketsStay(s, u, t);
    QueueStay(s, u, t);
    CountersMoved(s, u, t);
    SoundMoved(s, u, t);
    OwnersStay(s, u, t);
    RunningStay(s, u, t);
    ContextsStay(s, u, t);
  }

  ghost predicate SameElsewhere(s: State, u: State) {
    u.table == s.table && u.owner == s.owner && u.lost == s.lost
  }

  lemma KeptReceive(s: State, req: Request)
    requires Inv(s) && s.up && Enabled(s, Receive(req))
    ensures Inv(Step(s, Receive(req)))
  {
    hide Tickets, QueueInOrder, Counters, AllSound, Owners, RunningIndex, Contexts;
    var t, u := s.received, Step(s, Receive(req));
    NextIsNew(s);
    assert Sound(u.tasks[t]) && Accounted(s, u, t);
    hide Sound, Accounted;
    TicketsReceive(s, u);
    QueueStay(s, u, t);
    CountersMoved(s, u, t);
    SoundMoved(s, u, t);
    OwnersStay(s, u, t);
    RunningStay(s, u, t);
    ContextsStay(s, u, t);
  }

  /** The Run loop moves its request on, or drops it, without a job. */
  ghost predicate MovesInLoop(s: State, u: State, t: nat) {
    && s.up && u.up && s.current == Some(t) && t in s.tasks && OneMoved(s, u, t)
    && Accounted(s, u, t) && SameElsewhere(s, u)
    && u.received == s.received && u.queue == s.queue && u.active == s.active
    && u.current == (if u.tasks[t].phase.InRunLoop() then s.current else None)
    && s.tasks[t].jobID == 0 && u.tasks[t].jobID == 0
    && var q := u.tasks[t].phase; !q.HasContext() && q != Completed && q != Queued
  }

  lemma LoopMove(s: State, u: State, t: nat)
    requires Inv(s) && MovesInLoop(s, u, t) && Sound(u.tasks[t])
    ensures Inv(u)
  {
    hide Tickets, QueueInOrder, Counters, Accounted, AllSound, Sound, Owners, RunningIndex, Contexts;
    CurrentInLoop(s);
    if u.current.Some? {
      TicketsStay(s, u, t);
    } else {
      TicketsLeave(s, u, t);
    }
    QueueStay(s, u, t);
    CountersMoved(s, u, t);
    SoundMoved(s, u, t);
    OwnersStay(s, u, t);
    RunningStay(s, u, t);
    ContextsStay(s, u, t);
  }

  /** No job before the task is created. */
  lemma NoJobYet(task: Task)
    requires Sound(task) && task.phase.Rank() <= 2
    ensures task.jobID == 0
  {
    hide ResolvedBy, RefusedIn, ExpectedReplies, FinalReplies;
  }

  lemma ResolveInLoop(s: State, commits: bool)
    requires Enabled(s, Resolve(commits)) && s.up && s.tasks[s.current.value].jobID == 0
    ensures MovesInLoop(s, AfterResolve(s, commits), s.current.value)
  {
    hide Commands.Found, Commands.AliasIn, Sight;
  }

  lemma SoundResolved(task: Task, world: World)
    requires Sound(task) && task.phase == Received
    ensures var found := Commands.Found(world.commands, Commands.AliasIn(world.aliases, task.original), task.original);
      var now := task.(request := found.0, cmd := found.1, resolvedIn := Some(world));
      if found.1.None? then Sound(now.(phase := Unknown, replies := task.replies + [UnknownCommand]))
      else Sound(now.(phase := Resolved))
  {
    hide Commands.Found, Commands.AliasIn, FinalReplies;
  }

  lemma ResolveSound(s: State, commits: bool)
    requires Enabled(s, Resolve(commits)) && Sound(s.tasks[s.current.value])
    ensures Sound(AfterResolve(s, commits).tasks[s.current.value])
  {
    hide Commands.Found, Commands.AliasIn, Sight, Sound;
    SoundResolved(s.tasks[s.current.value], Sight(s.world, commits));
  }

  lemma KeptResolve(s: State, commits: bool)
    requires Inv(s) && s.up && Enabled(s, Resolve(commits))
    ensures Inv(AfterResolve(s, commits))
  {
    hide Tickets, QueueInOrder, Counters, AllSound, Owners, RunningIndex, Contexts, Sound, MovesInLoop, AfterResolve;
    var t := s.current.value;
    SoundAt(s, t);
    NoJobYet(s.tasks[t]);
    ResolveInLoop(s, commits);
    ResolveSound(s, commits);
    LoopMove(s, AfterResolve(s, commits), t);
  }

  lemma AuthorizeInLoop(s: State)
    requires Enabled(s, Authorize) && s.up && s.tasks[s.current.value].jobID == 0
    ensures MovesInLoop(s, AfterAuthorize(s), s.current.value)
  {
    hide Auth.Refusal;
  }

  lemma SoundChecked(task: Task, world: World)
    requires Sound(task) && task.phase == Resolved && task.cmd.Some?
    ensures var now := task.(checkedIn := Some(world));
      if Auth.Refusal(world.groups, task.request, task.cmd.value).Some? then
        Sound(now.(phase := Rejected, replies := task.replies + [Unauthorized]))
      else Sound(now.(phase := Authorized))
  {
    hide Auth.Refusal, ResolvedBy, FinalReplies;
  }

  lemma AuthorizeSound(s: State)
    requires Enabled(s, Authorize) && Sound(s.tasks[s.current.value])
    ensures Sound(AfterAuthorize(s).tasks[s.current.value])
  {
    hide Auth.Refusal, Sound;
    SoundChecked(s.tasks[s.current.value], s.world);
  }

  lemma KeptAuthorize(s: State)
    requires Inv(s) && s.up && Enabled(s, Authorize)
    ensures Inv(AfterAuthorize(s))
  {
    hide Tickets, QueueInOrder, Counters, AllSound, Owners, RunningIndex, Contexts, Sound, MovesInLoop, AfterAuthorize;
    var t := s.current.value;
    SoundAt(s, t);
    NoJobYet(s.tasks[t]);
    AuthorizeInLoop(s);
    AuthorizeSound(s);
    LoopMove(s, AfterAuthorize(s), t);
  }

  lemma SoundCreated(task: Task, id: uint64)
    requires Sound(task) && task.phase == Authorized && task.cmd.Some?
    ensures (id != 0 <==> task.cmd.value.record) ==> Sound(task.(phase := Created, jobID := id))
    ensures Sound(task.(phase := NotCreated, replies := task.replies + [Failed]))
  {
    hide Auth.Refusal, ResolvedBy, FinalReplies;
  }

  /** Whether the command of the current task is recorded, and its job committed. */
  predicate Records(s: State, commits: bool)
    requires Enabled(s, Create(0, commits))
  {
    s.tasks[s.current.value].cmd.value.record && commits
  }

  lemma CreateSound(s: State, now: int, commits: bool)
    requires Enabled(s, Create(now, commits)) && Sound(s.tasks[s.current.value])
    ensures Sound(AfterCreate(s, now, commits).tasks[s.current.value])
  {
    hide Sound, JobTable.Created;
    SoundCreated(s.tasks[s.current.value], 0);
    SoundCreated(s.tasks[s.current.value], NextID(s.table));
  }

  lemma CreateInLoop(s: State, now: int, commits: bool)
    requires Enabled(s, Create(now, commits)) && s.up && s.tasks[s.current.value].jobID == 0 && !Records(s, commits)
    ensures MovesInLoop(s, AfterCreate(s, now, commits), s.current.value)
  {
    hide JobTable.Created, NextID;
  }

  /** The recorded case: the table gains the task's job. */
  ghost predicate GainsJob(s: State, u: State, t: nat, now: int) {
    && s.up && u.up && s.current == Some(t) && t in s.tasks && OneMoved(s, u, t) && Accounted(s, u, t)
    && u.received == s.received && u.queue == s.queue && u.active == s.active
    && u.current == s.current && u.lost == s.lost
    && s.tasks[t].jobID == 0 && u.tasks[t].jobID == NextID(s.table) && u.tasks[t].request == s.tasks[t].request
    && u.tasks[t].phase == Created && s.tasks[t].phase == Authorized && s.table.sequence < MAX_UINT64
    && u.table == JobTable.Created(s.table, s.tasks[t].request, now) && u.owner == s.owner[NextID(s.table) := t]
  }

  lemma CreateGains(s: State, now: int, commits: bool)
    requires Enabled(s, Create(now, commits)) && s.up && s.tasks[s.current.value].jobID == 0 && Records(s, commits)
    ensures GainsJob(s, AfterCreate(s, now, commits), s.current.value, now)
  {
    hide JobTable.Created, NextID;
  }

  lemma JobMove(s: State, u: State, t: nat, now: int)
    requires Inv(s) && GainsJob(s, u, t, now) && Sound(u.tasks[t])
    ensures Inv(u)
  {
    hide Tickets, QueueInOrder, Counters, Accounted, AllSound, Sound, Owners, RunningIndex, Contexts;
    hide JobTable.Created, NextID;
    TicketsStay(s, u, t);
    QueueStay(s, u, t);
    CountersMoved(s, u, t);
    SoundMoved(s, u, t);
    OwnersCreate(s, u, t, now);
    RunningCreate(s, u, t, now);
    ContextsStay(s, u, t);
  }

  lemma KeptCreate(s: State, now: int, commits: bool)
    requires Inv(s) && s.up && Enabled(s, Create(now, commits))
    ensures Inv(AfterCreate(s, now, commits))
  {
    hide Tickets, QueueInOrder, Counters, AllSound, Owners, RunningIndex, Contexts, Sound, MovesInLoop, GainsJob;
    hide AfterCreate, JobTable.Created, NextID;
    var t := s.current.value;
    SoundAt(s, t);
    NoJobYet(s.tasks[t]);
    CreateSound(s, now, commits);
    if Records(s, commits) {
      CreateGains(s, now, commits);
      JobMove(s, AfterCreate(s, now, commits), t, now);
    } else {
      CreateInLoop(s, now, commits);
      LoopMove(s, AfterCreate(s, now, commits), t);
    }
  }

  function ReplyStage(phase: Phase): int {
    var r := phase.Rank();
    if r <= 6 then 0 else if r <= 9 then 1 else 2
  }

  /** A task with its job moves on between replies; how its execution ends is open until it is answered. */
  lemma SoundOn(task: Task, phase: Phase, failed: bool)
    requires Sound(task) && 3 <= task.phase.Rank() <= 13 && 3 <= phase.Rank() <= 13
    requires ReplyStage(phase) == ReplyStage(task.phase) && (failed == task.failed || ReplyStage(phase) < 2)
    ensures Sound(task.(phase := phase, failed := failed))
  {
    hide ResolvedBy, Auth.Refusal, FinalReplies;
  }

  lemma KeptCount(s: State)
    requires Inv(s) && s.up && Enabled(s, Count)
    ensures Inv(Step(s, Count))
  {
    hide Tickets, QueueInOrder, Counters, AllSound, Owners, RunningIndex, Contexts, Sound;
    var t, u := s.current.value, Step(s, Count);
    SoundAt(s, t);
    SoundOn(s.tasks[t], Counted, s.tasks[t].failed);
    assert Accounted(s, u, t);
    hide Accounted;
    PlainMove(s, u, t);
  }

  lemma KeptSend(s: State)
    requires Inv(s) && s.up && Enabled(s, Send)
    ensures Inv(Step(s, Send))
  {
    hide Tickets, QueueInOrder, Counters, AllSound, Owners, RunningIndex, Contexts, Sound;
    var t, u := s.current.value, Step(s, Send);
    SoundAt(s, t);
    SoundOn(s.tasks[t], Queued, s.tasks[t].failed);
    assert Accounted(s, u, t);
    hide Accounted;
    TicketsLeave(s, u, t);
    QueueSend(s, u, t);
    CountersMoved(s, u, t);
    SoundMoved(s, u, t);
    OwnersStay(s, u, t);
    RunningStay(s, u, t);
    ContextsStay(s, u, t);
  }

  lemma KeptDispatch(s: State)
    requires Inv(s) && s.up && Enabled(s, Dispatch)
    ensures Inv(Step(s, Dispatch))
  {
    hide Tickets, QueueInOrder, Counters, AllSound, Owners, RunningIndex, Contexts, Sound;
    var t, u := s.queue[0], Step(s, Dispatch);
    HeadIsQueued(s);
    SoundAt(s, t);
    SoundOn(s.tasks[t], Spawned, s.tasks[t].failed);
    assert Accounted(s, u, t);
    hide Accounted;
    TicketsStay(s, u, t);
    QueueDispatch(s, u);
    CountersMoved(s, u, t);
    SoundMoved(s, u, t);
    OwnersStay(s, u, t);
    RunningStay(s, u, t);
    ContextsStay(s, u, t);
  }

  lemma KeptGreet(s: State, t: nat)
    requires Inv(s) && s.up && Enabled(s, Greet(t))
    ensures Inv(Step(s, Greet(t)))
  {
    hide Tickets, QueueInOrder, Counters, AllSound, Owners, RunningIndex, Contexts;
    var u := Step(s, Greet(t));
    SoundAt(s, t);
    assert Sound(u.tasks[t]) && Accounted(s, u, t);
    hide Sound, Accounted;
    PlainMove(s, u, t);
  }

  lemma KeptExecute(s: State, t: nat, failed: bool)
    requires Inv(s) && s.up && Enabled(s, Execute(t, failed))
    ensures Inv(Step(s, Execute(t, failed)))
  {
    hide Tickets, QueueInOrder, Counters, AllSound, Owners, RunningIndex, Contexts, Sound;
    var u := Step(s, Execute(t, failed));
    SoundAt(s, t);
    SoundOn(s.tasks[t], Executed, failed);
    assert Accounted(s, u, t);
    hide Accounted;
    PlainMove(s, u, t);
  }

  lemma KeptAnswer(s: State, t: nat)
    requires Inv(s) && s.up && Enabled(s, Answer(t))
    ensures Inv(Step(s, Answer(t)))
  {
    hide Tickets, QueueInOrder, Counters, AllSound, Owners, RunningIndex, Contexts;
    var u := Step(s, Answer(t));
    SoundAt(s, t);
    assert Sound(u.tasks[t]) && Accounted(s, u, t);
    hide Sound, Accounted;
    PlainMove(s, u, t);
  }

  lemma KeptDone(s: State, t: nat)
    requires Inv(s) && s.up && Enabled(s, Done(t))
    ensures Inv(Step(s, Done(t)))
  {
    hide Tickets, QueueInOrder, Counters, AllSound, Owners, RunningIndex, Contexts, Sound;
    var u := Step(s, Done(t));
    SoundAt(s, t);
    SoundOn(s.tasks[t], Waited, s.tasks[t].failed);
    assert Accounted(s, u, t);
    hide Accounted;
    PlainMove(s, u, t);
  }

  lemma KeptActivate(s: State, t: nat)
    requires Inv(s) && s.up && Enabled(s, Activate(t))
    ensures Inv(Step(s, Activate(t)))
  {
    hide Tickets, QueueInOrder, Counters, AllSound, Owners, RunningIndex, Contexts, Sound;
    var u := Step(s, Activate(t));
    SoundAt(s, t);
    SoundOn(s.tasks[t], Executing, s.tasks[t].failed);
    assert Accounted(s, u, t);
    hide Accounted;
    TicketsStay(s, u, t);
    QueueStay(s, u, t);
    CountersMoved(s, u, t);
    SoundMoved(s, u, t);
    OwnersStay(s, u, t);
    RunningStay(s, u, t);
    ContextsActivate(s, u, t);
  }

  lemma FinishSound(s: State, t: nat, now: int, commits: bool)
    requires Enabled(s, Finish(t, now, commits)) && Sound(s.tasks[t])
    ensures var u := AfterFinishCall(s, t, now, commits); OneMoved(s, u, t) && Sound(u.tasks[t]) && Accounted(s, u, t)
  {
    hide ResolvedBy, Auth.Refusal, AfterFinish;
  }

  lemma FinishKeepsRequests(t: Table, id: uint64, status: string, now: int)
    ensures var u := AfterFinish(t, id, status, now);
      u.jobs.Keys == t.jobs.Keys && forall j :: j in t.jobs ==> u.jobs[j].request == t.jobs[j].request
  {
  }

  lemma KeptFinish(s: State, t: nat, now: int, commits: bool)
    requires Inv(s) && s.up && Enabled(s, Finish(t, now, commits))
    ensures Inv(Step(s, Finish(t, now, commits)))
  {
    hide Tickets, QueueInOrder, Counters, AllSound, Owners, RunningIndex, Contexts, Accounted, Sound;
    hide AfterFinish, Table.Consistent, Table.KeepsEnded;
    var u := Step(s, Finish(t, now, commits));
    var status := if s.tasks[t].failed then FAILED else SUCCESSFUL;
    var m := s.(table := u.table);
    SoundAt(s, t);
    FinishSound(s, t, now, commits);
    TableConsistent(s);
    FinishKeeps(s.table, s.tasks[t].jobID, status, now);
    FinishKeepsRequests(s.table, s.tasks[t].jobID, status, now);
    OwnersKeptByTable(s, m);
    TicketsStay(s, u, t);
    QueueStay(s, u, t);
    CountersMoved(s, u, t);
    SoundMoved(s, u, t);
    OwnersStay(m, u, t);
    RunningFinish(s, u, t, status, now, commits);
    ContextsStay(s, u, t);
  }

  lemma KeptRelease(s: State, t: nat)
    requires Inv(s) && s.up && Enabled(s, Release(t))
    ensures Inv(Step(s, Release(t)))
  {
    hide Tickets, QueueInOrder, Counters, AllSound, Owners, RunningIndex, Contexts, Sound;
    var u := Step(s, Release(t));
    var m := s.(active := u.active);
    SoundAt(s, t);
    SoundOn(s.tasks[t], Completed, s.tasks[t].failed);
    assert Accounted(s, u, t);
    hide Accounted;
    TicketsStay(s, u, t);
    QueueStay(s, u, t);
    CountersMoved(s, u, t);
    SoundMoved(s, u, t);
    OwnersStay(s, u, t);
    RunningStay(s, u, t);
    ContextsCancel(s, m, s.tasks[t].jobID);
    ContextsComplete(m, u, t);
  }

  lemma KeptCancel(s: State, id: uint64)
    requires Inv(s) && s.up
    ensures Inv(s.(active := s.active.Cancel(id)))
  {
    var u := s.(active := s.active.Cancel(id));
    hide Tickets, QueueInOrder, Counters, AllSound, Owners, RunningIndex, Contexts;
    Unmoved(s, u);
    ContextsCancel(s, u, id);
  }

  /** What does not look at contexts survives a change of contexts, configuration and the closed flag. */
  lemma Unmoved(s: State, u: State)
    requires Inv(s) && SameTasks(s, u) && SameElsewhere(s, u) && u.wg == s.wg && u.counts == s.counts
    ensures Tickets(u) && QueueInOrder(u) && Counters(u) && AllSound(u) && Owners(u) && RunningIndex(u)
  {
    hide Tickets, QueueInOrder, Counters, Owners, RunningIndex, Contexts, Sound;
    TicketsSame(s, u);
    QueueSame(s, u);
    CountersSame(s, u);
    OwnersKeptByTable(s, u) by {
      assert s.table.Consistent() by { TableConsistent(s); }
    }
    RunningSame(s, u);
  }

  lemma KeptClose(s: State)
    requires Inv(s) && Enabled(s, CloseAfterWait)
    ensures Inv(Step(s, CloseAfterWait))
  {
    hide Tickets, QueueInOrder, Counters, AllSound, Owners, RunningIndex, Contexts;
    var u := Step(s, CloseAfterWait);
    Unmoved(s, u);
    ContextsSame(s, u);
  }

  lemma KeptChange(s: State, world: World)
    requires Inv(s) && Enabled(s, Change(world))
    ensures Inv(Step(s, Change(world)))
  {
    hide Tickets, QueueInOrder, Counters, AllSound, Owners, RunningIndex, Contexts;
    var u := Step(s, Change(world));
    Unmoved(s, u);
    ContextsSame(s, u);
  }

  lemma KeptCrash(s: State)
    requires Inv(s) && Enabled(s, Crash)
    ensures Inv(Step(s, Crash))
  {
    hide Members, Tickets, QueueInOrder, Counters, AllSound, Owners, RunningIndex, Contexts;
    TicketsCrash(s);
    QueueCrash(s);
    CountersCrash(s);
    SoundCrash(s);
    OwnersCrash(s);
    RunningCrash(s);
    ContextsCrash(s);
  }

  lemma KeptRestart(s: State, now: int)
    requires Inv(s) && Enabled(s, Restart(now))
    ensures Inv(Step(s, Restart(now)))
  {
    hide Tickets, QueueInOrder, Counters, AllSound, Owners, RunningIndex, Contexts;
    var u := Step(s, Restart(now));
    TableConsistent(s);
    KillKeeps(s.table, now);
    OwnersKeptByTable(s, u);
    hide Table.Consistent, Table.KeepsEnded;
    TicketsSame(s, u);
    QueueSame(s, u);
    CountersSame(s, u);
    RunningRestart(s, u, now);
    ContextsSame(s, u);
    assert AllSound(u) by { SoundSame(s, u); }
  }

  lemma SoundSame(s: State, u: State)
    requires AllSound(s) && u.tasks == s.tasks
    ensures AllSound(u)
  {
  }

  /** Every step of every kind keeps the invariant. */
  lemma {:induction false} StepKeeps(s: State, e: Event)
    requires Inv(s) && Enabled(s, e)
    ensures Inv(Step(s, e))
  {
    hide Tickets, QueueInOrder, Counters, AllSound, Owners, RunningIndex, Contexts;
    if !e.Change? && !e.Restart? {
      UpToMove(s, e);
    }
    hide Inv, Enabled;
    match e
    case Receive(req) => KeptReceive(s, req);
    case Resolve(commits) => KeptResolve(s, commits);
    case Authorize => KeptAuthorize(s);
    case Create(now, commits) => KeptCreate(s, now, commits);
    case Count => KeptCount(s);
    case Send => KeptSend(s);
    case Dispatch => KeptDispatch(s);
    case Greet(t) => KeptGreet(s, t);
    case Activate(t) => KeptActivate(s, t);
    case Execute(t, failed) => KeptExecute(s, t, failed);
    case Answer(t) => KeptAnswer(s, t);
    case Finish(t, now, commits) => KeptFinish(s, t, now, commits);
    case Done(t) => KeptDone(s, t);
    case Release(t) => KeptRelease(s, t);
    case CancelJob(_, id) => KeptCancel(s, id);
    case KillJob(id) => KeptCancel(s, id);
    case CloseAfterWait => KeptClose(s);
    case Change(world) => KeptChange(s, world);
    case Crash => KeptCrash(s);
    case Restart(now) => KeptRestart(s, now);
  }
}
