/** What becomes of every request, over every run of the executor. */
module ExecutorRequests {
  import Auth
  import opened Executor
  import opened ExecutorInvariant
  import opened ExecutorJobs
  import opened ExecutorRuns
  import opened JobTable
  import opened Meeseeks
  import opened Wrappers

  // ------------------------------------------------------------ conservation

  lemma {:induction false} CountTickets(tickets: set<nat>, n: nat)
    requires forall t: nat :: t in tickets <==> t < n
    ensures |tickets| == n
  {
    if n == 0 {
      assert tickets == {};
    } else {
      CountTickets(tickets - {n - 1}, n - 1);
    }
  }

  /** Requests are refused, not created, completed, lost in a crash, or in the pipeline: none twice, none missing. */
  lemma Conservation(es: seq<Event>, s: State)
    requires Reaches(es, s)
    ensures s.received == s.counts.unknown + s.counts.rejected + s.counts.notCreated + s.counts.completed
                        + s.counts.lost + |Members(s.tasks, Pipeline)|
  {
    hide *;
    ReachedParts(es, s);
    TicketsCounted(s);
    Partition(s.tasks);
    CountsAre(s);
  }

  lemma TicketsCounted(s: State)
    requires Tickets(s)
    ensures |s.tasks.Keys| == s.received
  {
    CountTickets(s.tasks.Keys, s.received);
  }

  lemma CountsAre(s: State)
    requires Counters(s)
    ensures s.counts == Counts(
      |Members(s.tasks, At(Unknown))|, |Members(s.tasks, At(Rejected))|, |Members(s.tasks, At(NotCreated))|,
      |Members(s.tasks, At(Completed))|, |Members(s.tasks, At(Lost))|)
  {
    hide Members;
  }

  /** The six ways a request can stand, numbered. */
  function Standing(phase: Phase): nat {
    match phase
    case Unknown => 0 case Rejected => 1 case NotCreated => 2 case Completed => 3 case Lost => 4
    case _ => 5
  }

  function GroupOf(k: nat): Group {
    match k
    case 0 => At(Unknown) case 1 => At(Rejected) case 2 => At(NotCreated) case 3 => At(Completed) case 4 => At(Lost)
    case _ => Pipeline
  }

  lemma StandingIsGroup(phase: Phase, k: nat)
    requires k < 6
    ensures Standing(phase) == k <==> Belongs(phase, GroupOf(k))
  {
  }

  function Below(tasks: map<nat, Task>, k: nat): set<nat> {
    set t | t in tasks && Standing(tasks[t].phase) < k
  }

  lemma BelowNext(tasks: map<nat, Task>, k: nat)
    requires k < 6
    ensures |Below(tasks, k + 1)| == |Below(tasks, k)| + |Members(tasks, GroupOf(k))|
  {
    hide Belongs, Standing, GroupOf;
    forall phase: Phase ensures Standing(phase) == k <==> Belongs(phase, GroupOf(k)) {
      StandingIsGroup(phase, k);
    }
    assert Below(tasks, k + 1) == Below(tasks, k) + Members(tasks, GroupOf(k));
    assert Below(tasks, k) !! Members(tasks, GroupOf(k));
  }

  /** Every task is in exactly one of the six groups. */
  lemma Partition(tasks: map<nat, Task>)
    ensures |tasks.Keys| == |Members(tasks, At(Unknown))| + |Members(tasks, At(Rejected))|
                          + |Members(tasks, At(NotCreated))| + |Members(tasks, At(Completed))|
                          + |Members(tasks, At(Lost))| + |Members(tasks, Pipeline)|
  {
    assert Below(tasks, 0) == {} && Below(tasks, 6) == tasks.Keys;
    hide Members, Below;
    BelowNext(tasks, 0);
    BelowNext(tasks, 1);
    BelowNext(tasks, 2);
    BelowNext(tasks, 3);
    BelowNext(tasks, 4);
    BelowNext(tasks, 5);
  }

  // --------------------------------------------------------------- wait group

  lemma WaitGroupOf(s: State)
    requires Counters(s)
    ensures s.wg == |Members(s.tasks, WaitGroup)|
    ensures s.wg == 0 <==> forall t :: t in s.tasks ==> !s.tasks[t].phase.IsCounted()
  {
    var members := Members(s.tasks, WaitGroup);
    assert forall t :: t in s.tasks && s.tasks[t].phase.IsCounted() <==> t in members;
    if s.wg == 0 {
      assert members == {};
    } else {
      var t :| t in members;
    }
  }

  /** The wait group counts the tasks about to be sent, queued or executing; a Done never takes it below zero. */
  lemma WaitGroupCounts(es: seq<Event>, s: State)
    requires Reaches(es, s)
    ensures s.wg == |Members(s.tasks, WaitGroup)|
    ensures s.wg == 0 <==> forall t :: t in s.tasks ==> !s.tasks[t].phase.IsCounted()
    ensures forall t :: TaskIn(s, t, Finished) ==> s.wg > 0
  {
    hide *;
    ReachedParts(es, s);
    WaitGroupOf(s);
    FinishedCounts(s);
  }

  lemma FinishedCounts(s: State)
    requires s.wg == 0 ==> forall t :: t in s.tasks ==> !s.tasks[t].phase.IsCounted()
    requires s.wg >= 0
    ensures forall t :: TaskIn(s, t, Finished) ==> s.wg > 0
  {
  }

  /**
   * When Shutdown's wait is over the channel it closes is empty, and every task that was ever
   * counted has had its one final reply and has called Fail or Succeed, unless a crash took it.
   */
  lemma ShutdownDrained(es: seq<Event>, s: State)
    requires Reaches(es, s) && s.wg == 0
    ensures s.queue == []
    ensures forall t :: t in s.tasks && 4 <= s.tasks[t].phase.Rank() <= 13 ==>
      s.tasks[t].phase.Rank() >= 12 && FinalReplies(s.tasks[t].replies) == 1 && t !in InFlight(s)
  {
    hide *;
    WaitGroupCounts(es, s);
    ReachedParts(es, s);
    NoneQueued(s);
    forall t | t in s.tasks && 4 <= s.tasks[t].phase.Rank() <= 13
      ensures s.tasks[t].phase.Rank() >= 12 && FinalReplies(s.tasks[t].replies) == 1 && t !in InFlight(s)
    {
      SoundAt(s, t);
      WaitedIsDone(s.tasks[t]);
      NotOpenNotFlying(s, t);
    }
  }

  lemma NotOpenNotFlying(s: State, t: nat)
    requires t in s.tasks && !s.tasks[t].phase.IsOpen()
    ensures t !in InFlight(s)
  {
  }

  lemma NoneQueued(s: State)
    requires QueueInOrder(s) && forall t :: t in s.tasks ==> !s.tasks[t].phase.IsCounted()
    ensures s.queue == []
  {
    hide QueueInOrder;
    if s.queue != [] {
      HeadIsQueued(s);
      assert false;
    }
  }

  lemma WaitedIsDone(task: Task)
    requires Sound(task) && 4 <= task.phase.Rank() <= 13 && !task.phase.IsCounted()
    ensures task.phase.Rank() >= 12 && FinalReplies(task.replies) == 1 && !task.phase.IsOpen()
  {
    hide Sound;
    ExpectedIsFinal(task);
  }

  // ------------------------------------------------------------------ replies

  lemma FinalOfTask(task: Task)
    requires Sound(task)
    ensures FinalReplies(task.replies) <= 1
    ensures !task.phase.InPipeline() && task.phase != Lost ==> FinalReplies(task.replies) == 1
    ensures task.phase.Rank() < 10 ==> FinalReplies(task.replies) == 0
  {
    if task.phase != Lost {
      hide Sound, FinalReplies;
      ExpectedIsFinal(task);
    } else {
      hide FinalReplies;
    }
  }

  /** At most one final reply to a request, ever; exactly one once it left the pipeline, unless a crash took it. */
  lemma OneFinalReply(es: seq<Event>, s: State, t: nat)
    requires Reaches(es, s) && t in s.tasks
    ensures FinalReplies(s.tasks[t].replies) <= 1
    ensures !s.tasks[t].phase.InPipeline() && s.tasks[t].phase != Lost ==> FinalReplies(s.tasks[t].replies) == 1
    ensures s.tasks[t].phase.Rank() < 10 ==> FinalReplies(s.tasks[t].replies) == 0
  {
    hide *;
    ReachedSound(es, s, t);
    FinalOfTask(s.tasks[t]);
  }

  function Conversation(cmd: Command, failed: bool): seq<Reply> {
    (if cmd.handshake then [Handshake] else []) + [if failed then Failed else Succeeded]
  }

  lemma SoundReplies(task: Task)
    requires Sound(task)
    ensures task.phase == Unknown ==> task.replies == [UnknownCommand]
    ensures task.phase == Rejected ==> task.replies == [Unauthorized]
    ensures task.phase == NotCreated ==> task.replies == [Failed]
    ensures task.phase == Completed ==> task.cmd.Some? && task.replies == Conversation(task.cmd.value, task.failed)
  {
    hide ResolvedBy, Auth.Refusal;
  }

  /** What exactly a request that left the pipeline was told, in order. */
  lemma RepliesSent(es: seq<Event>, s: State, t: nat)
    requires Reaches(es, s) && t in s.tasks
    ensures var task := s.tasks[t]; task.phase == Unknown ==> task.replies == [UnknownCommand]
    ensures var task := s.tasks[t]; task.phase == Rejected ==> task.replies == [Unauthorized]
    ensures var task := s.tasks[t]; task.phase == NotCreated ==> task.replies == [Failed]
    ensures var task := s.tasks[t];
      task.phase == Completed ==> task.cmd.Some? && task.replies == Conversation(task.cmd.value, task.failed)
  {
    hide *;
    ReachedSound(es, s, t);
    SoundReplies(s.tasks[t]);
  }

  // ---------------------------------------------------------------- admission

  /** Event n of the run finds task t in this phase, the one the Run loop is at, and in this configuration. */
  ghost predicate OwnTurn(es: seq<Event>, n: nat, t: nat, phase: Phase, world: World) {
    && n < |es| && Run(INITIAL, es[..n]).Some?
    && var b := Run(INITIAL, es[..n]).value;
       b.current == Some(t) && TaskIn(b, t, phase) && b.world == world
  }

  ghost predicate ResolvedAt(es: seq<Event>, n: nat, t: nat, world: World, seen: World) {
    OwnTurn(es, n, t, Received, world) && es[n].Resolve? && seen == Sight(world, es[n].commits)
  }

  ghost predicate CheckedAt(es: seq<Event>, n: nat, t: nat, world: World) {
    OwnTurn(es, n, t, Resolved, world) && es[n].Authorize?
  }

  ghost predicate Traced(es: seq<Event>, t: nat, task: Task) {
    && (task.resolvedIn.Some? ==> exists n, w :: ResolvedAt(es, n, t, w, task.resolvedIn.value))
    && (task.checkedIn.Some? ==> exists n :: CheckedAt(es, n, t, task.checkedIn.value))
  }

  lemma OwnTurnStill(es: seq<Event>, e: Event, n: nat, t: nat, phase: Phase, world: World)
    requires OwnTurn(es, n, t, phase, world)
    ensures OwnTurn(es + [e], n, t, phase, world) && (es + [e])[n] == es[n]
  {
    assert (es + [e])[..n] == es[..n];
  }

  lemma OwnTurnNow(es: seq<Event>, e: Event, s: State, t: nat, phase: Phase)
    requires Reaches(es, s) && s.current == Some(t) && TaskIn(s, t, phase)
    ensures OwnTurn(es + [e], |es|, t, phase, s.world) && (es + [e])[|es|] == e
  {
    assert (es + [e])[..|es|] == es;
  }

  lemma TracedMove(es: seq<Event>, e: Event, s: State, t: nat, now: Task)
    requires Reaches(es, s) && t in s.tasks && Traced(es, t, s.tasks[t]) && Remembers(s, e, t, now)
    ensures Traced(es + [e], t, now)
  {
    hide OwnTurn, Reaches;
    var was := s.tasks[t];
    if now.resolvedIn != was.resolvedIn {
      OwnTurnNow(es, e, s, t, Received);
      assert ResolvedAt(es + [e], |es|, t, s.world, now.resolvedIn.value);
    } else if now.resolvedIn.Some? {
      var n, w :| ResolvedAt(es, n, t, w, was.resolvedIn.value);
      OwnTurnStill(es, e, n, t, Received, w);
      assert ResolvedAt(es + [e], n, t, w, now.resolvedIn.value);
    }
    if now.checkedIn != was.checkedIn {
      OwnTurnNow(es, e, s, t, Resolved);
      assert CheckedAt(es + [e], |es|, t, now.checkedIn.value);
    } else if now.checkedIn.Some? {
      var n :| CheckedAt(es, n, t, was.checkedIn.value);
      OwnTurnStill(es, e, n, t, Resolved, was.checkedIn.value);
      assert CheckedAt(es + [e], n, t, now.checkedIn.value);
    }
  }

  lemma {:induction false} AllTraced(es: seq<Event>, s: State, t: nat)
    requires Reaches(es, s) && t in s.tasks
    ensures Traced(es, t, s.tasks[t])
    decreases |es|
  {
    hide Reaches, Traced;
    if es == [] {
      NoStep(s);
      assert false;
    } else {
      var front, before, e := LastStep(es, s);
      ReachedKeeps(front, before);
      if t in before.tasks {
        AllTraced(front, before, t);
        StepRemembers(before, e, s, t);
        TracedMove(front, e, before, t, s.tasks[t]);
      } else {
        StepRemembers(before, e, s, t);
        FreshTraced(es, t, s.tasks[t]);
      }
    }
  }

  lemma FreshTraced(es: seq<Event>, t: nat, task: Task)
    requires IsFresh(task)
    ensures Traced(es, t, task)
  {
  }

  ghost predicate TaskRemembers(s: State, e: Event, u: State, t: nat) {
    t in u.tasks && if t in s.tasks then Remembers(s, e, t, u.tasks[t]) else IsFresh(u.tasks[t])
  }

  lemma StepRemembers(s: State, e: Event, u: State, t: nat)
    requires Inv(s) && Enabled(s, e) && u == Step(s, e) && t in u.tasks
    ensures TaskRemembers(s, e, u, t)
  {
    hide Tickets, QueueInOrder, Memory, AllSound, Counters, Owners, RunningIndex, Contexts, MovesOnly, TaskRemembers;
    NextIsNew(s);
    if e.Dispatch? {
      HeadIsQueued(s);
    }
    OneMoves(s, e);
    if e.Crash? {
      CrashStep(s);
      hide Inv, Enabled, Step;
      CrashRemembers(s, t);
    } else {
      MoverRemembers(s, e, u, t);
    }
  }

  lemma MoverRemembers(s: State, e: Event, u: State, t: nat)
    requires Enabled(s, e) && MovesOnly(s, e) && u == Step(s, e) && t in u.tasks && !e.Crash?
    ensures TaskRemembers(s, e, u, t)
  {
    hide Step, Enabled, Mover, PassesFinish, Forward;
  }

  lemma CrashRemembers(s: State, t: nat)
    requires t in s.tasks
    ensures TaskRemembers(s, Crash, AfterCrash(s), t)
  {
    hide Members;
  }

  /** At its own Resolve step, in the registry and aliases of that moment, Find made this of the task's request. */
  ghost predicate OwnResolution(es: seq<Event>, t: nat, task: Task) {
    exists n, world, seen ::
      ResolvedAt(es, n, t, world, seen) && ResolvedBy(task.original, task.request, task.cmd, seen)
  }

  /** At its own Authorize step, with the groups of that moment, Check refused the task or let it pass. */
  ghost predicate OwnCheck(es: seq<Event>, t: nat, task: Task, refused: bool)
    requires task.cmd.Some?
  {
    exists n, world :: CheckedAt(es, n, t, world) && (RefusedIn(task, world) <==> refused)
  }

  lemma TracedResolution(es: seq<Event>, t: nat, task: Task)
    requires Traced(es, t, task) && Sound(task) && task.phase != Lost && task.phase != Received
    ensures OwnResolution(es, t, task) && (task.cmd.Some? <==> task.phase != Unknown)
  {
    hide OwnTurn, ResolvedBy, RefusedIn, ExpectedReplies, FinalReplies;
    var n, w :| ResolvedAt(es, n, t, w, task.resolvedIn.value);
    assert ResolvedBy(task.original, task.request, task.cmd, task.resolvedIn.value);
  }

  lemma TracedCheck(es: seq<Event>, t: nat, task: Task)
    requires Traced(es, t, task) && Sound(task)
    requires 2 <= task.phase.Rank() <= 13 || task.phase == NotCreated || task.phase == Rejected
    ensures task.cmd.Some? && OwnCheck(es, t, task, task.phase == Rejected)
  {
    hide OwnTurn, ResolvedBy, RefusedIn, ExpectedReplies, FinalReplies;
    var n :| CheckedAt(es, n, t, task.checkedIn.value);
    assert RefusedIn(task, task.checkedIn.value) <==> task.phase == Rejected;
  }

  /**
   * What Find found for a request at that request's own Resolve step is what its task carries: no command
   * exactly when it was answered as unknown.
   */
  lemma ResolvedAtOwnStep(es: seq<Event>, s: State, t: nat)
    requires Reaches(es, s) && t in s.tasks && s.tasks[t].phase != Lost && s.tasks[t].phase != Received
    ensures OwnResolution(es, t, s.tasks[t])
    ensures s.tasks[t].cmd.Some? <==> s.tasks[t].phase != Unknown
  {
    hide *;
    ReachedSound(es, s, t);
    AllTraced(es, s, t);
    TracedResolution(es, t, s.tasks[t]);
  }

  /**
   * A task is created, counted, queued or executed only if Check returned no error for its request and command
   * at the task's own Authorize step, with the groups in force at that step; it is rejected only if Check did.
   */
  lemma OnlyAdmittedRun(es: seq<Event>, s: State, t: nat)
    requires Reaches(es, s) && t in s.tasks
    requires var p := s.tasks[t].phase; 2 <= p.Rank() <= 13 || p == NotCreated || p == Rejected
    ensures s.tasks[t].cmd.Some? && OwnCheck(es, t, s.tasks[t], s.tasks[t].phase == Rejected)
  {
    hide *;
    ReachedSound(es, s, t);
    AllTraced(es, s, t);
    TracedCheck(es, t, s.tasks[t]);
  }

  lemma PassedMeans(world: World, task: Task)
    requires task.cmd.Some? && !RefusedIn(task, world)
    ensures var cmd, req := task.cmd.value, task.request;
      && (cmd.authStrategy == "any" || cmd.authStrategy == "group")
      && (cmd.authStrategy == "group" ==>
            exists g :: g in cmd.allowedGroups && g in world.groups && req.username in world.groups[g])
      && (cmd.channelStrategy == "im_only" ==> req.isIM)
      && (cmd.channelStrategy == "channel" ==> req.channel in cmd.allowedChannels)
  {
    Auth.RefusedExactly(world.groups, task.request, task.cmd.value);
    hide Auth.Refusal;
  }

  lemma RefusedMeans(world: World, task: Task)
    requires task.cmd.Some? && RefusedIn(task, world)
    ensures var cmd, req := task.cmd.value, task.request;
      || (cmd.authStrategy != "any" && cmd.authStrategy != "group")
      || (cmd.authStrategy == "group"
          && forall g :: g in cmd.allowedGroups && g in world.groups ==> req.username !in world.groups[g])
      || (cmd.channelStrategy == "im_only" && !req.isIM)
      || (cmd.channelStrategy == "channel" && req.channel !in cmd.allowedChannels)
  {
    Auth.RefusedExactly(world.groups, task.request, task.cmd.value);
    hide Auth.Refusal;
  }

  /**
   * No task of a group command gets past authorisation unless its user was, at the task's own Authorize step, a
   * member of one of the command's groups; none of a command closed to all; and the command's channels are kept to.
   */
  lemma OnlyMembersRun(es: seq<Event>, s: State, t: nat)
    requires Reaches(es, s) && t in s.tasks
    requires 2 <= s.tasks[t].phase.Rank() <= 13 || s.tasks[t].phase == NotCreated
    ensures s.tasks[t].cmd.Some?
    ensures var cmd, req := s.tasks[t].cmd.value, s.tasks[t].request;
      && (cmd.authStrategy == "any" || cmd.authStrategy == "group")
      && (cmd.authStrategy == "group" ==>
            exists n, world, g ::
              CheckedAt(es, n, t, world) && g in cmd.allowedGroups
              && g in world.groups && req.username in world.groups[g])
      && (cmd.channelStrategy == "im_only" ==> req.isIM)
      && (cmd.channelStrategy == "channel" ==> req.channel in cmd.allowedChannels)
  {
    var task := s.tasks[t];
    NotRejected(task);
    OnlyAdmittedRun(es, s, t);
    hide Reaches, CheckedAt, RefusedIn, Phase.Rank;
    var n, world :| CheckedAt(es, n, t, world) && !RefusedIn(task, world);
    PassedMeans(world, task);
    if task.cmd.value.authStrategy == "group" {
      var g :| g in task.cmd.value.allowedGroups && g in world.groups && task.request.username in world.groups[g];
    }
  }

  lemma NotRejected(task: Task)
    requires 2 <= task.phase.Rank() <= 13 || task.phase == NotCreated
    ensures task.phase != Rejected
  {
  }

  /** A request is rejected only for one of the documented reasons, as of its own Authorize step. */
  lemma RejectedForAReason(es: seq<Event>, s: State, t: nat)
    requires Reaches(es, s) && t in s.tasks && s.tasks[t].phase == Rejected
    ensures s.tasks[t].cmd.Some?
    ensures var cmd, req := s.tasks[t].cmd.value, s.tasks[t].request;
      exists n, world :: CheckedAt(es, n, t, world)
        && (|| (cmd.authStrategy != "any" && cmd.authStrategy != "group")
            || (cmd.authStrategy == "group"
                && forall g :: g in cmd.allowedGroups && g in world.groups ==> req.username !in world.groups[g])
            || (cmd.channelStrategy == "im_only" && !req.isIM)
            || (cmd.channelStrategy == "channel" && req.channel !in cmd.allowedChannels))
  {
    OnlyAdmittedRun(es, s, t);
    hide Reaches, CheckedAt, RefusedIn;
    var n, world :| CheckedAt(es, n, t, world) && RefusedIn(s.tasks[t], world);
    RefusedMeans(world, s.tasks[t]);
  }

  lemma NumbersInOrder(s: State, t: nat, u: nat)
    requires Owners(s) && t in s.tasks && u in s.tasks
    ensures t < u && s.tasks[t].jobID != 0 && s.tasks[u].jobID != 0 ==> s.tasks[t].jobID < s.tasks[u].jobID
  {
    assert InOrder(s, t, u);
  }

  /** The channel never overfills and is first in, first out; recorded jobs are numbered in order of arrival. */
  lemma InArrivalOrder(es: seq<Event>, s: State)
    requires Reaches(es, s)
    ensures |s.queue| <= 20
    ensures forall i :: 0 <= i < |s.queue| ==> TaskIn(s, s.queue[i], Queued)
    ensures forall i, j :: 0 <= i < j < |s.queue| ==> s.queue[i] < s.queue[j]
    ensures forall t, u :: t in s.tasks && u in s.tasks && t < u && s.tasks[t].jobID != 0 && s.tasks[u].jobID != 0 ==>
      s.tasks[t].jobID < s.tasks[u].jobID
  {
    hide *;
    ReachedParts(es, s);
    QueueParts(s);
    forall t, u | t in s.tasks && u in s.tasks && t < u && s.tasks[t].jobID != 0 && s.tasks[u].jobID != 0
      ensures s.tasks[t].jobID < s.tasks[u].jobID
    {
      NumbersInOrder(s, t, u);
    }
  }

  lemma QueueParts(s: State)
    requires QueueInOrder(s)
    ensures |s.queue| <= 20
    ensures forall i :: 0 <= i < |s.queue| ==> TaskIn(s, s.queue[i], Queued)
    ensures forall i, j :: 0 <= i < j < |s.queue| ==> s.queue[i] < s.queue[j]
  {
  }
}
