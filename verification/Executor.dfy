/**
 * meeseeks/executor/executor.go as a step system: the Run loop, the goroutine
 * per task, the cancel map and the job table, with crashes and restarts.
 */
module Executor {
  import Aliases
  import Auth
  import Commands
  import opened Bytes
  import opened JobTable
  import opened Keys
  import opened Meeseeks
  import opened Wrappers

  // -------------------------------------------------------- active commands

  /** ctx maps a job ID to the task whose cancel function it holds; invoked counts the calls of each. */
  datatype Active = Active(ctx: map<uint64, nat>, invoked: multiset<nat>) {

    function Add(id: uint64, ticket: nat): Active {
      this.(ctx := ctx[id := ticket])
    }

    function Cancel(id: uint64): Active {
      if id in ctx then Active(ctx - {id}, invoked + multiset{ctx[id]}) else this
    }
  }

  class ActiveCommands {
    var ctx: map<uint64, nat>
    ghost var invoked: multiset<nat>

    ghost function State(): Active
      reads this
    {
      Active.Active(ctx, invoked)
    }

    constructor ()
      ensures State() == Active.Active(map[], multiset{})
    {
      ctx, invoked := map[], multiset{};
    }

    /** The ticket stands for the cancel function made by context.WithCancel. */
    method Add(id: uint64, ticket: nat)
      modifies this
      ensures State() == old(State()).Add(id, ticket)
      ensures ctx == old(ctx)[id := ticket] && invoked == old(invoked)
    {
      ctx := ctx[id := ticket];
    }

    method Cancel(id: uint64)
      modifies this
      ensures State() == old(State()).Cancel(id)
      ensures ctx == old(ctx) - {id}
      ensures invoked == if id in old(ctx) then old(invoked) + multiset{old(ctx)[id]} else old(invoked)
    {
      if id !in ctx {
        return;
      }
      var cancel := ctx[id];
      ctx := ctx - {id};
      invoked := invoked + multiset{cancel};
    }
  }

  // ------------------------------------------------------------------ state

  const TASKS_CAPACITY := 20

  datatype Reply = UnknownCommand | Unauthorized | Handshake | Failed | Succeeded

  datatype Phase =
    | Received   // read from the requests channel
    | Resolved   // found a command
    | Authorized
    | Created    // holds its job
    | Counted    // after wg.Add, waiting to be sent
    | Queued     // in the tasks channel
    | Spawned    // taken by a goroutine
    | Greeted    // past the handshake
    | Executing  // its context is registered
    | Executed
    | Answered   // final reply sent
    | Finished   // Fail or Succeed called
    | Waited     // after wg.Done
    | Completed  // deferred Cancel has run
    | Unknown
    | Rejected
    | NotCreated
    | Lost       // was in the pipeline when the process died
  {
    /** Position in the pipeline. */
    function Rank(): int {
      match this
      case Received => 0 case Resolved => 1 case Authorized => 2 case Created => 3
      case Counted => 4 case Queued => 5 case Spawned => 6 case Greeted => 7
      case Executing => 8 case Executed => 9 case Answered => 10 case Finished => 11
      case Waited => 12 case Completed => 13
      case Unknown => 20 case Rejected => 21 case NotCreated => 22 case Lost => 23
    }

    predicate InPipeline() { Rank() <= 12 }
    predicate InRunLoop() { Rank() <= 4 }
    /** Between wg.Add and wg.Done. */
    predicate IsCounted() { 4 <= Rank() <= 11 }
    /** Between the creation of the job and the call of Fail or Succeed. */
    predicate IsOpen() { 3 <= Rank() <= 10 }
    /** Between Add and the deferred Cancel. */
    predicate HasContext() { 8 <= Rank() <= 12 }
  }

  /** The configuration that commands are resolved and authorised with. */
  datatype World = World(commands: Commands.Table, aliases: Aliases.Table, groups: Auth.Groups)

  /** A request on its way; resolvedIn and checkedIn remember the world at those two steps. */
  datatype Task = Task(
    original: Request,
    request: Request,
    cmd: Option<Command>,
    jobID: uint64,
    failed: bool,
    phase: Phase,
    replies: seq<Reply>,
    resolvedIn: Option<World>,
    checkedIn: Option<World>)

  datatype Counts = Counts(unknown: int, rejected: int, notCreated: int, completed: int, lost: int)

  /**
   * tasks, owner, lost and counts are the history of the system; the rest is what
   * the process and its database hold. lost lists the running jobs no task will finish.
   */
  datatype State = State(
    up: bool,
    closed: bool,
    world: World,
    table: Table,
    received: nat,
    current: Option<nat>,
    queue: seq<nat>,
    wg: int,
    active: Active,
    tasks: map<nat, Task>,
    owner: map<uint64, nat>,
    lost: set<uint64>,
    counts: Counts)

  const INITIAL := State(false, false, World(map[], map[], map[]), EMPTY, 0, None, [], 0,
                         Active.Active(map[], multiset{}), map[], map[], {}, Counts(0, 0, 0, 0, 0))

  // ----------------------------------------------------------------- events

  /** commits says whether a database transaction commits; failed, how a command's execution ends. */
  datatype Event =
    | Receive(req: Request)
    | Resolve(commits: bool)
    | Authorize
    | Create(now: int, commits: bool)
    | Count
    | Send
    | Dispatch
    | Greet(t: nat)
    | Activate(t: nat)
    | Execute(t: nat, failed: bool)
    | Answer(t: nat)
    | Finish(t: nat, now: int, commits: bool)
    | Done(t: nat)
    | Release(t: nat)
    | CancelJob(caller: Text, id: uint64)
    | KillJob(id: uint64)
    | CloseAfterWait
    | Change(world: World)
    | Crash
    | Restart(now: int)

  predicate CurrentIn(s: State, phase: Phase) {
    s.current.Some? && s.current.value in s.tasks && s.tasks[s.current.value].phase == phase
  }

  predicate TaskIn(s: State, t: nat, phase: Phase) {
    t in s.tasks && s.tasks[t].phase == phase
  }

  /** The steps the program can take. Recording a job needs a number left in the 64-bit sequence. */
  predicate Enabled(s: State, e: Event) {
    match e
    case Receive(_) => s.up && s.current.None?
    case Resolve(_) => CurrentIn(s, Received)
    case Authorize => CurrentIn(s, Resolved) && s.tasks[s.current.value].cmd.Some?
    case Create(_, commits) =>
      && CurrentIn(s, Authorized) && s.tasks[s.current.value].cmd.Some?
      && (s.tasks[s.current.value].cmd.value.record && commits ==> s.table.sequence < MAX_UINT64)
    case Count => CurrentIn(s, Created)
    case Send => CurrentIn(s, Counted) && |s.queue| < TASKS_CAPACITY && !s.closed
    case Dispatch => s.queue != [] && s.queue[0] in s.tasks
    case Greet(t) => TaskIn(s, t, Spawned) && s.tasks[t].cmd.Some?
    case Activate(t) => TaskIn(s, t, Greeted)
    case Execute(t, _) => TaskIn(s, t, Executing)
    case Answer(t) => TaskIn(s, t, Executed)
    case Finish(t, _, _) => TaskIn(s, t, Answered)
    case Done(t) => TaskIn(s, t, Finished)
    case Release(t) => TaskIn(s, t, Waited)
    case CancelJob(_, _) => s.up
    case KillJob(_) => s.up
    case CloseAfterWait => s.up && !s.closed && s.wg == 0
    case Change(_) => true
    case Crash => s.up
    case Restart(_) => !s.up
  }

  function WithTask(s: State, t: nat, task: Task): State {
    s.(tasks := s.tasks[t := task])
  }

  /** The Run loop is done with the current request, whose task is task. */
  function Dropped(s: State, task: Task, phase: Phase, reply: Reply): State
    requires s.current.Some?
  {
    WithTask(s, s.current.value, task.(phase := phase, replies := task.replies + [reply])).(current := None)
  }

  /** The configuration Find sees: no aliases when their transaction fails. */
  function Sight(world: World, commits: bool): World {
    if commits then world else world.(aliases := map[])
  }

  function AfterResolve(s: State, commits: bool): State
    requires Enabled(s, Resolve(commits))
  {
    var t := s.current.value;
    var original := s.tasks[t].original;
    var world := Sight(s.world, commits);
    var found := Commands.Found(world.commands, Commands.AliasIn(world.aliases, original), original);
    var task := s.tasks[t].(request := found.0, cmd := found.1, resolvedIn := Some(world));
    if found.1.None? then
      Dropped(s, task, Unknown, UnknownCommand).(counts := s.counts.(unknown := s.counts.unknown + 1))
    else
      WithTask(s, t, task.(phase := Resolved))
  }

  function AfterAuthorize(s: State): State
    requires Enabled(s, Authorize)
  {
    var t := s.current.value;
    var task := s.tasks[t].(checkedIn := Some(s.world));
    if Auth.Refusal(s.world.groups, task.request, task.cmd.value).Some? then
      Dropped(s, task, Rejected, Unauthorized).(counts := s.counts.(rejected := s.counts.rejected + 1))
    else
      WithTask(s, t, task.(phase := Authorized))
  }

  function AfterCreate(s: State, now: int, commits: bool): State
    requires Enabled(s, Create(now, commits))
  {
    var t := s.current.value;
    var task := s.tasks[t];
    if !task.cmd.value.record then
      WithTask(s, t, task.(phase := Created, jobID := NullJob(task.request, now).id))
    else if !commits then
      Dropped(s, task, NotCreated, Failed).(counts := s.counts.(notCreated := s.counts.notCreated + 1))
    else
      var id := NextID(s.table);
      WithTask(s, t, task.(phase := Created, jobID := id)).(
        table := JobTable.Created(s.table, task.request, now),
        owner := s.owner[id := t])
  }

  function AfterFinishCall(s: State, t: nat, now: int, commits: bool): State
    requires Enabled(s, Finish(t, now, commits))
  {
    var task := s.tasks[t];
    var status := if task.failed then FAILED else SUCCESSFUL;
    WithTask(s, t, task.(phase := Finished)).(
      table := if commits then AfterFinish(s.table, task.jobID, status, now) else s.table,
      lost := if commits || task.jobID == 0 then s.lost else s.lost + {task.jobID})
  }

  function CrashedTasks(tasks: map<nat, Task>): map<nat, Task> {
    map t | t in tasks :: if tasks[t].phase.InPipeline() then tasks[t].(phase := Lost) else tasks[t]
  }

  /** Memory is gone; the database, and the history, stay. */
  function AfterCrash(s: State): State {
    s.(up := false, closed := false, current := None, queue := [], wg := 0,
       active := s.active.(ctx := map[]),
       tasks := CrashedTasks(s.tasks),
       lost := s.table.running,
       counts := s.counts.(lost := s.counts.lost + |Members(s.tasks, Pipeline)|))
  }

  datatype Group = Pipeline | WaitGroup | At(phase: Phase)

  predicate Belongs(phase: Phase, group: Group) {
    match group
    case Pipeline => phase.InPipeline()
    case WaitGroup => phase.IsCounted()
    case At(p) => phase == p
  }

  function Members(tasks: map<nat, Task>, group: Group): set<nat> {
    set t | t in tasks && Belongs(tasks[t].phase, group)
  }

  /** cancelJobCommand.Execute: a job that exists and belongs to the caller. */
  predicate MayCancel(table: Table, caller: Text, id: uint64) {
    id in table.jobs && table.jobs[id].request.username == caller
  }

  function Step(s: State, e: Event): State
    requires Enabled(s, e)
  {
    match e
    case Receive(req) =>
      WithTask(s, s.received, Task(req, req, None, 0, false, Received, [], None, None)).(
        received := s.received + 1, current := Some(s.received))
    case Resolve(commits) => AfterResolve(s, commits)
    case Authorize => AfterAuthorize(s)
    case Create(now, commits) => AfterCreate(s, now, commits)
    case Count =>
      var t := s.current.value;
      WithTask(s, t, s.tasks[t].(phase := Counted)).(wg := s.wg + 1)
    case Send =>
      var t := s.current.value;
      WithTask(s, t, s.tasks[t].(phase := Queued)).(queue := s.queue + [t], current := None)
    case Dispatch =>
      var t := s.queue[0];
      WithTask(s, t, s.tasks[t].(phase := Spawned)).(queue := s.queue[1..])
    case Greet(t) =>
      var task := s.tasks[t];
      WithTask(s, t, task.(phase := Greeted, replies := task.replies + Greeting(task.cmd.value)))
    case Activate(t) =>
      WithTask(s, t, s.tasks[t].(phase := Executing)).(active := s.active.Add(s.tasks[t].jobID, t))
    case Execute(t, failed) =>
      WithTask(s, t, s.tasks[t].(phase := Executed, failed := failed))
    case Answer(t) =>
      var task := s.tasks[t];
      WithTask(s, t, task.(phase := Answered, replies := task.replies + [FinalReply(task.failed)]))
    case Finish(t, now, commits) => AfterFinishCall(s, t, now, commits)
    case Done(t) =>
      WithTask(s, t, s.tasks[t].(phase := Waited)).(wg := s.wg - 1)
    case Release(t) =>
      WithTask(s, t, s.tasks[t].(phase := Completed)).(
        active := s.active.Cancel(s.tasks[t].jobID),
        counts := s.counts.(completed := s.counts.completed + 1))
    case CancelJob(caller, id) =>
      if MayCancel(s.table, caller, id) then s.(active := s.active.Cancel(id)) else s
    case KillJob(id) =>
      if id in s.table.jobs then s.(active := s.active.Cancel(id)) else s
    case CloseAfterWait => s.(closed := true)
    case Change(world) => s.(world := world)
    case Crash => AfterCrash(s)
    case Restart(now) => s.(up := true, table := Killed(s.table, now), lost := {})
  }

  function Greeting(cmd: Command): seq<Reply> {
    if cmd.handshake then [Handshake] else []
  }

  function FinalReply(failed: bool): Reply {
    if failed then Failed else Succeeded
  }

  /** The state after a run of events; None when some event could not happen. */
  function Run(s: State, es: seq<Event>): Option<State> {
    if es == [] then Some(s) else
      var before := Run(s, es[..|es| - 1]);
      var e := es[|es| - 1];
      if before.Some? && Enabled(before.value, e) then Some(Step(before.value, e)) else None
  }
}
