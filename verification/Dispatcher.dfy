/** meeseeks/executor/executor.go as an object whose methods follow the step system. */
module Dispatcher {
  import Aliases
  import Auth
  import Commands
  import Jobs
  import opened Executor
  import opened JobTable
  import opened Keys
  import opened Meeseeks
  import opened Wrappers

  /** What travels on the tasks channel; the ticket names the goroutine's cancel function. */
  datatype Work = Work(job: Job, cmd: Command, ticket: nat)

  predicate Carries(task: Task, w: Work) {
    task.cmd == Some(w.cmd) && task.jobID == w.job.id && task.request == w.job.request
  }

  // ------------------------------------------------------------- short runs

  lemma RunOn(s: State, es: seq<Event>, t: State, e: Event) returns (fs: seq<Event>, u: State)
    requires Run(s, es) == Some(t) && Enabled(t, e)
    ensures Run(s, fs) == Some(u) && u == Step(t, e)
  {
    hide Enabled, Step;
    fs, u := es + [e], Step(t, e);
    assert (es + [e])[..|es|] == es;
  }

  lemma RunNone(s: State)
    ensures Run(s, []) == Some(s)
  {
  }

  /** Only task t differs, and whether the Run loop still has it. */
  ghost predicate OnlyTask(s: State, u: State, t: nat, phase: Phase, replies: seq<Reply>, current: Option<nat>) {
    && t in u.tasks && u.tasks == s.tasks[t := u.tasks[t]]
    && u.tasks[t].phase == phase && u.tasks[t].replies == replies
    && u.current == current
    && u.up == s.up && u.closed == s.closed && u.world == s.world && u.queue == s.queue && u.active == s.active
  }

  function Sought(s: State, req: Request, commits: bool): (Request, Option<Command>) {
    Commands.Found(s.world.commands, Commands.AliasIn(if commits then s.world.aliases else map[], req), req)
  }

  lemma ToReceived(s: State, req: Request) returns (es: seq<Event>, u: State)
    requires s.up && s.current.None?
    ensures Run(s, es) == Some(u)
    ensures OnlyTask(s, u, s.received, Received, [], Some(s.received))
    ensures u.received == s.received + 1 && u.table == s.table && u.wg == s.wg
    ensures u.tasks[s.received].original == req && u.tasks[s.received].jobID == 0
  {
    hide Run, AfterResolve, AfterAuthorize, AfterCreate, AfterFinishCall, AfterCrash, Killed;
    RunNone(s);
    es, u := RunOn(s, [], s, Receive(req));
  }

  lemma ToResolved(s: State, es: seq<Event>, m: State, t: nat, commits: bool) returns (fs: seq<Event>, u: State)
    requires Run(s, es) == Some(m) && m.current == Some(t) && TaskIn(m, t, Received)
    requires m.tasks[t].replies == [] && m.tasks[t].jobID == 0
    ensures Run(s, fs) == Some(u) && u.received == m.received && u.table == m.table && u.wg == m.wg
    ensures var found := Sought(m, m.tasks[t].original, commits);
      && (if found.1.None? then OnlyTask(m, u, t, Unknown, [UnknownCommand], None)
          else OnlyTask(m, u, t, Resolved, [], Some(t)))
      && (found.1.Some? ==> u.tasks[t].request == found.0 && u.tasks[t].cmd == found.1 && u.tasks[t].jobID == 0)
  {
    hide Run;
    ResolvedState(m, t, commits);
    fs, u := RunOn(s, es, m, Resolve(commits));
    hide AfterResolve, AfterAuthorize, AfterCreate, AfterFinishCall, AfterCrash, Killed, Sought, OnlyTask;
  }

  lemma ResolvedState(m: State, t: nat, commits: bool)
    requires m.current == Some(t) && TaskIn(m, t, Received) && m.tasks[t].replies == [] && m.tasks[t].jobID == 0
    ensures var u, found := AfterResolve(m, commits), Sought(m, m.tasks[t].original, commits);
      && u.received == m.received && u.table == m.table && u.wg == m.wg
      && (if found.1.None? then OnlyTask(m, u, t, Unknown, [UnknownCommand], None)
          else OnlyTask(m, u, t, Resolved, [], Some(t)))
      && (found.1.Some? ==> u.tasks[t].request == found.0 && u.tasks[t].cmd == found.1 && u.tasks[t].jobID == 0)
  {
    SoughtInSight(m, m.tasks[t].original, commits);
    hide Commands.Found, Commands.AliasIn, Sought, Sight;
  }

  lemma SoughtInSight(m: State, req: Request, commits: bool)
    ensures var w := Sight(m.world, commits);
      Commands.Found(w.commands, Commands.AliasIn(w.aliases, req), req) == Sought(m, req, commits)
  {
  }

  lemma ToAuthorized(s: State, es: seq<Event>, m: State, t: nat) returns (fs: seq<Event>, u: State)
    requires Run(s, es) == Some(m) && m.current == Some(t) && TaskIn(m, t, Resolved) && m.tasks[t].cmd.Some?
    requires m.tasks[t].replies == []
    ensures Run(s, fs) == Some(u) && u.received == m.received && u.table == m.table && u.wg == m.wg
    ensures
      if Auth.Refusal(m.world.groups, m.tasks[t].request, m.tasks[t].cmd.value).Some? then
        OnlyTask(m, u, t, Rejected, [Unauthorized], None)
      else OnlyTask(m, u, t, Authorized, [], Some(t))
    ensures u.tasks[t].request == m.tasks[t].request && u.tasks[t].cmd == m.tasks[t].cmd
    ensures u.tasks[t].jobID == m.tasks[t].jobID
  {
    hide Run, AfterResolve, AfterCreate, AfterFinishCall, AfterCrash, Killed, Auth.Refusal;
    fs, u := RunOn(s, es, m, Authorize);
  }

  /** Creating the task: its job and the table, or the failure. */
  lemma ToCreated(s: State, es: seq<Event>, m: State, t: nat, now: int, commits: bool)
    returns (fs: seq<Event>, u: State)
    requires Run(s, es) == Some(m) && m.current == Some(t) && TaskIn(m, t, Authorized) && m.tasks[t].cmd.Some?
    requires m.tasks[t].replies == [] && m.tasks[t].jobID == 0
    requires m.tasks[t].cmd.value.record && commits ==> m.table.sequence < MAX_UINT64
    ensures Run(s, fs) == Some(u) && u.received == m.received && u.wg == m.wg && t in u.tasks
    ensures u.tasks[t].request == m.tasks[t].request && u.tasks[t].cmd == m.tasks[t].cmd
    ensures var record := m.tasks[t].cmd.value.record;
      if record && !commits then OnlyTask(m, u, t, NotCreated, [Failed], None) && u.table == m.table
      else
        && OnlyTask(m, u, t, Created, [], Some(t)) && u.tasks[t].jobID == (if record then NextID(m.table) else 0)
        && u.table == if record then JobTable.Created(m.table, m.tasks[t].request, now) else m.table
  {
    hide Run, AfterResolve, AfterAuthorize, AfterFinishCall, AfterCrash, Killed, JobTable.Created, NextID;
    fs, u := RunOn(s, es, m, Create(now, commits));
  }

  lemma ToCounted(s: State, es: seq<Event>, m: State, t: nat) returns (fs: seq<Event>, u: State)
    requires Run(s, es) == Some(m) && m.current == Some(t) && TaskIn(m, t, Created)
    ensures Run(s, fs) == Some(u) && u.received == m.received && u.table == m.table && u.wg == m.wg + 1
    ensures OnlyTask(m, u, t, Counted, m.tasks[t].replies, Some(t))
    ensures u.tasks[t].request == m.tasks[t].request && u.tasks[t].cmd == m.tasks[t].cmd
    ensures u.tasks[t].jobID == m.tasks[t].jobID
  {
    hide Run, AfterResolve, AfterAuthorize, AfterCreate, AfterFinishCall, AfterCrash, Killed;
    fs, u := RunOn(s, es, m, Count);
  }

  /** What the Run loop makes of a request. */
  ghost predicate Accepts(s: State, u: State, req: Request, now: int, found: bool, recorded: bool) {
    var t, r, sought := s.received, Sought(s, req, found).0, Sought(s, req, found).1;
    u.received == t + 1 &&
    if sought.None? then
      OnlyTask(s, u, t, Unknown, [UnknownCommand], None) && u.table == s.table && u.wg == s.wg
    else
      var cmd := sought.value;
      if Auth.Refusal(s.world.groups, r, cmd).Some? then
        OnlyTask(s, u, t, Rejected, [Unauthorized], None) && u.table == s.table && u.wg == s.wg
      else if cmd.record && !recorded then
        OnlyTask(s, u, t, NotCreated, [Failed], None) && u.table == s.table && u.wg == s.wg
      else
        && OnlyTask(s, u, t, Counted, [], Some(t)) && u.wg == s.wg + 1
        && u.table == (if cmd.record then JobTable.Created(s.table, r, now) else s.table)
        && u.tasks[t].request == r && u.tasks[t].cmd == sought
        && u.tasks[t].jobID == if cmd.record then NextID(s.table) else 0
  }

  /** The request will take a number from the sequence. */
  predicate TakesNumber(s: State, req: Request, found: bool, recorded: bool) {
    var r, sought := Sought(s, req, found).0, Sought(s, req, found).1;
    sought.Some? && Auth.Refusal(s.world.groups, r, sought.value).None? && sought.value.record && recorded
  }

  lemma OnlyTaskTwice(s: State, m: State, u: State, t: nat)
    requires t in m.tasks && t in u.tasks
    requires OnlyTask(s, m, t, m.tasks[t].phase, m.tasks[t].replies, m.current)
    requires OnlyTask(m, u, t, u.tasks[t].phase, u.tasks[t].replies, u.current)
    ensures OnlyTask(s, u, t, u.tasks[t].phase, u.tasks[t].replies, u.current)
  {
  }

  /** The Run loop up to the check: what was sought and whether it was allowed. */
  ghost predicate Admits(s: State, u: State, req: Request, found: bool) {
    var t, r, sought := s.received, Sought(s, req, found).0, Sought(s, req, found).1;
    && u.received == t + 1 && u.table == s.table && u.wg == s.wg
    && if sought.None? then OnlyTask(s, u, t, Unknown, [UnknownCommand], None)
       else if Auth.Refusal(s.world.groups, r, sought.value).Some? then
         OnlyTask(s, u, t, Rejected, [Unauthorized], None)
       else
         && OnlyTask(s, u, t, Authorized, [], Some(t))
         && u.tasks[t].request == r && u.tasks[t].cmd == sought && u.tasks[t].jobID == 0
  }

  lemma AdmitRun(s: State, req: Request, found: bool) returns (es: seq<Event>, u: State)
    requires s.up && s.current.None?
    ensures Run(s, es) == Some(u) && Admits(s, u, req, found)
  {
    hide Run, Sought, Auth.Refusal;
    var t := s.received;
    var m: State;
    es, m := ToReceived(s, req);
    SoughtSame(s, m, req, found);
    es, u := ToResolved(s, es, m, t, found);
    OnlyTaskTwice(s, m, u, t);
    if u.current.Some? {
      m := u;
      es, u := ToAuthorized(s, es, m, t);
      OnlyTaskTwice(s, m, u, t);
    }
  }

  lemma AcceptRun(s: State, req: Request, now: int, found: bool, recorded: bool) returns (es: seq<Event>, u: State)
    requires s.up && s.current.None? && (TakesNumber(s, req, found, recorded) ==> s.table.sequence < MAX_UINT64)
    ensures Run(s, es) == Some(u) && Accepts(s, u, req, now, found, recorded)
  {
    hide Run, Sought, Auth.Refusal, JobTable.Created, NextID;
    var t := s.received;
    es, u := AdmitRun(s, req, found);
    if u.current.Some? {
      var m := u;
      es, u := ToCreated(s, es, m, t, now, recorded);
      OnlyTaskTwice(s, m, u, t);
      if u.current.Some? {
        m := u;
        es, u := ToCounted(s, es, m, t);
        OnlyTaskTwice(s, m, u, t);
      }
    }
  }

  lemma SoughtSame(s: State, u: State, req: Request, found: bool)
    requires u.world == s.world
    ensures Sought(u, req, found) == Sought(s, req, found)
  {
  }

  /** s with task t changed to task. */
  function Altered(s: State, t: nat, task: Task): State {
    s.(tasks := s.tasks[t := task])
  }

  lemma ToQueued(s: State, t: nat) returns (es: seq<Event>, u: State)
    requires s.current == Some(t) && TaskIn(s, t, Counted) && |s.queue| < TASKS_CAPACITY && !s.closed
    ensures Run(s, es) == Some(u)
    ensures u == Altered(s, t, s.tasks[t].(phase := Queued)).(queue := s.queue + [t], current := None)
  {
    hide Run, AfterResolve, AfterAuthorize, AfterCreate, AfterFinishCall, AfterCrash, Killed;
    RunNone(s);
    es, u := RunOn(s, [], s, Send);
  }

  lemma ToSpawned(s: State) returns (es: seq<Event>, u: State)
    requires s.queue != [] && s.queue[0] in s.tasks
    ensures Run(s, es) == Some(u)
    ensures var t := s.queue[0]; u == Altered(s, t, s.tasks[t].(phase := Spawned)).(queue := s.queue[1..])
  {
    hide Run, AfterResolve, AfterAuthorize, AfterCreate, AfterFinishCall, AfterCrash, Killed;
    RunNone(s);
    es, u := RunOn(s, [], s, Dispatch);
  }

  lemma ToExecuting(s: State, t: nat) returns (es: seq<Event>, u: State)
    requires TaskIn(s, t, Spawned) && s.tasks[t].cmd.Some?
    ensures Run(s, es) == Some(u)
    ensures var task := s.tasks[t];
      u == Altered(s, t, task.(phase := Executing, replies := task.replies + Greeting(task.cmd.value))).(
             active := s.active.Add(task.jobID, t))
  {
    hide Run, AfterResolve, AfterAuthorize, AfterCreate, AfterFinishCall, AfterCrash, Killed, Greeting;
    RunNone(s);
    es, u := RunOn(s, [], s, Greet(t));
    es, u := RunOn(s, es, u, Activate(t));
  }

  lemma ToAnswered(s: State, es: seq<Event>, m: State, t: nat, failed: bool) returns (fs: seq<Event>, u: State)
    requires Run(s, es) == Some(m) && TaskIn(m, t, Executing)
    ensures Run(s, fs) == Some(u)
    ensures var task := m.tasks[t];
      u == Altered(m, t, task.(phase := Answered, failed := failed, replies := task.replies + [FinalReply(failed)]))
  {
    hide Run, AfterResolve, AfterAuthorize, AfterCreate, AfterFinishCall, AfterCrash, Killed, FinalReply;
    fs, u := RunOn(s, es, m, Execute(t, failed));
    fs, u := RunOn(s, fs, u, Answer(t));
  }

  lemma ToFinished(s: State, es: seq<Event>, m: State, t: nat, now: int, commits: bool)
    returns (fs: seq<Event>, u: State)
    requires Run(s, es) == Some(m) && TaskIn(m, t, Answered)
    ensures Run(s, fs) == Some(u)
    ensures var task := m.tasks[t];
      var status := if task.failed then FAILED else SUCCESSFUL;
      u == Altered(m, t, task.(phase := Finished)).(lost := u.lost,
             table := if commits then AfterFinish(m.table, task.jobID, status, now) else m.table)
  {
    hide Run, AfterResolve, AfterAuthorize, AfterCreate, AfterCrash, Killed, AfterFinish;
    fs, u := RunOn(s, es, m, Event.Finish(t, now, commits));
  }

  lemma ToCompleted(s: State, es: seq<Event>, m: State, t: nat) returns (fs: seq<Event>, u: State)
    requires Run(s, es) == Some(m) && TaskIn(m, t, Finished)
    ensures Run(s, fs) == Some(u)
    ensures var task := m.tasks[t];
      u == Altered(m, t, task.(phase := Completed)).(
             wg := m.wg - 1, counts := u.counts, active := m.active.Cancel(task.jobID))
  {
    hide Run, AfterResolve, AfterAuthorize, AfterCreate, AfterFinishCall, AfterCrash, Killed;
    fs, u := RunOn(s, es, m, Done(t));
    fs, u := RunOn(s, fs, u, Release(t));
  }

  // ----------------------------------------------------------- what it holds

  /** The values an executor works on. */
  datatype Image = Image(
    closed: bool,
    received: nat,
    wg: int,
    world: World,
    table: Table,
    active: Active,
    tasksCh: seq<Work>)

  ghost predicate SameChannel(s: State, works: seq<Work>) {
    && |works| == |s.queue|
    && forall i :: 0 <= i < |works| ==>
         TaskIn(s, s.queue[i], Queued) && Carries(s.tasks[s.queue[i]], works[i]) && works[i].ticket == s.queue[i]
  }

  /** The values are those of state s of the step system. */
  ghost predicate Matches(i: Image, s: State) {
    && s.up && s.closed == i.closed && s.received == i.received && s.wg == i.wg
    && s.world == i.world && s.table == i.table && s.active == i.active
    && SameChannel(s, i.tasksCh)
  }

  function Admitted(w: World, req: Request, found: bool): Option<(Request, Command)> {
    var (r, cmd) := Commands.Found(w.commands, Commands.AliasIn(if found then w.aliases else map[], req), req);
    if cmd.None? || Auth.Refusal(w.groups, r, cmd.value).Some? then None else Some((r, cmd.value))
  }

  function Denial(w: World, req: Request, found: bool): seq<Reply> {
    var (r, cmd) := Commands.Found(w.commands, Commands.AliasIn(if found then w.aliases else map[], req), req);
    if cmd.None? then [UnknownCommand] else if Auth.Refusal(w.groups, r, cmd.value).Some? then [Unauthorized] else []
  }

  /** What createTask makes of the table, and the job it hands out. */
  function TaskCreated(table: Table, req: Request, cmd: Command, now: int, commits: bool): (Table, Option<Job>) {
    if !cmd.record then (table, Some(NullJob(req, now)))
    else if commits then (JobTable.Created(table, req, now), Some(Job(NextID(table), req, now, 0, RUNNING)))
    else (table, None)
  }

  /** No job, no change. */
  lemma UnrecordedIsUnchanged(table: Table)
    ensures forall req, cmd, now, commits {:trigger TaskCreated(table, req, cmd, now, commits)} ::
      TaskCreated(table, req, cmd, now, commits).1.None? ==> TaskCreated(table, req, cmd, now, commits).0 == table
  {
  }

  datatype Accepting = Accepting(after: Image, work: Option<Work>, said: seq<Reply>)

  function Accepted(i: Image, req: Request, now: int, found: bool, recorded: bool): Accepting {
    var admitted := Admitted(i.world, req, found);
    var counted := i.(received := i.received + 1);
    if admitted.None? then Accepting(counted, None, Denial(i.world, req, found))
    else
      var created := TaskCreated(i.table, admitted.value.0, admitted.value.1, now, recorded);
      if created.1.None? then Accepting(counted, None, [Failed])
      else
        var work := Work(created.1.value, admitted.value.1, i.received);
        Accepting(counted.(table := created.0, wg := i.wg + 1), Some(work), [])
  }

  // --------------------------------------------------------------- the object

  class Server {
    const registry: Commands.Registry
    const aliases: Aliases.Store
    const authorizer: Auth.Authorizer
    const jobs: Jobs.Store
    const activeCommands: ActiveCommands
    var received: nat
    var tasksCh: seq<Work>
    var wg: int
    var closed: bool
    /** What the chat client was told. */
    var replies: seq<Reply>

    constructor (registry: Commands.Registry, aliases: Aliases.Store, authorizer: Auth.Authorizer, jobs: Jobs.Store)
      requires aliases.Valid() && jobs.Valid()
      ensures this.registry == registry && this.aliases == aliases && this.authorizer == authorizer && this.jobs == jobs
      ensures fresh(activeCommands) && Valid() && replies == []
      ensures View() == Image(false, 0, 0, World(registry.commands, aliases.table, authorizer.groups), jobs.Contents(),
                              Active.Active(map[], multiset{}), [])
    {
      this.registry, this.aliases, this.authorizer, this.jobs := registry, aliases, authorizer, jobs;
      activeCommands := new ActiveCommands();
      received, tasksCh, wg, closed, replies := 0, [], 0, false, [];
    }

    ghost predicate Valid()
      reads aliases, jobs
    {
      aliases.Valid() && jobs.Valid()
    }

    ghost function View(): Image
      requires Valid()
      reads this, registry, aliases, authorizer, jobs, activeCommands
    {
      Image(closed, received, wg, World(registry.commands, aliases.table, authorizer.groups), jobs.Contents(),
            activeCommands.State(), tasksCh)
    }

    method CreateTask(req: Request, cmd: Command, now: int, commits: bool) returns (job: Option<Job>)
      requires jobs.Valid()
      modifies jobs
      ensures jobs.Valid()
      ensures (jobs.Contents(), job) == TaskCreated(old(jobs.Contents()), req, cmd, now, commits)
      ensures !cmd.record ==> jobs.Contents() == old(jobs.Contents()) && job == Some(Job(0, req, now, 0, "Running"))
      ensures cmd.record ==> (job.Some? <==> commits) && (job.None? ==> jobs.Contents() == old(jobs.Contents()))
      ensures cmd.record && job.Some? ==>
        && job.value.request == req && job.value.startTime == now && job.value.status == "Running"
        && jobs.Contents().jobs == old(jobs.Contents()).jobs[job.value.id := job.value]
    {
      if !cmd.record {
        return Some(NullJob(req, now));
      }
      var created := jobs.Create(req, now, commits);
      job := if created.Success? then Some(created.value) else None;
    }

    /** Finds the request's command and checks that the user may run it there; tells the client when not. */
    method Admit(req: Request, found: bool) returns (r: Option<(Request, Command)>)
      requires aliases.Valid()
      modifies this`replies, aliases
      ensures aliases.Valid() && aliases.table == old(aliases.table)
      ensures var w := World(registry.commands, aliases.table, authorizer.groups);
        replies == old(replies) + Denial(w, req, found) && r == Admitted(w, req, found)
    {
      hide Commands.Found, Commands.AliasIn, Auth.Refusal;
      NoAliases(req);
      var rq := new Commands.RequestVar(req);
      var cmd := registry.Find(aliases, rq, found);
      if cmd.None? {
        replies := replies + [UnknownCommand];
        return None;
      }
      var refusal := authorizer.Check(rq.value, cmd.value);
      if refusal.Some? {
        replies := replies + [Unauthorized];
        return None;
      }
      return Some((rq.value, cmd.value));
    }

    /**
     * What Run does with one request, up to the send. found and recorded tell whether the alias lookup and
     * the creation of the job commit.
     */
    method Accept(req: Request, now: int, found: bool, recorded: bool) returns (t: Option<Work>)
      requires Valid()
      modifies this, aliases, jobs
      ensures Valid()
      ensures var a := Accepted(old(View()), req, now, found, recorded);
        View() == a.after && t == a.work && replies == old(replies) + a.said
    {
      hide Admitted, Denial, TaskCreated, Jobs.Store.Contents, Jobs.Store.Valid, Aliases.Store.Valid;
      AdmittedSilently(World(registry.commands, aliases.table, authorizer.groups), req, found);
      UnrecordedIsUnchanged(jobs.Contents());
      var ticket := received;
      received := received + 1;
      var admitted := Admit(req, found);
      if admitted.None? {
        return None;
      }
      var job := CreateTask(admitted.value.0, admitted.value.1, now, recorded);
      if job.None? {
        replies := replies + [Failed];
        return None;
      }
      wg := wg + 1;
      return Some(Work(job.value, admitted.value.1, ticket));
    }

    /** The send of Run, once the channel has room. */
    method Send(t: Work)
      requires Valid() && |tasksCh| < TASKS_CAPACITY && !closed
      modifies this`tasksCh
      ensures View() == old(View()).(tasksCh := old(tasksCh) + [t])
    {
      tasksCh := tasksCh + [t];
    }

    /** processTasks takes the next task. */
    method Receive() returns (t: Work)
      requires Valid() && tasksCh != []
      modifies this`tasksCh
      ensures t == old(tasksCh)[0] && View() == old(View()).(tasksCh := old(tasksCh)[1..])
    {
      t, tasksCh := tasksCh[0], tasksCh[1..];
    }

    /** The goroutine of a task, with nothing else in between; failed is how the command's execution ends. */
    method Process(t: Work, failed: bool, now: int, commits: bool)
      requires Valid()
      modifies this, jobs, activeCommands
      ensures Valid() && View() == Processed(old(View()), t, failed, now, commits)
      ensures replies == old(replies) + Greeting(t.cmd) + [FinalReply(failed)]
      ensures replies == old(replies)
        + (if t.cmd.handshake then [Handshake] else []) + [if failed then Failed else Succeeded]
      ensures wg == old(wg) - 1
      ensures jobs.Contents() == if !commits then old(jobs.Contents())
        else AfterFinish(old(jobs.Contents()), t.job.id, if failed then "Failed" else "Successful", now)
    {
      hide Active.Add, Active.Cancel, JobTable.AfterFinish, JobTable.Finished, Jobs.Store.Contents, Jobs.Store.Valid;
      if t.cmd.handshake {
        replies := replies + [Handshake];
      }
      activeCommands.Add(t.job.id, t.ticket);
      if failed {
        replies := replies + [Failed];
        var r := jobs.Finish(t.job.id, FAILED, now, commits);
      } else {
        replies := replies + [Succeeded];
        var r := jobs.Finish(t.job.id, SUCCESSFUL, now, commits);
      }
      wg := wg - 1;
      activeCommands.Cancel(t.job.id);
    }
  }

  function Processed(i: Image, t: Work, failed: bool, now: int, commits: bool): Image {
    i.(wg := i.wg - 1,
       active := i.active.Add(t.job.id, t.ticket).Cancel(t.job.id),
       table := if commits then AfterFinish(i.table, t.job.id, if failed then FAILED else SUCCESSFUL, now) else i.table)
  }

  // ------------------------------------------------- it follows the step system

  lemma NoAliases(req: Request)
    ensures Commands.AliasIn(map[], req) == None
  {
  }

  lemma AdmittedSilently(w: World, req: Request, found: bool)
    ensures Admitted(w, req, found).Some? ==> Denial(w, req, found) == []
  {
    hide Commands.Found, Commands.AliasIn, Auth.Refusal;
  }

  lemma ChannelStays(s: State, u: State, works: seq<Work>, t: nat)
    requires SameChannel(s, works) && u.queue == s.queue && t in u.tasks && u.tasks == s.tasks[t := u.tasks[t]]
    requires t in s.tasks ==> s.tasks[t].phase != Queued
    ensures SameChannel(u, works)
  {
  }

  /** Task t of s carries w, and stands where this phase says. */
  ghost predicate Holds(s: State, w: Work, phase: Phase) {
    TaskIn(s, w.ticket, phase) && Carries(s.tasks[w.ticket], w)
  }

  /** Other tasks are as they were, except perhaps t. */
  ghost predicate Leaves(s: State, u: State, t: nat) {
    t in u.tasks && u.tasks == s.tasks[t := u.tasks[t]]
  }

  /** The request got these replies, and this work if it was accepted. */
  ghost predicate Settled(s: State, u: State, t: Option<Work>, said: seq<Reply>) {
    && Leaves(s, u, s.received) && u.tasks[s.received].replies == said
    && u.current == (if t.Some? then Some(s.received) else None)
    && (t.Some? ==> Holds(u, t.value, Counted) && t.value.ticket == s.received)
  }

  /** Accepting the request records a job, which takes a number from the sequence. */
  predicate TakesNumberOf(i: Image, req: Request, found: bool, recorded: bool) {
    var admitted := Admitted(i.world, req, found);
    admitted.Some? && admitted.value.1.record && recorded
  }

  /** Accepting a request is a run of the step system, to a state that matches again. */
  lemma AcceptFollows(i: Image, s: State, req: Request, now: int, found: bool, recorded: bool)
    returns (es: seq<Event>, u: State)
    requires Matches(i, s) && s.current.None? && s.received !in s.tasks
    requires TakesNumberOf(i, req, found, recorded) ==> i.table.sequence < MAX_UINT64
    ensures var a := Accepted(i, req, now, found, recorded);
      Run(s, es) == Some(u) && Matches(a.after, u) && Settled(s, u, a.work, a.said)
  {
    hide Run;
    SoughtOf(i, s, req, found);
    es, u := AcceptRun(s, req, now, found, recorded);
    hide Matches, Accepts, Accepted, Settled, Admitted, TakesNumber, TakesNumberOf;
    AcceptMatches(i, s, u, req, now, found, recorded);
    AcceptSettles(i, s, u, req, now, found, recorded);
  }

  lemma SoughtOf(i: Image, s: State, req: Request, found: bool)
    requires Matches(i, s)
    ensures var sought := Sought(s, req, found);
      Admitted(i.world, req, found) ==
        if sought.1.None? || Auth.Refusal(i.world.groups, sought.0, sought.1.value).Some? then None
        else Some((sought.0, sought.1.value))
    ensures var sought := Sought(s, req, found);
      Denial(i.world, req, found) ==
        if sought.1.None? then [UnknownCommand]
        else if Auth.Refusal(i.world.groups, sought.0, sought.1.value).Some? then [Unauthorized] else []
  {
    hide Commands.Found, Commands.AliasIn, Auth.Refusal, SameChannel;
  }

  lemma AcceptMatches(i: Image, s: State, u: State, req: Request, now: int, found: bool, recorded: bool)
    requires Matches(i, s) && Accepts(s, u, req, now, found, recorded) && s.received !in s.tasks
    ensures Matches(Accepted(i, req, now, found, recorded).after, u)
  {
    SoughtOf(i, s, req, found);
    hide Sought, Admitted, Denial, Auth.Refusal, JobTable.Created, NextID, SameChannel;
    ChannelStays(s, u, i.tasksCh, s.received);
  }

  lemma AcceptSettles(i: Image, s: State, u: State, req: Request, now: int, found: bool, recorded: bool)
    requires Matches(i, s) && Accepts(s, u, req, now, found, recorded)
    ensures var a := Accepted(i, req, now, found, recorded); Settled(s, u, a.work, a.said)
  {
    SoughtOf(i, s, req, found);
    hide Sought, Admitted, Denial, Auth.Refusal, JobTable.Created, NextID, SameChannel;
  }

  /** So is sending the accepted work. */
  lemma SendFollows(i: Image, s: State, t: Work) returns (es: seq<Event>, u: State)
    requires Matches(i, s) && |i.tasksCh| < TASKS_CAPACITY && !i.closed
    requires s.current == Some(t.ticket) && Holds(s, t, Counted)
    ensures Run(s, es) == Some(u) && Matches(i.(tasksCh := i.tasksCh + [t]), u)
    ensures u.current.None? && Leaves(s, u, t.ticket) && u.tasks[t.ticket].phase == Queued
  {
    hide Run, Carries;
    es, u := ToQueued(s, t.ticket);
    CarriesStill(s.tasks[t.ticket], t, Queued);
  }

  lemma CarriesStill(task: Task, t: Work, phase: Phase)
    requires Carries(task, t)
    ensures Carries(task.(phase := phase), t)
  {
  }

  /** So is taking a task from the channel. */
  lemma ReceiveFollows(i: Image, s: State) returns (es: seq<Event>, u: State)
    requires Matches(i, s) && i.tasksCh != [] && forall j, k :: 0 <= j < k < |s.queue| ==> s.queue[j] < s.queue[k]
    ensures Run(s, es) == Some(u) && Matches(i.(tasksCh := i.tasksCh[1..]), u)
    ensures var t := i.tasksCh[0];
      TaskIn(s, t.ticket, Queued) && Holds(u, t, Spawned) && Leaves(s, u, t.ticket) && u.current == s.current
  {
    hide Run, Carries;
    assert TaskIn(s, s.queue[0], Queued);
    es, u := ToSpawned(s);
    CarriesStill(s.tasks[s.queue[0]], i.tasksCh[0], Spawned);
  }

  /** So is the whole life of a task's goroutine, after which the task has its replies and is gone. */
  lemma ProcessFollows(i: Image, s: State, t: Work, failed: bool, now: int, commits: bool)
    returns (es: seq<Event>, u: State)
    requires Matches(i, s) && Holds(s, t, Spawned)
    ensures Run(s, es) == Some(u) && Matches(Processed(i, t, failed, now, commits), u)
    ensures Leaves(s, u, t.ticket) && u.tasks[t.ticket].phase == Completed && u.current == s.current
    ensures u.tasks[t.ticket].replies == s.tasks[t.ticket].replies + Greeting(t.cmd) + [FinalReply(failed)]
  {
    hide Run, AfterFinish, SameChannel, Greeting, FinalReply;
    es, u := ToExecuting(s, t.ticket);
    es, u := ToAnswered(s, es, u, t.ticket, failed);
    es, u := ToFinished(s, es, u, t.ticket, now, commits);
    es, u := ToCompleted(s, es, u, t.ticket);
    assert u.tasks == s.tasks[t.ticket := u.tasks[t.ticket]];
    ChannelStays(s, u, i.tasksCh, t.ticket);
  }

  /** And so is a change of configuration between them. */
  lemma ReloadFollows(i: Image, s: State, world: World) returns (es: seq<Event>, u: State)
    requires Matches(i, s)
    ensures Run(s, es) == Some(u) && Matches(i.(world := world), u) && u.tasks == s.tasks && u.current == s.current
  {
    hide Run, AfterResolve, AfterAuthorize, AfterCreate, AfterFinishCall, AfterCrash, Killed;
    RunNone(s);
    es, u := RunOn(s, [], s, Change(world));
  }
}
