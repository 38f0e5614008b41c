/** Whose cancel functions are called, over every run of the executor. */
module ExecutorCancels {
  import Auth
  import Commands
  import opened Bytes
  import opened Executor
  import opened ExecutorInvariant
  import opened ExecutorRuns
  import opened JobTable
  import opened Keys
  import opened Meeseeks
  import opened Wrappers

  // ------------------------------------------------------------- the entries

  lemma EntriesOf(s: State)
    requires Contexts(s)
    ensures forall id :: id in s.active.ctx ==>
      var t := s.active.ctx[id];
      t in s.tasks && s.tasks[t].phase.HasContext() && s.tasks[t].jobID == id && s.active.invoked[t] == 0
  {
    forall id | id in s.active.ctx ensures EntryRight(s, id) {
    }
  }

  /**
   * No entry outlives its task: each belongs to a task between Add and its own Cancel, under the
   * ID of that task's job, and has not been called. Null jobs share ID 0 and still leave nothing behind.
   */
  lemma EntriesAreActive(es: seq<Event>, s: State)
    requires Reaches(es, s)
    ensures forall id :: id in s.active.ctx ==>
      var t := s.active.ctx[id];
      t in s.tasks && s.tasks[t].phase.HasContext() && s.tasks[t].jobID == id && s.active.invoked[t] == 0
    ensures (forall t :: t in s.tasks ==> !s.tasks[t].phase.HasContext()) ==> s.active.ctx == map[]
  {
    hide *;
    ReachedParts(es, s);
    EntriesOf(s);
    if s.active.ctx != map[] {
      var id :| id in s.active.ctx;
    }
  }

  lemma EntryOf(s: State, t: nat)
    requires Owners(s) && Contexts(s) && t in s.tasks && s.tasks[t].jobID != 0
    ensures s.active.invoked[t] <= 1
    ensures s.tasks[t].phase.HasContext() ==>
      (s.active.invoked[t] == 0 <==> s.tasks[t].jobID in s.active.ctx && s.active.ctx[s.tasks[t].jobID] == t)
    ensures s.tasks[t].phase == Completed ==> s.active.invoked[t] == 1
  {
    var id := s.tasks[t].jobID;
    assert CancelledRight(s, t);
    if id in s.active.ctx {
      assert EntryRight(s, id) && JobRight(s, t) && JobRight(s, s.active.ctx[id]);
    }
  }

  /** The context of a recorded job is cancelled once: registered until then, and cancelled once the task is gone. */
  lemma RecordedCancelledOnce(es: seq<Event>, s: State, t: nat)
    requires Reaches(es, s) && t in s.tasks && s.tasks[t].jobID != 0
    ensures s.active.invoked[t] <= 1
    ensures s.tasks[t].phase.HasContext() ==>
      (s.active.invoked[t] == 0 <==> s.tasks[t].jobID in s.active.ctx && s.active.ctx[s.tasks[t].jobID] == t)
    ensures s.tasks[t].phase == Completed ==> s.active.invoked[t] == 1
  {
    hide *;
    ReachedParts(es, s);
    EntryOf(s, t);
  }

  // --------------------------------------------------- cancel and kill commands

  /** t executes the recorded job id, of a request by caller. */
  predicate Runs(s: State, t: nat, caller: Text, id: uint64) {
    && t in s.tasks && s.tasks[t].phase.HasContext() && s.tasks[t].jobID == id && id != 0
    && s.tasks[t].request.username == caller
  }

  lemma CancelOf(s: State, caller: Text, id: uint64, t: nat)
    requires Owners(s) && Contexts(s)
    ensures var called := if MayCancel(s.table, caller, id) then s.active.Cancel(id) else s.active;
      && (called.invoked[t] != s.active.invoked[t] ==> Runs(s, t, caller, id))
      && (Runs(s, t, caller, id) ==> called.invoked[t] == 1)
  {
    if MayCancel(s.table, caller, id) {
      assert s.table.IsStored(id) && OwnerRight(s, id);
      if id in s.active.ctx {
        var v := s.active.ctx[id];
        assert EntryRight(s, id) && JobRight(s, v);
      }
    }
    if Runs(s, t, caller, id) {
      assert JobRight(s, t) && OwnerRight(s, id);
      EntryOf(s, t);
    }
  }

  /**
   * A cancel command changes nothing but contexts. The context it cancels is that of the task which runs
   * the named job for the caller; with no such task, whoever the caller and whatever the ID, nothing changes.
   */
  lemma CancelReachesOwnJob(es: seq<Event>, s: State, caller: Text, id: uint64, u: State)
    requires Reaches(es, s) && Reaches(es + [CancelJob(caller, id)], u)
    ensures u == s.(active := u.active)
    ensures forall t :: u.active.invoked[t] != s.active.invoked[t] ==> Runs(s, t, caller, id)
    ensures forall t :: Runs(s, t, caller, id) ==> u.active.invoked[t] == 1
  {
    hide *;
    ReachedParts(es, s);
    Extended(es, s, CancelJob(caller, id), u);
    CancelStep(s, caller, id);
    forall t ensures u.active.invoked[t] != s.active.invoked[t] ==> Runs(s, t, caller, id)
             ensures Runs(s, t, caller, id) ==> u.active.invoked[t] == 1
    {
      CancelOf(s, caller, id, t);
    }
  }

  lemma CancelStep(s: State, caller: Text, id: uint64)
    requires Enabled(s, CancelJob(caller, id))
    ensures Step(s, CancelJob(caller, id)) ==
      s.(active := if MayCancel(s.table, caller, id) then s.active.Cancel(id) else s.active)
  {
  }

  // ------------------------------------------------------------ the deferred call

  lemma ReleaseStep(s: State, t: nat)
    requires Enabled(s, Release(t))
    ensures TaskIn(s, t, Waited) && Step(s, Release(t)).active == s.active.Cancel(s.tasks[t].jobID)
  {
  }

  lemma CancelCounts(a: Active, id: uint64, v: nat)
    ensures a.Cancel(id).invoked[v] == a.invoked[v] + if id in a.ctx && a.ctx[id] == v then 1 else 0
  {
  }

  /**
   * A task of a recorded job never calls another task's cancel function when it ends. A task of a null job
   * does so exactly when the one entry that null jobs share is another task's.
   */
  lemma WhoseCancelEndCalls(es: seq<Event>, s: State, t: nat, u: State)
    requires Reaches(es, s) && Reaches(es + [Release(t)], u) && t in s.tasks
    ensures (exists v :: v != t && u.active.invoked[v] != s.active.invoked[v])
      <==> s.tasks[t].jobID == 0 && 0 in s.active.ctx && s.active.ctx[0] != t
    ensures s.tasks[t].jobID != 0 ==> u.active.invoked[t] == 1
  {
    hide *;
    Extended(es, s, Release(t), u);
    ReleaseStep(s, t);
    ReachedParts(es, s);
    var id := s.tasks[t].jobID;
    forall v
      ensures u.active.invoked[v]
           == s.active.invoked[v] + if id in s.active.ctx && s.active.ctx[id] == v then 1 else 0
    {
      CancelCounts(s.active, id, v);
    }
    if id != 0 {
      RegisteredOrCalled(s, t);
    } else if 0 in s.active.ctx && s.active.ctx[0] != t {
      assert u.active.invoked[s.active.ctx[0]] != s.active.invoked[s.active.ctx[0]];
    }
  }

  lemma RegisteredOrCalled(s: State, t: nat)
    requires Owners(s) && Contexts(s) && TaskIn(s, t, Waited) && s.tasks[t].jobID != 0
    ensures s.tasks[t].jobID in s.active.ctx ==> s.active.ctx[s.tasks[t].jobID] == t
    ensures s.active.invoked[t] == 1 || (s.active.invoked[t] == 0 && s.tasks[t].jobID in s.active.ctx)
    ensures s.active.invoked[t] == 1 ==> s.tasks[t].jobID !in s.active.ctx || s.active.ctx[s.tasks[t].jobID] != t
  {
    EntryOf(s, t);
    var id := s.tasks[t].jobID;
    if id in s.active.ctx {
      assert EntryRight(s, id) && JobRight(s, t) && JobRight(s, s.active.ctx[id]);
    }
  }

  // ------------------------------------------------------------- who else calls

  /** The job whose entry an event looks up to call its function. */
  function Target(s: State, e: Event): Option<uint64> {
    match e
    case CancelJob(caller, id) => if MayCancel(s.table, caller, id) then Some(id) else None
    case KillJob(id) => if id in s.table.jobs then Some(id) else None
    case Release(t) => if t in s.tasks then Some(s.tasks[t].jobID) else None
    case _ => None
  }

  lemma LoopCallsNone(s: State, e: Event)
    requires Enabled(s, e)
    ensures e.Resolve? ==> AfterResolve(s, e.commits).active == s.active
    ensures e.Authorize? ==> AfterAuthorize(s).active == s.active
    ensures e.Create? ==> AfterCreate(s, e.now, e.commits).active == s.active
  {
    hide Commands.Found, Commands.AliasIn, Auth.Refusal, JobTable.Created;
  }

  lemma CallsOf(s: State, e: Event)
    requires Enabled(s, e)
    ensures Step(s, e).active.invoked
         == if Target(s, e).Some? then s.active.Cancel(Target(s, e).value).invoked else s.active.invoked
  {
    LoopCallsNone(s, e);
    hide AfterResolve, AfterAuthorize, AfterCreate, AfterFinish;
    hide Members, Killed, CrashedTasks, MayCancel, Active.Cancel;
  }

  /**
   * In any run a cancel function is called only by a cancel command of the owner, a kill command, or the end of
   * a task, and only under its own job's ID; it is then called for the first time, with its task still active.
   */
  lemma CalledOnlyUnderOwnID(es: seq<Event>, s: State, e: Event, u: State, t: nat)
    requires Reaches(es, s) && Reaches(es + [e], u) && u.active.invoked[t] != s.active.invoked[t]
    ensures t in s.tasks && s.tasks[t].phase.HasContext() && Target(s, e) == Some(s.tasks[t].jobID)
    ensures s.active.invoked[t] == 0 && u.active.invoked[t] == 1
  {
    hide *;
    Extended(es, s, e, u);
    CallsOf(s, e);
    EntriesAreActive(es, s);
    CancelCounts(s.active, Target(s, e).value, t);
  }

  /** A kill command reaches the task that runs the named job, whoever asked for that job, and nothing else. */
  lemma KillReachesJob(es: seq<Event>, s: State, id: uint64, u: State)
    requires Reaches(es, s) && Reaches(es + [KillJob(id)], u)
    ensures u == s.(active := u.active)
    ensures forall t :: u.active.invoked[t] != s.active.invoked[t] ==> RunsJob(s, t, id)
    ensures forall t :: RunsJob(s, t, id) ==> u.active.invoked[t] == 1
  {
    hide *;
    ReachedParts(es, s);
    Extended(es, s, KillJob(id), u);
    KillStep(s, id);
    forall t ensures u.active.invoked[t] != s.active.invoked[t] ==> RunsJob(s, t, id)
             ensures RunsJob(s, t, id) ==> u.active.invoked[t] == 1
    {
      KillOf(s, id, t);
    }
  }

  predicate RunsJob(s: State, t: nat, id: uint64) {
    t in s.tasks && s.tasks[t].phase.HasContext() && s.tasks[t].jobID == id && id != 0
  }

  lemma KillStep(s: State, id: uint64)
    requires Enabled(s, KillJob(id))
    ensures Step(s, KillJob(id)) == s.(active := if id in s.table.jobs then s.active.Cancel(id) else s.active)
  {
  }

  lemma KillOf(s: State, id: uint64, t: nat)
    requires Owners(s) && Contexts(s)
    ensures var called := if id in s.table.jobs then s.active.Cancel(id) else s.active;
      && (called.invoked[t] != s.active.invoked[t] ==> RunsJob(s, t, id))
      && (RunsJob(s, t, id) ==> called.invoked[t] == 1)
  {
    if id in s.table.jobs {
      assert s.table.IsStored(id);
      if id in s.active.ctx {
        assert EntryRight(s, id);
      }
    }
    if RunsJob(s, t, id) {
      assert JobRight(s, t) && OwnerRight(s, id);
      EntryOf(s, t);
    }
  }

  // ------------------------------------------- two null jobs at the same time

  const PLAIN := Command([97], Auth.AUTH_ANY, [], Auth.CHANNEL_ANY, [], false, false, 0)

  const REQUEST := Request([97], [], [], [], [], [], [], [], false)

  const WORLD := World(map[[97] := Commands.Hub(Commands.Local, PLAIN)], map[], map[])

  const NULL_TASK := Task(REQUEST, REQUEST, Some(PLAIN), 0, false, Executing, [], Some(WORLD), Some(WORLD))

  predicate Idle(s: State) {
    s.up && !s.closed && s.current.None? && s.queue == [] && s.world == WORLD && s.received !in s.tasks
  }

  /** Nobody cancels or kills anything. */
  ghost predicate NoCancels(es: seq<Event>) {
    forall e :: e in es ==> !e.CancelJob? && !e.KillJob?
  }

  lemma Next(es: seq<Event>, s: State, e: Event) returns (fs: seq<Event>, u: State)
    requires Reaches(es, s) && NoCancels(es) && Enabled(s, e) && !e.CancelJob? && !e.KillJob?
    ensures Reaches(fs, u) && NoCancels(fs) && u == Step(s, e)
  {
    hide Reaches, Step, Enabled;
    OneMore(es, s, e);
    fs, u := es + [e], Step(s, e);
  }

  /** A request for the plain command is accepted. */
  lemma Accept(es: seq<Event>, s: State) returns (fs: seq<Event>, u: State)
    requires Reaches(es, s) && NoCancels(es) && Idle(s)
    ensures Reaches(fs, u) && NoCancels(fs)
    ensures u == s.(received := s.received + 1, current := Some(s.received),
                    tasks := s.tasks[s.received := NULL_TASK.(phase := Authorized)])
  {
    hide Reaches, NoCancels;
    fs, u := Next(es, s, Receive(REQUEST));
    fs, u := Next(fs, u, Resolve(true));
    fs, u := Next(fs, u, Authorize);
    assert u.tasks == s.tasks[s.received := NULL_TASK.(phase := Authorized)];
  }

  ghost predicate HasOnly(s: State, u: State, t: nat, phase: Phase) {
    u.tasks == s.tasks[t := NULL_TASK.(phase := phase)]
  }

  lemma Record(es: seq<Event>, s: State) returns (fs: seq<Event>, u: State)
    requires Reaches(es, s) && NoCancels(es) && Idle(s)
    ensures Reaches(fs, u) && NoCancels(fs)
    ensures HasOnly(s, u, s.received, Created)
    ensures u == s.(received := s.received + 1, current := Some(s.received), tasks := u.tasks)
  {
    hide Reaches, NoCancels, AfterResolve, AfterAuthorize, AfterFinishCall, AfterCrash, JobTable.Created, Killed;
    fs, u := Accept(es, s);
    fs, u := Next(fs, u, Create(0, true));
  }

  lemma Enqueue(es: seq<Event>, s: State) returns (fs: seq<Event>, u: State)
    requires Reaches(es, s) && NoCancels(es) && Idle(s)
    ensures Reaches(fs, u) && NoCancels(fs)
    ensures HasOnly(s, u, s.received, Queued)
    ensures u == s.(received := s.received + 1, queue := [s.received], wg := s.wg + 1, tasks := u.tasks)
  {
    hide Idle, AfterCreate;
    hide Reaches, NoCancels, AfterResolve, AfterAuthorize, AfterFinishCall, AfterCrash, JobTable.Created, Killed;
    fs, u := Record(es, s);
    IdleQueue(s);
    fs, u := Next(fs, u, Count);
    assert HasOnly(s, u, s.received, Counted);
    fs, u := Next(fs, u, Send);
  }

  lemma IdleQueue(s: State)
    requires Idle(s)
    ensures s.queue == [] && !s.closed && s.current.None?
  {
  }

  lemma Spawn(es: seq<Event>, s: State) returns (fs: seq<Event>, u: State)
    requires Reaches(es, s) && NoCancels(es) && Idle(s)
    ensures Reaches(fs, u) && NoCancels(fs)
    ensures HasOnly(s, u, s.received, Spawned)
    ensures u == s.(received := s.received + 1, queue := [], wg := s.wg + 1, tasks := u.tasks)
  {
    hide Idle, Reaches, NoCancels, JobTable.Created, Killed;
    hide AfterResolve, AfterAuthorize, AfterCreate, AfterFinishCall, AfterCrash;
    fs, u := Enqueue(es, s);
    fs, u := Next(fs, u, Dispatch);
  }

  lemma Welcome(es: seq<Event>, s: State) returns (fs: seq<Event>, u: State)
    requires Reaches(es, s) && NoCancels(es) && Idle(s)
    ensures Reaches(fs, u) && NoCancels(fs)
    ensures HasOnly(s, u, s.received, Greeted)
    ensures u == s.(received := s.received + 1, queue := [], wg := s.wg + 1, tasks := u.tasks)
  {
    hide Idle, Reaches, NoCancels, AfterResolve, AfterAuthorize, AfterCreate, AfterFinishCall, AfterCrash, Killed;
    fs, u := Spawn(es, s);
    fs, u := Next(fs, u, Greet(s.received));
    assert [] + Greeting(PLAIN) == [];
  }

  /** A request for the plain command gets to execute. */
  lemma Launch(es: seq<Event>, s: State) returns (fs: seq<Event>, u: State)
    requires Reaches(es, s) && NoCancels(es) && Idle(s)
    ensures Reaches(fs, u) && NoCancels(fs)
    ensures HasOnly(s, u, s.received, Executing)
    ensures u == s.(received := s.received + 1, wg := s.wg + 1, active := s.active.Add(0, s.received), tasks := u.tasks)
  {
    hide Idle, Reaches, NoCancels, AfterResolve, AfterAuthorize, AfterCreate, AfterFinishCall, AfterCrash, Killed;
    IdleQueue(s);
    fs, u := Welcome(es, s);
    fs, u := Next(fs, u, Activate(s.received));
  }

  lemma Reply(es: seq<Event>, s: State, t: nat) returns (fs: seq<Event>, u: State)
    requires Reaches(es, s) && NoCancels(es) && t in s.tasks && s.tasks[t] == NULL_TASK
    ensures Reaches(fs, u) && NoCancels(fs)
    ensures u == s.(tasks := s.tasks[t := NULL_TASK.(phase := Answered, replies := [Succeeded])])
  {
    hide Reaches, NoCancels, AfterResolve, AfterAuthorize, AfterCreate, AfterFinishCall, AfterCrash, Killed;
    fs, u := Next(es, s, Execute(t, false));
    fs, u := Next(fs, u, Answer(t));
    assert [] + [Succeeded] == [Succeeded];
    assert u.tasks == s.tasks[t := NULL_TASK.(phase := Answered, replies := [Succeeded])];
  }

  lemma Wait(es: seq<Event>, s: State, t: nat) returns (fs: seq<Event>, u: State)
    requires Reaches(es, s) && NoCancels(es) && t in s.tasks && s.tasks[t] == NULL_TASK
    ensures Reaches(fs, u) && NoCancels(fs)
    ensures u.active == s.active && u.tasks == s.tasks[t := NULL_TASK.(phase := Finished, replies := [Succeeded])]
  {
    hide Reaches, NoCancels, AfterResolve, AfterAuthorize, AfterCreate, AfterFinish, AfterCrash, Killed;
    fs, u := Reply(es, s, t);
    fs, u := Next(fs, u, Finish(t, 0, true));
  }

  lemma Leave(es: seq<Event>, s: State, t: nat) returns (fs: seq<Event>, u: State)
    requires Reaches(es, s) && NoCancels(es) && t in s.tasks && s.tasks[t] == NULL_TASK
    ensures Reaches(fs, u) && NoCancels(fs)
    ensures u.active == s.active && u.tasks == s.tasks[t := NULL_TASK.(phase := Waited, replies := [Succeeded])]
  {
    hide Reaches, NoCancels, AfterResolve, AfterAuthorize, AfterCreate, AfterFinishCall, AfterCrash, Killed;
    fs, u := Wait(es, s, t);
    fs, u := Next(fs, u, Done(t));
    assert u.tasks == s.tasks[t := NULL_TASK.(phase := Waited, replies := [Succeeded])];
  }

  /** An executing null task ends. */
  lemma End(es: seq<Event>, s: State, t: nat) returns (fs: seq<Event>, u: State)
    requires Reaches(es, s) && NoCancels(es) && t in s.tasks && s.tasks[t] == NULL_TASK
    ensures Reaches(fs, u) && NoCancels(fs) && u.active == s.active.Cancel(0)
    ensures forall v :: v in s.tasks && v != t ==> v in u.tasks && u.tasks[v] == s.tasks[v]
  {
    hide Reaches, NoCancels, Active.Cancel;
    hide AfterResolve, AfterAuthorize, AfterCreate, AfterFinishCall, AfterCrash, Killed;
    fs, u := Leave(es, s, t);
    fs, u := Next(fs, u, Release(t));
  }

  /** Nothing keeps an unrecorded command's context its own: one that ends first cancels one still executing. */
  lemma NullJobsInterfere() returns (es: seq<Event>, s: State)
    ensures Reaches(es, s) && NoCancels(es)
    ensures TaskIn(s, 1, Executing) && s.tasks[1].jobID == 0 && s.active.invoked[1] == 1
  {
    assert Reaches([], INITIAL) && NoCancels([]);
    hide Reaches, NoCancels;
    es, s := Next([], INITIAL, Change(WORLD));
    es, s := Next(es, s, Restart(0));
    hide Step, Enabled;
    es, s := Launch(es, s);
    es, s := Launch(es, s);
    es, s := End(es, s, 0);
  }
}
