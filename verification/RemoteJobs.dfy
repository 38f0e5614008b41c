/**
 * The executor and the remote pipeline as one process: the tasks the executor runs start the jobs that
 * agents finish, and a crash takes both down.
 */
module RemoteJobs {
  import E = Executor
  import ExecutorInvariant
  import ExecutorRuns
  import P = Pipeline
  import PipelineRuns
  import opened Wrappers

  /** started names, for each channel of the pipeline, the task whose Execute made it. */
  datatype State = State(exec: E.State, remote: P.State, started: seq<nat>)

  datatype Event =
    | Exec(e: E.Event)
    | Remote(f: P.Event)
    | StartJob(t: nat)

  const INITIAL := State(E.INITIAL, P.INITIAL, [])

  /** A remote command is always recorded, and its Execute calls StartJob once. */
  predicate Enabled(s: State, e: Event) {
    match e
    case Exec(e) => E.Enabled(s.exec, e)
    case Remote(f) => !f.Start? && P.Enabled(s.remote, f)
    case StartJob(t) =>
      && E.TaskIn(s.exec, t, E.Executing) && t !in s.started
      && s.exec.tasks[t].cmd.Some? && s.exec.tasks[t].cmd.value.record
  }

  function Step(s: State, e: Event): State
    requires Enabled(s, e)
  {
    match e
    case Exec(e) =>
      if e.Crash? then State(E.Step(s.exec, e), P.INITIAL, []) else s.(exec := E.Step(s.exec, e))
    case Remote(f) => s.(remote := P.Step(s.remote, f))
    case StartJob(t) =>
      s.(remote := P.Step(s.remote, P.Start(s.exec.tasks[t].jobID)), started := s.started + [t])
  }

  function Run(es: seq<Event>): Option<State> {
    if es == [] then Some(INITIAL) else
      var before := Run(es[..|es| - 1]);
      var e := es[|es| - 1];
      if before.Some? && Enabled(before.value, e) then Some(Step(before.value, e)) else None
  }

  // ---------------------------------------------------------------- invariant

  /** Channel c carries the job of the task that made it, which is recorded. */
  ghost predicate StartRight(s: State, c: nat)
    requires c < |s.started|
  {
    var t := s.started[c];
    && c < |s.remote.chans| && t in s.exec.tasks && s.exec.tasks[t].phase.Rank() >= 8
    && s.exec.tasks[t].jobID == s.remote.chans[c].jobID != 0
  }

  ghost predicate Starts(s: State) {
    && |s.started| == |s.remote.chans|
    && (forall c {:trigger StartRight(s, c)} :: 0 <= c < |s.started| ==> StartRight(s, c))
    && forall c, d :: 0 <= c < d < |s.started| ==> s.started[c] != s.started[d]
  }

  ghost predicate Inv(s: State) {
    ExecutorInvariant.Inv(s.exec) && PipelineRuns.Owned(s.remote) && PipelineRuns.Tokens(s.remote) && Starts(s)
  }

  lemma StartsExec(s: State, u: State)
    requires Starts(s) && u.remote == s.remote && u.started == s.started && ExecutorRuns.AllForward(s.exec, u.exec)
    ensures Starts(u)
  {
    forall c | 0 <= c < |u.started| ensures StartRight(u, c) {
      assert StartRight(s, c);
      assert ExecutorRuns.Forward(s.exec.tasks[s.started[c]], u.exec.tasks[s.started[c]]);
    }
  }

  lemma ChansKeep(s: P.State, f: P.Event)
    requires P.Enabled(s, f) && !f.Start?
    ensures var u := P.Step(s, f);
      |u.chans| == |s.chans| && forall c :: 0 <= c < |s.chans| ==> u.chans[c].jobID == s.chans[c].jobID
  {
    hide P.IsWalk, P.Joining, P.Leaving;
  }

  lemma StartsRemote(s: State, u: State)
    requires Starts(s) && u.exec == s.exec && u.started == s.started && |u.remote.chans| == |s.remote.chans|
    requires forall c :: 0 <= c < |s.remote.chans| ==> u.remote.chans[c].jobID == s.remote.chans[c].jobID
    ensures Starts(u)
  {
    forall c | 0 <= c < |u.started| ensures StartRight(u, c) {
      assert StartRight(s, c);
    }
  }

  lemma StartsJob(s: State, u: State, t: nat)
    requires Starts(s) && u.exec == s.exec && u.started == s.started + [t] && t !in s.started
    requires E.TaskIn(s.exec, t, E.Executing) && s.exec.tasks[t].jobID != 0
    requires u.remote == P.AfterStart(s.remote, s.exec.tasks[t].jobID)
    ensures Starts(u)
  {
    forall c | 0 <= c < |u.started| ensures StartRight(u, c) {
      assert c < |s.started| ==> StartRight(s, c);
    }
    forall c, d | 0 <= c < d < |u.started| ensures u.started[c] != u.started[d] {
      assert c < |s.started| ==> s.started[c] in s.started;
    }
  }

  /** A task at work on a recorded command has a job of its own. */
  lemma RecordedHasJob(task: E.Task)
    requires ExecutorInvariant.Sound(task) && task.phase == E.Executing && task.cmd.Some? && task.cmd.value.record
    ensures task.jobID != 0
  {
    hide ExecutorInvariant.ResolvedBy, ExecutorInvariant.RefusedIn, ExecutorInvariant.ExpectedReplies;
  }

  lemma NewPipeline()
    ensures PipelineRuns.Owned(P.INITIAL) && PipelineRuns.Tokens(P.INITIAL)
  {
    PipelineRuns.ReachedKeeps([], P.INITIAL);
  }

  lemma StepExec(s: State, e: E.Event)
    requires Inv(s) && E.Enabled(s.exec, e)
    ensures Inv(Step(s, Exec(e)))
  {
    hide E.Enabled, E.Step, ExecutorInvariant.Inv, PipelineRuns.Owned, PipelineRuns.Tokens, ExecutorRuns.AllForward;
    ExecutorInvariant.StepKeeps(s.exec, e);
    if e.Crash? {
      NewPipeline();
    } else {
      ExecutorRuns.StepGrows(s.exec, e);
      StartsExec(s, Step(s, Exec(e)));
    }
  }

  lemma StepRemote(s: State, f: P.Event)
    requires Inv(s) && Enabled(s, Remote(f))
    ensures Inv(Step(s, Remote(f)))
  {
    hide P.Enabled, P.Step, ExecutorInvariant.Inv, PipelineRuns.Owned, PipelineRuns.Tokens, Starts;
    PipelineRuns.OwnedStep(s.remote, f);
    PipelineRuns.TokensStep(s.remote, f);
    ChansKeep(s.remote, f);
    StartsRemote(s, Step(s, Remote(f)));
  }

  lemma SoundIn(s: E.State, t: nat)
    requires ExecutorInvariant.Inv(s) && t in s.tasks
    ensures ExecutorInvariant.Sound(s.tasks[t])
  {
    hide ExecutorInvariant.Tickets, ExecutorInvariant.Memory;
    hide ExecutorInvariant.QueueInOrder, ExecutorInvariant.Counters;
    hide ExecutorInvariant.Owners, ExecutorInvariant.RunningIndex, ExecutorInvariant.Contexts, ExecutorInvariant.Sound;
  }

  lemma StartableHasJob(s: State, t: nat)
    requires ExecutorInvariant.Inv(s.exec) && Enabled(s, StartJob(t))
    ensures E.TaskIn(s.exec, t, E.Executing) && t !in s.started && s.exec.tasks[t].jobID != 0
  {
    hide ExecutorInvariant.Inv, ExecutorInvariant.Sound;
    SoundIn(s.exec, t);
    RecordedHasJob(s.exec.tasks[t]);
  }

  lemma StepStart(s: State, t: nat)
    requires Inv(s) && Enabled(s, StartJob(t))
    ensures Inv(Step(s, StartJob(t)))
  {
    hide ExecutorInvariant.Inv, PipelineRuns.Owned, PipelineRuns.Tokens, Starts;
    StartableHasJob(s, t);
    var id := s.exec.tasks[t].jobID;
    hide P.AfterStart;
    PipelineRuns.OwnedStep(s.remote, P.Start(id));
    PipelineRuns.TokensStep(s.remote, P.Start(id));
    StartsJob(s, Step(s, StartJob(t)), t);
  }

  lemma {:induction false} ReachedKeeps(es: seq<Event>, s: State)
    requires Run(es) == Some(s)
    ensures Inv(s)
    decreases |es|
  {
    hide Enabled, Step, Inv;
    if es == [] {
      StartInv();
    } else {
      var before, e := Run(es[..|es| - 1]).value, es[|es| - 1];
      ReachedKeeps(es[..|es| - 1], before);
      match e
      case Exec(e) => StepExec(before, e) by { ExecEnabled(before, e); }
      case Remote(f) => StepRemote(before, f);
      case StartJob(t) => StepStart(before, t);
    }
  }

  lemma ExecEnabled(s: State, e: E.Event)
    requires Enabled(s, Exec(e))
    ensures E.Enabled(s.exec, e)
  {
  }

  lemma StartInv()
    ensures Inv(INITIAL)
  {
    ExecutorRuns.InitialInv();
    NewPipeline();
    hide ExecutorInvariant.Inv, PipelineRuns.Owned, PipelineRuns.Tokens;
  }

  // ------------------------------------------------------------------ results

  lemma JobsAreApart(s: State)
    requires Inv(s)
    ensures PipelineRuns.JobsApart(s.remote)
  {
    hide PipelineRuns.Owned, PipelineRuns.Tokens;
    forall c, d | 0 <= c < d < |s.remote.chans| ensures s.remote.chans[c].jobID != s.remote.chans[d].jobID {
      assert StartRight(s, c) && StartRight(s, d);
      OwnJob(s.exec, s.started[c], s.started[d]);
    }
  }

  lemma OwnJob(s: E.State, t: nat, u: nat)
    requires ExecutorInvariant.Inv(s) && t in s.tasks && u in s.tasks && s.tasks[t].jobID != 0
    ensures s.tasks[t].jobID == s.tasks[u].jobID ==> t == u
  {
    hide ExecutorInvariant.Tickets, ExecutorInvariant.Memory;
    hide ExecutorInvariant.QueueInOrder, ExecutorInvariant.Counters;
    hide ExecutorInvariant.AllSound, ExecutorInvariant.RunningIndex, ExecutorInvariant.Contexts;
    assert ExecutorInvariant.JobRight(s, t) && ExecutorInvariant.JobRight(s, u);
  }

  /**
   * When tasks of the executor start the jobs, a finish is accepted exactly when a task of this process started
   * that job and no finish was accepted for it before; no job is ever started twice.
   */
  lemma FinishOfTaskOnce(es: seq<Event>, s: State, f: P.Finished)
    requires Run(es) == Some(s)
    ensures PipelineRuns.JobsApart(s.remote)
    ensures f.jobID in s.remote.running <==> exists c :: PipelineRuns.Awaits(s.remote, c, f)
    ensures !(f.jobID in s.remote.running) ==> P.AfterPop(s.remote, f) == s.remote
  {
    ReachedKeeps(es, s);
    JobsAreApart(s);
    hide ExecutorInvariant.Inv, PipelineRuns.Owned, PipelineRuns.Tokens, Starts, PipelineRuns.JobsApart;
    PipelineRuns.AwaitedExactly(s.remote, f);
  }

  /** The task that made a channel receives at most one result on it, the one for its own job. */
  lemma ResultOfOwnTask(es: seq<Event>, s: State, c: nat)
    requires Run(es) == Some(s) && c < |s.started|
    ensures c < |s.remote.chans| && s.started[c] in s.exec.tasks && |s.remote.chans[c].sent| <= 1
    ensures s.remote.chans[c].sent != [] ==>
      s.remote.chans[c].sent[0].jobID == s.exec.tasks[s.started[c]].jobID
  {
    ReachedKeeps(es, s);
    hide ExecutorInvariant.Inv, PipelineRuns.Owned, PipelineRuns.Tokens;
    assert StartRight(s, c);
    PipelineRuns.OneResult(s.remote, c);
  }
}
