/** Every sequence of calls on a dispatcher is a run of the step system. */
module DispatcherRuns {
  import ExecutorRuns
  import opened Dispatcher
  import opened Executor
  import opened ExecutorInvariant
  import opened JobTable
  import opened Keys
  import opened Meeseeks
  import opened Wrappers

  /** A dispatcher, the work its Run loop holds but has not sent, and the work its goroutines have. */
  datatype Session = Session(image: Image, pending: Option<Work>, spawned: seq<Work>)

  datatype Call =
    | AcceptCall(req: Request, now: int, found: bool, recorded: bool)
    | SendCall
    | ReceiveCall
    | ProcessCall(k: nat, failed: bool, now: int, commits: bool)
    | Reload(world: World)

  /** The Run loop takes the next request only when it has sent the last; recording needs a number. */
  predicate Possible(x: Session, c: Call) {
    match c
    case AcceptCall(req, _, found, recorded) =>
      && x.pending.None?
      && (TakesNumberOf(x.image, req, found, recorded) ==> x.image.table.sequence < MAX_UINT64)
    case SendCall => x.pending.Some? && |x.image.tasksCh| < TASKS_CAPACITY && !x.image.closed
    case ReceiveCall => x.image.tasksCh != []
    case ProcessCall(k, _, _, _) => k < |x.spawned|
    case Reload(_) => true
  }

  /** What the methods of Dispatcher.Server ensure of these calls. */
  function After(x: Session, c: Call): Session
    requires Possible(x, c)
  {
    match c
    case AcceptCall(req, now, found, recorded) =>
      var a := Accepted(x.image, req, now, found, recorded);
      x.(image := a.after, pending := a.work)
    case SendCall => x.(image := x.image.(tasksCh := x.image.tasksCh + [x.pending.value]), pending := None)
    case ReceiveCall =>
      x.(image := x.image.(tasksCh := x.image.tasksCh[1..]), spawned := x.spawned + [x.image.tasksCh[0]])
    case ProcessCall(k, failed, now, commits) =>
      x.(image := Processed(x.image, x.spawned[k], failed, now, commits),
         spawned := x.spawned[..k] + x.spawned[k + 1..])
    case Reload(world) => x.(image := x.image.(world := world))
  }

  /** What the constructor of Dispatcher.Server ensures of a new object over an empty job store. */
  function Fresh(world: World): Session {
    Session(Image(false, 0, 0, world, EMPTY, Active.Active(map[], multiset{}), []), None, [])
  }

  function Play(world: World, calls: seq<Call>): Option<Session> {
    if calls == [] then Some(Fresh(world)) else
      var before := Play(world, calls[..|calls| - 1]);
      var c := calls[|calls| - 1];
      if before.Some? && Possible(before.value, c) then Some(After(before.value, c)) else None
  }

  // --------------------------------------------------------------- agreement

  ghost predicate HoldsAll(s: State, works: seq<Work>) {
    && (forall k :: 0 <= k < |works| ==> Holds(s, works[k], Spawned))
    && forall j, k :: 0 <= j < k < |works| ==> works[j].ticket != works[k].ticket
  }

  ghost predicate Agrees(x: Session, s: State) {
    && Matches(x.image, s)
    && s.current == (if x.pending.Some? then Some(x.pending.value.ticket) else None)
    && (x.pending.Some? ==> Holds(s, x.pending.value, Counted))
    && HoldsAll(s, x.spawned)
  }

  lemma HoldsAllStill(s: State, u: State, t: nat, works: seq<Work>)
    requires HoldsAll(s, works) && Leaves(s, u, t) && forall k :: 0 <= k < |works| ==> works[k].ticket != t
    ensures HoldsAll(u, works)
  {
    forall k | 0 <= k < |works| ensures Holds(u, works[k], Spawned) {
      assert Holds(s, works[k], Spawned);
    }
  }

  lemma NotSpawned(s: State, works: seq<Work>, t: nat)
    requires HoldsAll(s, works) && (t in s.tasks ==> s.tasks[t].phase != Spawned)
    ensures forall k :: 0 <= k < |works| ==> works[k].ticket != t
  {
    forall k | 0 <= k < |works| ensures works[k].ticket != t {
      assert Holds(s, works[k], Spawned);
    }
  }

  lemma SpawnedMore(s: State, works: seq<Work>, w: Work)
    requires HoldsAll(s, works) && Holds(s, w, Spawned) && forall k :: 0 <= k < |works| ==> works[k].ticket != w.ticket
    ensures HoldsAll(s, works + [w])
  {
  }

  lemma SpawnedLess(s: State, works: seq<Work>, k: nat)
    requires HoldsAll(s, works) && k < |works|
    ensures var rest := works[..k] + works[k + 1..];
      HoldsAll(s, rest) && forall j :: 0 <= j < |rest| ==> rest[j].ticket != works[k].ticket
  {
    var rest := works[..k] + works[k + 1..];
    forall j | 0 <= j < |rest| ensures Holds(s, rest[j], Spawned) && rest[j].ticket != works[k].ticket {
      assert rest[j] == if j < k then works[j] else works[j + 1];
    }
  }

  // ---------------------------------------------------------------- each call

  lemma AcceptAgrees(x: Session, s: State, c: Call) returns (es: seq<Event>, u: State)
    requires Agrees(x, s) && c.AcceptCall? && Possible(x, c) && s.received !in s.tasks
    ensures Run(s, es) == Some(u) && Agrees(After(x, c), u)
  {
    hide Run, Accepted, TakesNumberOf, Matches, HoldsAll, Holds;
    es, u := AcceptFollows(x.image, s, c.req, c.now, c.found, c.recorded);
    NotSpawned(s, x.spawned, s.received);
    HoldsAllStill(s, u, s.received, x.spawned);
  }

  lemma SendAgrees(x: Session, s: State) returns (es: seq<Event>, u: State)
    requires Agrees(x, s) && Possible(x, SendCall)
    ensures Run(s, es) == Some(u) && Agrees(After(x, SendCall), u)
  {
    hide Run, HoldsAll;
    var w := x.pending.value;
    es, u := SendFollows(x.image, s, w);
    hide Matches, Holds;
    assert TaskIn(s, w.ticket, Counted);
    NotSpawned(s, x.spawned, w.ticket);
    HoldsAllStill(s, u, w.ticket, x.spawned);
  }

  lemma ReceiveAgrees(x: Session, s: State) returns (es: seq<Event>, u: State)
    requires Agrees(x, s) && Possible(x, ReceiveCall)
    requires forall j, k :: 0 <= j < k < |s.queue| ==> s.queue[j] < s.queue[k]
    ensures Run(s, es) == Some(u) && Agrees(After(x, ReceiveCall), u)
  {
    hide Run, HoldsAll, Matches, Holds;
    var w := x.image.tasksCh[0];
    es, u := ReceiveFollows(x.image, s);
    NotSpawned(s, x.spawned, w.ticket);
    HoldsAllStill(s, u, w.ticket, x.spawned);
    SpawnedMore(u, x.spawned, w);
    if x.pending.Some? {
      PendingStill(s, u, w.ticket, x.pending.value);
    }
  }

  lemma PendingStill(s: State, u: State, t: nat, w: Work)
    requires Holds(s, w, Counted) && Leaves(s, u, t) && (t in s.tasks ==> s.tasks[t].phase != Counted)
    ensures Holds(u, w, Counted)
  {
  }

  lemma ProcessAgrees(x: Session, s: State, c: Call) returns (es: seq<Event>, u: State)
    requires Agrees(x, s) && c.ProcessCall? && Possible(x, c)
    ensures Run(s, es) == Some(u) && Agrees(After(x, c), u)
  {
    hide Run, Matches, Processed;
    var w := x.spawned[c.k];
    assert Holds(s, w, Spawned);
    es, u := ProcessFollows(x.image, s, w, c.failed, c.now, c.commits);
    hide HoldsAll;
    SpawnedLess(s, x.spawned, c.k);
    HoldsAllStill(s, u, w.ticket, x.spawned[..c.k] + x.spawned[c.k + 1..]);
    if x.pending.Some? {
      PendingStill(s, u, w.ticket, x.pending.value);
    }
  }

  lemma ReloadAgrees(x: Session, s: State, world: World) returns (es: seq<Event>, u: State)
    requires Agrees(x, s)
    ensures Run(s, es) == Some(u) && Agrees(After(x, Reload(world)), u)
  {
    hide Run, Matches;
    es, u := ReloadFollows(x.image, s, world);
  }

  // -------------------------------------------------------------- all of them

  lemma {:induction false} RunConcat(s: State, es: seq<Event>, m: State, fs: seq<Event>, u: State)
    requires Run(s, es) == Some(m) && Run(m, fs) == Some(u)
    ensures Run(s, es + fs) == Some(u)
    decreases |fs|
  {
    if fs == [] {
      assert es + fs == es;
    } else {
      var front := fs[..|fs| - 1];
      RunConcat(s, es, m, front, Run(m, front).value);
      assert (es + fs)[..|es + fs| - 1] == es + front;
    }
  }

  lemma NewAgrees(world: World) returns (es: seq<Event>, s: State)
    ensures ExecutorRuns.Reaches(es, s) && Agrees(Fresh(world), s)
  {
    hide Run, AfterResolve, AfterAuthorize, AfterCreate, AfterFinishCall, AfterCrash;
    RunNone(INITIAL);
    es, s := RunOn(INITIAL, [], INITIAL, Restart(0));
    assert s.table == EMPTY;
    es, s := RunOn(INITIAL, es, s, Change(world));
  }

  lemma CallAgrees(x: Session, s: State, c: Call) returns (es: seq<Event>, u: State)
    requires Agrees(x, s) && Possible(x, c) && s.received !in s.tasks
    requires forall j, k :: 0 <= j < k < |s.queue| ==> s.queue[j] < s.queue[k]
    ensures Run(s, es) == Some(u) && Agrees(After(x, c), u)
  {
    hide Run, Agrees;
    match c
    case AcceptCall(_, _, _, _) => es, u := AcceptAgrees(x, s, c);
    case SendCall => es, u := SendAgrees(x, s);
    case ReceiveCall => es, u := ReceiveAgrees(x, s);
    case ProcessCall(_, _, _, _) => es, u := ProcessAgrees(x, s, c);
    case Reload(world) => es, u := ReloadAgrees(x, s, world);
  }

  lemma CallPremises(es: seq<Event>, s: State)
    requires ExecutorRuns.Reaches(es, s)
    ensures s.received !in s.tasks && forall j, k :: 0 <= j < k < |s.queue| ==> s.queue[j] < s.queue[k]
  {
    ExecutorRuns.ReachedParts(es, s);
    hide ExecutorRuns.Reaches, Memory, AllSound, Counters, Owners, RunningIndex, Contexts;
  }

  /** From a new dispatcher, any sequence of calls leads where some run of the step system leads. */
  lemma {:induction false} CallsFollow(world: World, calls: seq<Call>, x: Session) returns (es: seq<Event>, s: State)
    requires Play(world, calls) == Some(x)
    ensures ExecutorRuns.Reaches(es, s) && Agrees(x, s)
    decreases |calls|
  {
    hide Run, Agrees, After, Possible;
    if calls == [] {
      es, s := NewAgrees(world);
    } else {
      var before := Play(world, calls[..|calls| - 1]).value;
      var more: seq<Event>, u: State;
      es, s := CallsFollow(world, calls[..|calls| - 1], before);
      CallPremises(es, s);
      more, u := CallAgrees(before, s, calls[|calls| - 1]);
      RunConcat(INITIAL, es, s, more, u);
      es, s := es + more, u;
    }
  }

  // --------------------------------------------------- what the object inherits

  /** Work accepted and not yet finished. */
  ghost predicate InHand(x: Session, w: Work) {
    x.pending == Some(w) || w in x.image.tasksCh || w in x.spawned
  }

  lemma InHandIsOpen(x: Session, s: State, w: Work)
    requires Agrees(x, s) && InHand(x, w)
    ensures w.ticket in s.tasks && s.tasks[w.ticket].jobID == w.job.id && s.tasks[w.ticket].phase.IsOpen()
  {
    if w in x.image.tasksCh {
      var k :| 0 <= k < |x.image.tasksCh| && x.image.tasksCh[k] == w;
      assert TaskIn(s, s.queue[k], Queued);
    } else if w in x.spawned {
      var k :| 0 <= k < |x.spawned| && x.spawned[k] == w;
      assert Holds(s, x.spawned[k], Spawned);
    }
  }

  lemma OpenRuns(s: State, t: nat)
    requires Owners(s) && RunningIndex(s) && t in s.tasks && s.tasks[t].phase.IsOpen() && s.tasks[t].jobID != 0
    ensures var id := s.tasks[t].jobID;
      id in s.table.running && id in s.table.jobs && s.table.jobs[id].status == RUNNING && s.owner[id] == t
  {
    assert JobRight(s, t) && IndexedRight(s, s.tasks[t].jobID);
  }

  /**
   * Whatever was called on a dispatcher, the recorded jobs of the work in hand are stored as running and listed
   * in the index, and no two pieces of work share one.
   */
  lemma WorkInHandRuns(world: World, calls: seq<Call>, x: Session, w: Work, v: Work)
    requires Play(world, calls) == Some(x) && InHand(x, w) && w.job.id != 0
    ensures var table := x.image.table;
      w.job.id in table.running && w.job.id in table.jobs && table.jobs[w.job.id].status == RUNNING
    ensures InHand(x, v) && v.job.id == w.job.id ==> v.ticket == w.ticket
  {
    var es, s := CallsFollow(world, calls, x);
    hide Play;
    assert s.table == x.image.table;
    InHandIsOpen(x, s, w);
    hide Agrees, InHand;
    ExecutorRuns.ReachedParts(es, s);
    OpenRuns(s, w.ticket);
    if InHand(x, v) && v.job.id == w.job.id {
      InHandIsOpen(x, s, v);
      OpenRuns(s, v.ticket);
    }
  }
}
