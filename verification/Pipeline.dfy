/** remote/server/command_pipeline.go as a step system: agents come and go, jobs start and finish. */
module Pipeline {
  import Commands
  import opened Bytes
  import opened JobLogs
  import opened Keys
  import opened Meeseeks
  import opened Wrappers

  // ------------------------------------------------------------- registration

  /** The commands an agent offers, by name. */
  type Offer = map<Text, Command>

  /** A remote command is always recorded, and bound to the connection of its agent. */
  function Bound(cmd: Command, name: Text, conn: nat): Command {
    cmd.(name := name, record := true, conn := conn)
  }

  /** An order in which Go may walk the map of offered commands. */
  predicate IsWalk(order: seq<Text>, offer: Offer) {
    && (forall n :: n in order ==> n in offer) && (forall n :: n in offer ==> n in order)
    && forall i, j :: 0 <= i < j < |order| ==> order[i] != order[j]
  }

  function Registrations(order: seq<Text>, offer: Offer, conn: nat): seq<Commands.Registration>
    requires forall n :: n in order ==> n in offer
  {
    seq(|order|, i requires 0 <= i < |order| =>
      assert order[i] in order;
      Commands.Registration(order[i], Some(Bound(offer[order[i]], order[i], conn))))
  }

  function Joining(order: seq<Text>, offer: Offer, conn: nat): Commands.Args
    requires IsWalk(order, offer)
  {
    Commands.Args(Commands.Remote, Commands.Action.Register, Registrations(order, offer, conn))
  }

  /** Only the names matter to leave: the commands are built without an agent. */
  function Leaving(order: seq<Text>, offer: Offer): Commands.Args
    requires IsWalk(order, offer)
  {
    Commands.Args(Commands.Remote, Commands.Unregister, Registrations(order, offer, 0))
  }

  // -------------------------------------------------------------------- state

  datatype Finished = Finished(agentID: Text, jobID: uint64, content: Text, err: Text)

  /** A channel made by StartJob: what was sent on it, and whether Execute still receives from it. */
  datatype Chan = Chan(jobID: uint64, sent: seq<Finished>, listening: bool)

  datatype Stage = Popped | Logged | Sent

  /** A call of finishJob that got its channel. */
  datatype Call = Call(f: Finished, chan: nat, stage: Stage)

  /** chans and calls are never forgotten; live maps each open connection to its agent's offer. */
  datatype State = State(
    registry: Commands.Table,
    live: map<nat, Offer>,
    connections: nat,
    running: map<uint64, nat>,
    chans: seq<Chan>,
    calls: seq<Call>,
    logs: History)

  const INITIAL := State(map[], map[], 0, map[], [], [], map[])

  /** commits says whether the error log's transaction commits. */
  datatype Event =
    | RegisterAgent(offer: Offer, order: seq<Text>)
    | EndStream(conn: nat, order: seq<Text>)
    | Configure(args: Commands.Args)
    | Start(id: uint64)
    | Pop(f: Finished)
    | LogError(k: nat, commits: bool)
    | Send(k: nat)
    | GiveUp(c: nat)

  predicate CallIn(s: State, k: nat, stage: Stage) {
    k < |s.calls| && s.calls[k].stage == stage && s.calls[k].chan < |s.chans|
  }

  /** Configure stands for every registration that is not an agent's: local commands and builtins. */
  predicate Enabled(s: State, e: Event) {
    match e
    case RegisterAgent(offer, order) => IsWalk(order, offer)
    case EndStream(conn, order) => conn in s.live && IsWalk(order, s.live[conn])
    case Configure(args) => args.kind != Commands.Remote
    case Start(_) => true
    case Pop(_) => true
    case LogError(k, _) => CallIn(s, k, Popped)
    case Send(k) => CallIn(s, k, Logged) && s.chans[s.calls[k].chan].listening
    case GiveUp(c) => c < |s.chans|
  }

  /** Connections are numbered from 1. */
  function AfterRegister(s: State, offer: Offer, order: seq<Text>): State
    requires IsWalk(order, offer)
  {
    var conn := s.connections + 1;
    var args := Joining(order, offer, conn);
    if Commands.Acceptable(s.registry, args) then
      s.(registry := Commands.Registered(s.registry, args), live := s.live[conn := offer], connections := conn)
    else s.(connections := conn)
  }

  function AfterStart(s: State, id: uint64): State {
    s.(running := s.running[id := |s.chans|], chans := s.chans + [Chan(id, [], true)])
  }

  function AfterPop(s: State, f: Finished): State {
    if f.jobID in s.running then
      s.(running := s.running - {f.jobID}, calls := s.calls + [Call(f, s.running[f.jobID], Popped)])
    else s
  }

  function AfterLog(s: State, k: nat, commits: bool): State
    requires k < |s.calls|
  {
    var f := s.calls[k].f;
    s.(calls := s.calls[k := s.calls[k].(stage := Logged)],
       logs := if f.err != [] && commits then Written(s.logs, SetError(f.jobID, Some(f.err))) else s.logs)
  }

  function AfterSend(s: State, k: nat): State
    requires k < |s.calls| && s.calls[k].chan < |s.chans|
  {
    var c := s.calls[k].chan;
    s.(calls := s.calls[k := s.calls[k].(stage := Sent)],
       chans := s.chans[c := s.chans[c].(sent := s.chans[c].sent + [s.calls[k].f], listening := false)])
  }

  function Step(s: State, e: Event): State
    requires Enabled(s, e)
  {
    match e
    case RegisterAgent(offer, order) => AfterRegister(s, offer, order)
    case EndStream(conn, order) =>
      s.(registry := Commands.Registered(s.registry, Leaving(order, s.live[conn])), live := s.live - {conn})
    case Configure(args) => s.(registry := Commands.Registered(s.registry, args))
    case Start(id) => AfterStart(s, id)
    case Pop(f) => AfterPop(s, f)
    case LogError(k, commits) => AfterLog(s, k, commits)
    case Send(k) => AfterSend(s, k)
    case GiveUp(c) => s.(chans := s.chans[c := s.chans[c].(listening := false)])
  }

  function Run(s: State, es: seq<Event>): Option<State> {
    if es == [] then Some(s) else
      var before := Run(s, es[..|es| - 1]);
      var e := es[|es| - 1];
      if before.Some? && Enabled(before.value, e) then Some(Step(before.value, e)) else None
  }

  // ------------------------------------------------- what registration amounts to

  lemma RegistrationNames(order: seq<Text>, offer: Offer, conn: nat)
    requires IsWalk(order, offer)
    ensures Commands.Names(Registrations(order, offer, conn)) == offer.Keys
  {
    var cs := Registrations(order, offer, conn);
    forall n ensures n in Commands.Names(cs) <==> n in offer {
      if n in offer {
        assert n in order;
        var i :| 0 <= i < |order| && order[i] == n;
        assert cs[i].name == n;
      }
      if n in Commands.Names(cs) {
        var i :| 0 <= i < |cs| && cs[i].name == n;
        assert order[i] in order;
      }
    }
  }

  predicate CanJoin(t: Commands.Table, offer: Offer) {
    forall n :: n in offer ==> !Blank(n) && n !in t
  }

  function Hubs(offer: Offer, conn: nat): Commands.Table {
    map n | n in offer :: Commands.Hub(Commands.Remote, Bound(offer[n], n, conn))
  }

  lemma RegistrationBinds(order: seq<Text>, offer: Offer, conn: nat, r: Commands.Registration)
    requires IsWalk(order, offer) && r in Registrations(order, offer, conn)
    ensures r.name in offer && r.cmd == Some(Bound(offer[r.name], r.name, conn))
  {
    var i :| 0 <= i < |order| && Registrations(order, offer, conn)[i] == r;
    assert order[i] in order;
  }

  lemma IsSum(t: Commands.Table, h: Commands.Table, u: Commands.Table)
    requires u.Keys == t.Keys + h.Keys
    requires forall n :: n in t && n !in h ==> u[n] == t[n]
    requires forall n :: n in h ==> u[n] == h[n]
    ensures u == t + h
  {
  }

  lemma JoinAdds(t: Commands.Table, order: seq<Text>, offer: Offer, conn: nat)
    requires IsWalk(order, offer)
    ensures Commands.Added(t, Commands.Remote, Registrations(order, offer, conn)) == t + Hubs(offer, conn)
  {
    var cs := Registrations(order, offer, conn);
    var u := Commands.Added(t, Commands.Remote, cs);
    RegistrationNames(order, offer, conn);
    hide Commands.Added, IsWalk, Bound, Registrations, Commands.Names;
    forall n | n in offer ensures u[n] == Hubs(offer, conn)[n] {
      RegistrationBinds(order, offer, conn, Commands.Registration(n, Some(u[n].cmd)));
    }
    assert Hubs(offer, conn).Keys == offer.Keys;
    hide Hubs;
    IsSum(t, Hubs(offer, conn), u);
  }

  /**
   * Whatever order the offer is walked in, an agent is taken exactly when no name it offers is blank
   * or present already, and then the registry gains its commands bound to it, and nothing else.
   */
  lemma {:induction false} JoinRegisters(t: Commands.Table, order: seq<Text>, offer: Offer, conn: nat)
    requires IsWalk(order, offer)
    ensures Commands.Acceptable(t, Joining(order, offer, conn)) <==> CanJoin(t, offer)
    ensures Commands.Registered(t, Joining(order, offer, conn))
         == if CanJoin(t, offer) then t + Hubs(offer, conn) else t
  {
    FaultlessJoin(t, order, offer, conn);
    hide Commands.Acceptable, CanJoin, Commands.Added, Registrations, Hubs, IsWalk;
    if CanJoin(t, offer) {
      JoinAdds(t, order, offer, conn);
    }
  }

  lemma FaultlessJoin(t: Commands.Table, order: seq<Text>, offer: Offer, conn: nat)
    requires IsWalk(order, offer)
    ensures Commands.Acceptable(t, Joining(order, offer, conn)) <==> CanJoin(t, offer)
  {
    var args := Joining(order, offer, conn);
    assert forall i :: 0 <= i < |order| ==>
      (Commands.FaultAt(t, args, i).None? <==> !Blank(order[i]) && order[i] !in t);
    if CanJoin(t, offer) {
      forall i | 0 <= i < |args.commands| ensures Commands.FaultAt(t, args, i).None? {
        assert order[i] in order;
      }
    }
    if Commands.Acceptable(t, args) {
      forall n | n in offer ensures !Blank(n) && n !in t {
        assert n in order;
        var i :| 0 <= i < |order| && order[i] == n;
        assert Commands.FaultAt(t, args, i).None?;
      }
    }
  }

  /** What registering an agent comes to. */
  function Joined(s: State, offer: Offer): State {
    var conn := s.connections + 1;
    if CanJoin(s.registry, offer) then
      s.(registry := s.registry + Hubs(offer, conn), live := s.live[conn := offer], connections := conn)
    else s.(connections := conn)
  }

  lemma {:induction false} JoinStep(s: State, offer: Offer, order: seq<Text>)
    requires IsWalk(order, offer)
    ensures AfterRegister(s, offer, order) == Joined(s, offer)
  {
    hide Joining, IsWalk, Commands.Acceptable, Commands.Registered, CanJoin, Hubs;
    JoinRegisters(s.registry, order, offer, s.connections + 1);
    if CanJoin(s.registry, offer) {
      assert Commands.Acceptable(s.registry, Joining(order, offer, s.connections + 1));
    }
  }

  predicate CanLeave(t: Commands.Table, offer: Offer) {
    forall n :: n in offer ==> !Blank(n) && n in t && t[n].kind == Commands.Remote
  }

  lemma FaultlessLeave(t: Commands.Table, order: seq<Text>, offer: Offer)
    requires IsWalk(order, offer)
    ensures Commands.Acceptable(t, Leaving(order, offer)) <==> CanLeave(t, offer)
  {
    var args := Leaving(order, offer);
    assert forall i :: 0 <= i < |order| ==>
      (Commands.FaultAt(t, args, i).None?
       <==> !Blank(order[i]) && order[i] in t && t[order[i]].kind == Commands.Remote);
    if CanLeave(t, offer) {
      forall i | 0 <= i < |args.commands| ensures Commands.FaultAt(t, args, i).None? {
        assert order[i] in order;
      }
    }
    if Commands.Acceptable(t, args) {
      forall n | n in offer ensures !Blank(n) && n in t && t[n].kind == Commands.Remote {
        assert n in order;
        var i :| 0 <= i < |order| && order[i] == n;
        assert Commands.FaultAt(t, args, i).None?;
      }
    }
  }

  /** Leaving is accepted exactly when every name is a remote command's, and takes exactly those names. */
  lemma {:induction false} LeaveRegisters(t: Commands.Table, order: seq<Text>, offer: Offer)
    requires IsWalk(order, offer)
    ensures Commands.Acceptable(t, Leaving(order, offer)) <==> CanLeave(t, offer)
    ensures Commands.Registered(t, Leaving(order, offer)) == if CanLeave(t, offer) then t - offer.Keys else t
  {
    FaultlessLeave(t, order, offer);
    RegistrationNames(order, offer, 0);
    hide Commands.Acceptable, CanLeave, IsWalk, Registrations, Commands.Names;
  }

  /** No registration of another kind touches a remote command. */
  lemma OthersKeepRemotes(t: Commands.Table, args: Commands.Args)
    requires args.kind != Commands.Remote
    ensures var u := Commands.Registered(t, args);
      && (forall n :: n in t && t[n].kind == Commands.Remote ==> n in u && u[n] == t[n])
      && (forall n :: n in u && u[n].kind == Commands.Remote ==> n in t && u[n] == t[n])
  {
    if Commands.Acceptable(t, args) {
      forall n | n in Commands.Names(args.commands) ensures n in t ==> t[n].kind == args.kind {
        var i :| 0 <= i < |args.commands| && args.commands[i].name == n;
        assert Commands.FaultAt(t, args, i).None?;
      }
    }
  }
}
