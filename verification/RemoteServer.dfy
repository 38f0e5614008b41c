/** remote/server/command_pipeline.go and remote/agent/agent.go as objects: the two ends of the pipeline. */
module RemoteServer {
  import Aliases
  import Commands
  import opened Bytes
  import opened JobLogs
  import opened Keys
  import opened Meeseeks
  import opened Pipeline
  import opened Wrappers

  /** One registration for each offered command, in some order. */
  ghost predicate ListsOffer(cmds: seq<Commands.Registration>, offer: Offer, conn: nat) {
    exists order :: IsWalk(order, offer) && cmds == Registrations(order, offer, conn)
  }

  lemma JoinListed(t: Commands.Table, cmds: seq<Commands.Registration>, offer: Offer, conn: nat)
    requires ListsOffer(cmds, offer, conn)
    ensures var args := Commands.Args(Commands.Remote, Commands.Action.Register, cmds);
      && (Commands.Acceptable(t, args) <==> CanJoin(t, offer))
      && Commands.Registered(t, args) == if CanJoin(t, offer) then t + Hubs(offer, conn) else t
  {
    var order :| IsWalk(order, offer) && cmds == Registrations(order, offer, conn);
    hide Commands.Registered, Commands.Acceptable, Registrations, Hubs, CanJoin, IsWalk;
    JoinRegisters(t, order, offer, conn);
  }

  lemma LeaveListed(t: Commands.Table, cmds: seq<Commands.Registration>, offer: Offer)
    requires ListsOffer(cmds, offer, 0)
    ensures var args := Commands.Args(Commands.Remote, Commands.Unregister, cmds);
      && (Commands.Acceptable(t, args) <==> CanLeave(t, offer))
      && Commands.Registered(t, args) == if CanLeave(t, offer) then t - offer.Keys else t
  {
    var order :| IsWalk(order, offer) && cmds == Registrations(order, offer, 0);
    hide Commands.Registered, Commands.Acceptable, Registrations, CanLeave, IsWalk;
    LeaveRegisters(t, order, offer);
  }

  class Server {
    const registry: Commands.Registry
    var runningJobs: map<uint64, nat>
    var connections: nat
    /** The channels made, the calls of finishJob and the open streams live in goroutines; they are kept here. */
    var live: map<nat, Offer>
    var chans: seq<Chan>
    var calls: seq<Call>
    var logs: History

    ghost function View(): State
      reads this, registry
    {
      Pipeline.State.State(registry.commands, live, connections, runningJobs, chans, calls, logs)
    }

    constructor (registry: Commands.Registry)
      requires registry.commands == map[]
      ensures View() == INITIAL && this.registry == registry
    {
      this.registry := registry;
      runningJobs, connections, live, chans, calls, logs := map[], 0, map[], [], [], map[];
    }

    /** One registration per offered command, in whatever order the map is walked. */
    method Registered(offer: Offer, conn: nat) returns (cmds: seq<Commands.Registration>)
      ensures ListsOffer(cmds, offer, conn)
    {
      cmds := [];
      ghost var order: seq<Text> := [];
      var rest := offer.Keys;
      while rest != {}
        invariant rest <= offer.Keys
        invariant forall n :: n in order <==> n in offer && n !in rest
        invariant forall i, j :: 0 <= i < j < |order| ==> order[i] != order[j]
        invariant cmds == Registrations(order, offer, conn)
      {
        var name :| name in rest;
        cmds := cmds + [Commands.Registration(name, Some(Bound(offer[name], name, conn)))];
        order := order + [name];
        rest := rest - {name};
      }
    }

    method RegisterAgent(offer: Offer) returns (conn: Option<nat>)
      modifies this, registry
      ensures View() == Joined(old(View()), offer)
      ensures conn == if CanJoin(old(registry.commands), offer) then Some(old(connections) + 1) else None
    {
      hide Commands.Registered, Commands.Acceptable, Hubs, CanJoin, ListsOffer;
      connections := connections + 1;
      var cmds := Registered(offer, connections);
      JoinListed(registry.commands, cmds, offer, connections);
      var error := registry.Register(Commands.Args(Commands.Remote, Commands.Action.Register, cmds));
      if error.Some? {
        return None;
      }
      live := live[connections := offer];
      return Some(connections);
    }

    method DeRegisterAgentCommands(conn: nat) returns (error: Option<Commands.RegisterError>)
      requires conn in live
      modifies this, registry
      ensures var s := old(View());
        var own := s.live[conn];
        View() == s.(live := s.live - {conn},
                     registry := if CanLeave(s.registry, own) then s.registry - own.Keys else s.registry)
      ensures error.None? <==> CanLeave(old(registry.commands), old(live)[conn])
    {
      hide Commands.Registered, Commands.Acceptable, CanLeave, ListsOffer;
      var cmds := Registered(live[conn], 0);
      LeaveListed(registry.commands, cmds, live[conn]);
      error := registry.Register(Commands.Args(Commands.Remote, Commands.Unregister, cmds));
      live := live - {conn};
    }

    method StartJob(id: uint64) returns (c: nat)
      modifies this
      ensures View() == AfterStart(old(View()), id)
      ensures c == |old(chans)| && runningJobs == old(runningJobs)[id := c]
      ensures chans == old(chans) + [Chan(id, [], true)]
    {
      c := |chans|;
      chans := chans + [Chan(id, [], true)];
      runningJobs := runningJobs[id := c];
    }

    method PopJob(id: uint64) returns (c: Option<nat>)
      modifies this
      ensures c == if id in old(runningJobs) then Some(old(runningJobs)[id]) else None
      ensures View() == old(View()).(running := old(runningJobs) - {id})
    {
      if id !in runningJobs {
        assert runningJobs - {id} == runningJobs;
        return None;
      }
      c := Some(runningJobs[id]);
      runningJobs := runningJobs - {id};
    }

    /**
     * Returns false for an unknown job. Otherwise the call gets through its log step, and through the
     * send as well when Execute still receives; without a receiver it stays blocked there.
     */
    method FinishJob(f: Finished, commits: bool) returns (known: bool)
      requires forall id :: id in runningJobs ==> runningJobs[id] < |chans|
      modifies this
      ensures known <==> f.jobID in old(runningJobs)
      ensures !known ==> View() == old(View())
      ensures known ==> View() == FinishedCall(old(View()), f, commits)
      ensures known ==> runningJobs == old(runningJobs) - {f.jobID}
      ensures known ==>
        logs == if f.err == [] || !commits then old(logs)
                else old(logs)[f.jobID := Log(LogOf(old(logs), f.jobID).lines, Some(f.err))]
      ensures known ==>
        var c := old(runningJobs)[f.jobID];
        |chans| == |old(chans)| && chans[c].sent == old(chans)[c].sent + if old(chans)[c].listening then [f] else []
    {
      var c := PopJob(f.jobID);
      if c.None? {
        assert runningJobs == old(runningJobs);
        return false;
      }
      if f.err != [] && commits {
        logs := Written(logs, SetError(f.jobID, Some(f.err)));
      }
      hide Written;
      calls := calls + [Call(f, c.value, Logged)];
      if chans[c.value].listening {
        calls := calls[|calls| - 1 := Call(f, c.value, Sent)];
        chans := chans[c.value := Chan(chans[c.value].jobID, chans[c.value].sent + [f], false)];
      }
      return true;
    }
  }

  /** A call of finishJob run as far as it gets when nothing interferes. */
  function FinishedCall(s: State, f: Finished, commits: bool): State
    requires f.jobID in s.running && s.running[f.jobID] < |s.chans|
  {
    var k := |s.calls|;
    var logged := AfterLog(AfterPop(s, f), k, commits);
    if s.chans[s.running[f.jobID]].listening then AfterSend(logged, k) else logged
  }

  lemma RunOn(s: State, es: seq<Event>, t: State, e: Event)
    requires Run(s, es) == Some(t) && Enabled(t, e)
    ensures Run(s, es + [e]) == Some(Step(t, e))
  {
    hide Enabled, Step;
    assert (es + [e])[..|es|] == es;
  }

  /** Finishing in one go is a run of the step system, one that ends in the same state. */
  lemma FinishIsARun(s: State, f: Finished, commits: bool)
    requires f.jobID in s.running && s.running[f.jobID] < |s.chans|
    ensures exists es :: Run(s, es) == Some(FinishedCall(s, f, commits))
  {
    hide Run, Written, AfterRegister, AfterStart, Leaving, IsWalk;
    var k := |s.calls|;
    var popped := AfterPop(s, f);
    var logged := AfterLog(popped, k, commits);
    var es := [Pop(f)] + [LogError(k, commits)];
    assert Run(s, []) == Some(s) by { RunNone(s); }
    RunOn(s, [], s, Pop(f));
    assert [] + [Pop(f)] == [Pop(f)];
    RunOn(s, [Pop(f)], popped, LogError(k, commits));
    if s.chans[s.running[f.jobID]].listening {
      RunOn(s, es, logged, Send(k));
    }
  }

  lemma RunNone(s: State)
    ensures Run(s, []) == Some(s)
  {
  }

  // ---------------------------------------------------------------- the agent

  /** The bytes of an ASCII message. */
  function Ascii(message: string): Text
    requires forall i :: 0 <= i < |message| ==> message[i] < 128 as char
  {
    seq(|message|, i requires 0 <= i < |message| => message[i] as int as byte)
  }

  /** Never empty, so that the server takes the finish for a failure. */
  function NotFound(name: Text): (message: Text)
    ensures message != []
  {
    Ascii("could not find command ") + name + Ascii(" in remote agent")
  }

  class Agent {
    const agentID: Text
    const registry: Commands.Registry
    const aliases: Aliases.Store
    /** What was sent to the server's Finish. */
    var finishes: seq<Finished>

    constructor (agentID: Text, registry: Commands.Registry, aliases: Aliases.Store)
      ensures finishes == [] && this.agentID == agentID && this.registry == registry && this.aliases == aliases
    {
      this.agentID, this.registry, this.aliases := agentID, registry, aliases;
      finishes := [];
    }

    /**
     * Every request is answered by one finish, for its own job: with an error when the agent does not have
     * the command, and otherwise with what execution, given as content and err, came to.
     */
    method RunCommand(jobID: uint64, req: Request, commits: bool, content: Text, err: Text)
      requires aliases.Valid()
      modifies this, aliases
      ensures aliases.Valid() && aliases.table == old(aliases.table)
      ensures var alias := if commits then Commands.AliasIn(aliases.table, req) else None;
        var cmd := Commands.Found(registry.commands, alias, req).1;
        finishes == old(finishes)
          + [if cmd.Some? then Finished(agentID, jobID, content, err)
             else Finished(agentID, jobID, [], NotFound(req.command))]
      ensures |finishes| == |old(finishes)| + 1 && finishes[|old(finishes)|].jobID == jobID
      ensures var alias := if commits then Commands.AliasIn(aliases.table, req) else None;
        Commands.Found(registry.commands, alias, req).1.None? ==> finishes[|old(finishes)|].err != []
    {
      var rq := new Commands.RequestVar(req);
      var localCmd := registry.Find(aliases, rq, commits);
      if localCmd.None? {
        finishes := finishes + [Finished(agentID, jobID, [], NotFound(req.command))];
        return;
      }
      finishes := finishes + [Finished(agentID, jobID, content, err)];
    }
  }
}
