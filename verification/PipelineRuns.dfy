/** What holds over every run of the remote pipeline. */
module PipelineRuns {
  import Commands
  import opened Bytes
  import opened JobLogs
  import opened Keys
  import opened Meeseeks
  import opened Pipeline
  import opened Wrappers

  ghost predicate Reaches(es: seq<Event>, s: State) {
    Run(INITIAL, es) == Some(s)
  }

  // ---------------------------------------------------------------- ownership

  ghost predicate HasOffer(s: State, conn: nat, n: Text) {
    conn in s.live && n in s.live[conn]
  }

  /** Every offered command of a live agent is there, as offered and bound to that agent's connection. */
  ghost predicate Present(s: State) {
    forall conn, n {:trigger HasOffer(s, conn, n)} :: HasOffer(s, conn, n) ==>
      n in s.registry && s.registry[n] == Commands.Hub(Commands.Remote, Bound(s.live[conn][n], n, conn))
  }

  /** Every remote command is one that the live agent it is bound to offers. */
  ghost predicate Attributed(s: State) {
    forall n :: n in s.registry && s.registry[n].kind == Commands.Remote ==> HasOffer(s, s.registry[n].cmd.conn, n)
  }

  ghost predicate Owned(s: State) {
    && Commands.NamesPresent(s.registry)
    && Present(s) && Attributed(s)
    && forall conn :: conn in s.live ==> 1 <= conn <= s.connections
  }

  lemma HubOf(offer: Offer, conn: nat, n: Text)
    ensures n in Hubs(offer, conn) <==> n in offer
    ensures n in offer ==> Hubs(offer, conn)[n] == Commands.Hub(Commands.Remote, Bound(offer[n], n, conn))
    ensures n in offer ==> Hubs(offer, conn)[n].cmd.conn == conn
  {
  }

  lemma PresentJoin(s: State, u: State, offer: Offer, conn: nat)
    requires Present(s) && CanJoin(s.registry, offer) && conn !in s.live
    requires u.registry == s.registry + Hubs(offer, conn) && u.live == s.live[conn := offer]
    ensures Present(u)
  {
    forall n ensures n in Hubs(offer, conn) <==> n in offer {
      HubOf(offer, conn, n);
    }
    hide Hubs, Bound;
    forall k, n | HasOffer(u, k, n)
      ensures n in u.registry && u.registry[n] == Commands.Hub(Commands.Remote, Bound(u.live[k][n], n, k))
    {
      HubOf(offer, conn, n);
      if k != conn {
        assert HasOffer(s, k, n);
      }
    }
  }

  lemma AttributedJoin(s: State, u: State, offer: Offer, conn: nat)
    requires Attributed(s) && conn !in s.live
    requires u.registry == s.registry + Hubs(offer, conn) && u.live == s.live[conn := offer]
    ensures Attributed(u)
  {
    forall n ensures n in Hubs(offer, conn) <==> n in offer {
      HubOf(offer, conn, n);
    }
    hide Hubs, Bound;
    forall n | n in u.registry && u.registry[n].kind == Commands.Remote ensures HasOffer(u, u.registry[n].cmd.conn, n) {
      HubOf(offer, conn, n);
      if n !in offer {
        assert HasOffer(s, s.registry[n].cmd.conn, n);
      }
    }
  }

  lemma OwnedJoin(s: State, offer: Offer)
    requires Owned(s) && CanJoin(s.registry, offer)
    ensures Owned(Joined(s, offer))
  {
    var conn := s.connections + 1;
    var u := Joined(s, offer);
    assert conn !in s.live;
    forall n ensures n in Hubs(offer, conn) <==> n in offer {
      HubOf(offer, conn, n);
    }
    hide Hubs, Present, Attributed;
    PresentJoin(s, u, offer, conn);
    AttributedJoin(s, u, offer, conn);
  }

  lemma OwnNames(s: State, conn: nat)
    requires Owned(s) && conn in s.live
    ensures forall n :: n in s.live[conn] ==> !Blank(n) && n in s.registry && s.registry[n].kind == Commands.Remote
  {
    forall n | n in s.live[conn] ensures !Blank(n) && n in s.registry && s.registry[n].kind == Commands.Remote {
      assert HasOffer(s, conn, n);
    }
  }

  lemma Apart(s: State, conn: nat, other: nat, n: Text)
    requires Present(s) && HasOffer(s, conn, n) && HasOffer(s, other, n)
    ensures conn == other
  {
  }

  lemma OwnedLeave(s: State, conn: nat, order: seq<Text>)
    requires Owned(s) && conn in s.live && IsWalk(order, s.live[conn])
    ensures Owned(s.(registry := s.registry - s.live[conn].Keys, live := s.live - {conn}))
  {
    hide IsWalk;
    var u := s.(registry := s.registry - s.live[conn].Keys, live := s.live - {conn});
    forall k, n | HasOffer(u, k, n)
      ensures n in u.registry && u.registry[n] == Commands.Hub(Commands.Remote, Bound(u.live[k][n], n, k))
    {
      assert HasOffer(s, k, n);
      if HasOffer(s, conn, n) {
        Apart(s, conn, k, n);
      }
    }
    forall n | n in u.registry && u.registry[n].kind == Commands.Remote ensures HasOffer(u, u.registry[n].cmd.conn, n) {
      assert HasOffer(s, s.registry[n].cmd.conn, n);
    }
  }

  lemma OwnedConfigure(s: State, args: Commands.Args)
    requires Owned(s) && args.kind != Commands.Remote
    ensures Owned(s.(registry := Commands.Registered(s.registry, args)))
  {
    OthersKeepRemotes(s.registry, args);
    Commands.RegisterKeeps(s.registry, args);
    hide Commands.Registered, Bound;
    var u := s.(registry := Commands.Registered(s.registry, args));
    forall k, n | HasOffer(u, k, n)
      ensures n in u.registry && u.registry[n] == Commands.Hub(Commands.Remote, Bound(u.live[k][n], n, k))
    {
      assert HasOffer(s, k, n);
    }
    forall n | n in u.registry && u.registry[n].kind == Commands.Remote ensures HasOffer(u, u.registry[n].cmd.conn, n) {
      assert HasOffer(s, s.registry[n].cmd.conn, n);
    }
  }

  lemma OwnedSame(s: State, u: State)
    requires Owned(s) && u.registry == s.registry && u.live == s.live && u.connections >= s.connections
    ensures Owned(u)
  {
    hide Bound;
    forall k, n | HasOffer(u, k, n)
      ensures n in u.registry && u.registry[n] == Commands.Hub(Commands.Remote, Bound(u.live[k][n], n, k))
    {
      assert HasOffer(s, k, n);
    }
    forall n | n in u.registry && u.registry[n].kind == Commands.Remote ensures HasOffer(u, u.registry[n].cmd.conn, n) {
      assert HasOffer(s, s.registry[n].cmd.conn, n);
    }
  }

  lemma {:induction false} OwnedStep(s: State, e: Event)
    requires Owned(s) && Enabled(s, e)
    ensures Owned(Step(s, e))
  {
    hide Owned;
    match e
    case RegisterAgent(offer, order) =>
      JoinStep(s, offer, order);
      if CanJoin(s.registry, offer) {
        OwnedJoin(s, offer);
      } else {
        OwnedSame(s, Step(s, e));
      }
    case EndStream(conn, order) =>
      OwnNames(s, conn);
      LeaveRegisters(s.registry, order, s.live[conn]);
      OwnedLeave(s, conn, order);
    case Configure(args) => OwnedConfigure(s, args);
    case _ =>
      OwnedSame(s, Step(s, e));
  }

  // ----------------------------------------------------------- jobs and finishes

  /** The call of finishJob that got channel c, if there is one. */
  ghost predicate Called(s: State, c: nat) {
    exists k :: 0 <= k < |s.calls| && s.calls[k].chan == c
  }

  /** A later job under the same ID took the place of channel c. */
  ghost predicate Replaced(s: State, c: nat) {
    exists d :: c < d < |s.chans| && c < |s.chans| && s.chans[d].jobID == s.chans[c].jobID
  }

  ghost predicate Waiting(s: State, c: nat) {
    c < |s.chans| && s.chans[c].jobID in s.running && s.running[s.chans[c].jobID] == c
  }

  ghost predicate RunningRight(s: State, id: uint64)
    requires id in s.running
  {
    var c := s.running[id];
    && c < |s.chans| && s.chans[c].jobID == id && s.chans[c].sent == []
    && forall k :: 0 <= k < |s.calls| ==> s.calls[k].chan != c
  }

  ghost predicate CallRight(s: State, k: nat)
    requires k < |s.calls|
  {
    var call := s.calls[k];
    && call.chan < |s.chans|
    && s.chans[call.chan].jobID == call.f.jobID
    && s.chans[call.chan].sent == if call.stage == Sent then [call.f] else []
  }

  ghost predicate ChanRight(s: State, c: nat)
    requires c < |s.chans|
  {
    && (s.chans[c].sent != [] ==> Called(s, c))
    && (Waiting(s, c) || Called(s, c) || Replaced(s, c))
  }

  /** A channel is in the map, or with one call, or sent on; never in two places. */
  ghost predicate Tokens(s: State) {
    && (forall id {:trigger RunningRight(s, id)} :: id in s.running ==> RunningRight(s, id))
    && (forall k {:trigger CallRight(s, k)} :: 0 <= k < |s.calls| ==> CallRight(s, k))
    && (forall k, l {:trigger s.calls[k], s.calls[l]} :: 0 <= k < l < |s.calls| ==> s.calls[k].chan != s.calls[l].chan)
    && (forall c {:trigger ChanRight(s, c)} :: 0 <= c < |s.chans| ==> ChanRight(s, c))
  }

  lemma CalledStill(s: State, u: State, c: nat)
    requires |s.calls| <= |u.calls| && forall k :: 0 <= k < |s.calls| ==> u.calls[k].chan == s.calls[k].chan
    ensures Called(s, c) ==> Called(u, c)
  {
    if Called(s, c) {
      var k :| 0 <= k < |s.calls| && s.calls[k].chan == c;
      assert u.calls[k].chan == c;
    }
  }

  lemma ReplacedStill(s: State, u: State, c: nat)
    requires |s.chans| <= |u.chans| && forall d :: 0 <= d < |s.chans| ==> u.chans[d].jobID == s.chans[d].jobID
    ensures Replaced(s, c) ==> Replaced(u, c)
  {
    if Replaced(s, c) {
      var d :| c < d < |s.chans| && c < |s.chans| && s.chans[d].jobID == s.chans[c].jobID;
      assert u.chans[d].jobID == u.chans[c].jobID;
    }
  }

  lemma TokensStart(s: State, id: uint64)
    requires Tokens(s)
    ensures Tokens(AfterStart(s, id))
  {
    var u := AfterStart(s, id);
    var n := |s.chans|;
    forall j | j in u.running ensures RunningRight(u, j) {
      if j != id {
        assert RunningRight(s, j);
      } else {
        forall k | 0 <= k < |u.calls| ensures u.calls[k].chan != n {
          assert CallRight(s, k);
        }
      }
    }
    forall k | 0 <= k < |u.calls| ensures CallRight(u, k) {
      assert CallRight(s, k);
    }
    forall c | 0 <= c < |u.chans| ensures ChanRight(u, c) {
      if c == n {
        assert Waiting(u, c);
      } else {
        assert ChanRight(s, c);
        CalledStill(s, u, c);
        ReplacedStill(s, u, c);
        if Waiting(s, c) && !Waiting(u, c) {
          assert c < n < |u.chans| && u.chans[n].jobID == u.chans[c].jobID;
        }
      }
    }
  }

  lemma TokensPop(s: State, f: Finished)
    requires Tokens(s)
    ensures Tokens(AfterPop(s, f))
  {
    var u := AfterPop(s, f);
    if f.jobID in s.running {
      var c := s.running[f.jobID];
      assert RunningRight(s, f.jobID);
      forall j | j in u.running ensures RunningRight(u, j) {
        assert RunningRight(s, j);
      }
      forall k | 0 <= k < |u.calls| ensures CallRight(u, k) {
        assert k < |s.calls| ==> CallRight(s, k);
      }
      forall d | 0 <= d < |u.chans| ensures ChanRight(u, d) {
        assert ChanRight(s, d);
        CalledStill(s, u, d);
        ReplacedStill(s, u, d);
        assert u.calls[|s.calls|].chan == c;
      }
    }
  }

  /** A call moves to its next stage without a send. */
  lemma TokensLog(s: State, k: nat, commits: bool)
    requires Tokens(s) && CallIn(s, k, Popped)
    ensures Tokens(AfterLog(s, k, commits))
  {
    var u := AfterLog(s, k, commits);
    forall j | j in u.running ensures RunningRight(u, j) {
      assert RunningRight(s, j);
    }
    forall l | 0 <= l < |u.calls| ensures CallRight(u, l) {
      assert CallRight(s, l);
    }
    forall d | 0 <= d < |u.chans| ensures ChanRight(u, d) {
      assert ChanRight(s, d);
      CalledStill(s, u, d);
      ReplacedStill(s, u, d);
    }
  }

  lemma TokensSend(s: State, k: nat)
    requires Tokens(s) && CallIn(s, k, Logged)
    ensures Tokens(AfterSend(s, k))
  {
    var u := AfterSend(s, k);
    assert CallRight(s, k);
    assert u.calls[k].chan == s.calls[k].chan;
    forall j | j in u.running ensures RunningRight(u, j) {
      assert RunningRight(s, j);
    }
    forall l | 0 <= l < |u.calls| ensures CallRight(u, l) {
      assert CallRight(s, l);
      assert s.calls[l].chan == s.calls[k].chan ==> l == k;
    }
    forall d | 0 <= d < |u.chans| ensures ChanRight(u, d) {
      assert ChanRight(s, d);
      CalledStill(s, u, d);
      ReplacedStill(s, u, d);
    }
  }

  /** Channels may stop listening. */
  lemma TokensSame(s: State, u: State)
    requires Tokens(s) && u.running == s.running && u.calls == s.calls && |u.chans| == |s.chans|
    requires forall c :: 0 <= c < |s.chans| ==>
      u.chans[c].jobID == s.chans[c].jobID && u.chans[c].sent == s.chans[c].sent
    ensures Tokens(u)
  {
    forall j | j in u.running ensures RunningRight(u, j) {
      assert RunningRight(s, j);
    }
    forall l | 0 <= l < |u.calls| ensures CallRight(u, l) {
      assert CallRight(s, l);
    }
    forall d | 0 <= d < |u.chans| ensures ChanRight(u, d) {
      assert ChanRight(s, d);
      CalledStill(s, u, d);
      ReplacedStill(s, u, d);
    }
  }

  lemma TokensStep(s: State, e: Event)
    requires Tokens(s) && Enabled(s, e)
    ensures Tokens(Step(s, e))
  {
    hide Tokens, IsWalk, Commands.Acceptable, Commands.Registered;
    match e
    case Start(id) => TokensStart(s, id);
    case Pop(f) => TokensPop(s, f);
    case LogError(k, commits) => TokensLog(s, k, commits);
    case Send(k) => TokensSend(s, k);
    case _ => TokensSame(s, Step(s, e));
  }

  // ---------------------------------------------------------------- every run

  lemma LastStep(es: seq<Event>, s: State) returns (front: seq<Event>, before: State, e: Event)
    requires Reaches(es, s) && es != []
    ensures es == front + [e] && Reaches(front, before) && Enabled(before, e) && s == Step(before, e)
  {
    hide Enabled, Step;
    front, e := es[..|es| - 1], es[|es| - 1];
    before := Run(INITIAL, front).value;
  }

  lemma Extended(es: seq<Event>, s: State, e: Event, u: State)
    requires Reaches(es, s) && Reaches(es + [e], u)
    ensures Enabled(s, e) && u == Step(s, e)
  {
    hide Enabled, Step;
    assert (es + [e])[..|es|] == es;
  }

  lemma {:induction false} ReachedKeeps(es: seq<Event>, s: State)
    requires Reaches(es, s)
    ensures Owned(s) && Tokens(s)
    decreases |es|
  {
    if es == [] {
      assert s == INITIAL;
    } else {
      hide *;
      var front, before, e := LastStep(es, s);
      ReachedKeeps(front, before);
      OwnedStep(before, e);
      TokensStep(before, e);
    }
  }

  /**
   * The remote commands of the registry are the disjoint union of what the live agents offer, each bound
   * to its own agent, whatever agents, streams and configurations came and went.
   */
  lemma RemotesAreLiveOffers(es: seq<Event>, s: State)
    requires Reaches(es, s)
    ensures forall n ::
      n in s.registry && s.registry[n].kind == Commands.Remote <==> exists conn :: HasOffer(s, conn, n)
    ensures forall conn, other, n :: HasOffer(s, conn, n) && HasOffer(s, other, n) ==> conn == other
    ensures forall conn, n :: HasOffer(s, conn, n) ==>
      s.registry[n].cmd == s.live[conn][n].(name := n, record := true, conn := conn)
  {
    ReachedKeeps(es, s);
    hide Reaches, Tokens;
    forall conn, other, n | HasOffer(s, conn, n) && HasOffer(s, other, n) ensures conn == other {
    }
  }

  lemma RegisterStep(s: State, offer: Offer, order: seq<Text>)
    requires Enabled(s, RegisterAgent(offer, order))
    ensures Step(s, RegisterAgent(offer, order)) == Joined(s, offer)
  {
    hide IsWalk, AfterRegister, Joined;
    JoinStep(s, offer, order);
  }

  lemma JoinedParts(s: State, offer: Offer)
    ensures var u, conn := Joined(s, offer), s.connections + 1;
      && u == s.(registry := u.registry, live := u.live, connections := conn)
      && u.registry == (if CanJoin(s.registry, offer) then s.registry + Hubs(offer, conn) else s.registry)
      && u.live == (if CanJoin(s.registry, offer) then s.live[conn := offer] else s.live)
  {
    hide CanJoin, Hubs;
  }

  /** An agent with a blank or taken name changes nothing; any other is registered whole, and everyone else stays. */
  lemma AgentJoins(es: seq<Event>, s: State, offer: Offer, order: seq<Text>, u: State)
    requires Reaches(es, s) && Reaches(es + [RegisterAgent(offer, order)], u)
    ensures u == s.(registry := u.registry, live := u.live, connections := s.connections + 1)
    ensures u.registry ==
      if CanJoin(s.registry, offer) then s.registry + Hubs(offer, s.connections + 1) else s.registry
    ensures u.live == if CanJoin(s.registry, offer) then s.live[s.connections + 1 := offer] else s.live
  {
    hide *;
    Extended(es, s, RegisterAgent(offer, order), u);
    RegisterStep(s, offer, order);
    JoinedParts(s, offer);
  }

  /** A live agent's deregistration always validates, and removes exactly its own commands. */
  lemma AgentLeaves(es: seq<Event>, s: State, conn: nat, order: seq<Text>, u: State)
    requires Reaches(es, s) && Reaches(es + [EndStream(conn, order)], u)
    ensures conn in s.live && IsWalk(order, s.live[conn])
    ensures Commands.Acceptable(s.registry, Leaving(order, s.live[conn]))
    ensures u == s.(registry := u.registry, live := s.live - {conn})
    ensures forall n :: n in u.registry <==> n in s.registry && n !in s.live[conn]
    ensures forall n :: n in u.registry ==> u.registry[n] == s.registry[n]
  {
    ReachedKeeps(es, s);
    Extended(es, s, EndStream(conn, order), u);
    hide Reaches, Tokens;
    OwnNames(s, conn);
    LeaveRegisters(s.registry, order, s.live[conn]);
    hide Owned, Commands.Acceptable, Commands.Registered, Leaving, IsWalk;
  }

  lemma OneResult(s: State, c: nat)
    requires Tokens(s) && c < |s.chans|
    ensures |s.chans[c].sent| <= 1
    ensures s.chans[c].sent != [] ==> s.chans[c].sent[0].jobID == s.chans[c].jobID
    ensures forall k, l ::
      0 <= k < |s.calls| && 0 <= l < |s.calls| && s.calls[k].chan == c && s.calls[l].chan == c ==> k == l
  {
    assert ChanRight(s, c);
    if s.chans[c].sent != [] {
      var k :| 0 <= k < |s.calls| && s.calls[k].chan == c;
      assert CallRight(s, k);
    }
  }

  /** However finishes repeat or race, a channel is sent at most one result, and it is about that channel's job. */
  lemma OneResultPerJob(es: seq<Event>, s: State, c: nat)
    requires Reaches(es, s) && c < |s.chans|
    ensures |s.chans[c].sent| <= 1
    ensures s.chans[c].sent != [] ==> s.chans[c].sent[0].jobID == s.chans[c].jobID
    ensures forall k, l ::
      0 <= k < |s.calls| && 0 <= l < |s.calls| && s.calls[k].chan == c && s.calls[l].chan == c ==> k == l
  {
    ReachedKeeps(es, s);
    hide Reaches, Owned, Tokens;
    OneResult(s, c);
  }

  /** No two jobs were started under one ID. */
  ghost predicate JobsApart(s: State) {
    forall c, d :: 0 <= c < d < |s.chans| ==> s.chans[c].jobID != s.chans[d].jobID
  }

  /** Job c was started under the ID of this finish, and no finish was accepted for it. */
  ghost predicate Awaits(s: State, c: nat, f: Finished) {
    c < |s.chans| && s.chans[c].jobID == f.jobID && !Called(s, c)
  }

  lemma NotReplaced(s: State, c: nat)
    requires JobsApart(s)
    ensures !Replaced(s, c)
  {
  }

  lemma AwaitedExactly(s: State, f: Finished)
    requires Tokens(s)
    ensures f.jobID in s.running ==> Awaits(s, s.running[f.jobID], f)
    ensures JobsApart(s) ==> (f.jobID in s.running <==> exists c :: Awaits(s, c, f))
  {
    if f.jobID in s.running {
      assert RunningRight(s, f.jobID);
      var c := s.running[f.jobID];
      assert Awaits(s, c, f);
    }
    if JobsApart(s) {
      forall c | Awaits(s, c, f) ensures f.jobID in s.running {
        assert ChanRight(s, c);
        NotReplaced(s, c);
        assert Waiting(s, c);
      }
    }
  }

  /**
   * A finish is accepted exactly when its ID is in the map; for IDs that were started once, exactly when its job
   * was started and no finish was accepted for it before. Otherwise it is an error that changes nothing at all.
   */
  lemma FinishAcceptedOnce(es: seq<Event>, s: State, f: Finished, u: State)
    requires Reaches(es, s) && Reaches(es + [Pop(f)], u)
    ensures u != s <==> f.jobID in s.running
    ensures JobsApart(s) ==> (u != s <==> exists c :: Awaits(s, c, f))
    ensures u != s ==>
      u == s.(running := s.running - {f.jobID}, calls := s.calls + [Call(f, s.running[f.jobID], Popped)])
  {
    ReachedKeeps(es, s);
    Extended(es, s, Pop(f), u);
    hide Reaches, Owned, Tokens;
    AwaitedExactly(s, f);
    if f.jobID in s.running {
      assert |u.calls| != |s.calls|;
    }
  }

  ghost predicate LogsErrorOf(s: State, k: nat, logs: History) {
    && CallIn(s, k, Popped)
    && s.chans[s.calls[k].chan].jobID == s.calls[k].f.jobID
    && s.calls[k].f.err != []
    && logs == Written(s.logs, SetError(s.calls[k].f.jobID, Some(s.calls[k].f.err)))
  }

  /** Finishing touches the logs only to record the error of a finish that was accepted, for its own job. */
  lemma LogsChangeForAccepted(es: seq<Event>, s: State, e: Event, u: State)
    requires Reaches(es, s) && Reaches(es + [e], u) && u.logs != s.logs
    ensures exists k :: LogsErrorOf(s, k, u.logs)
  {
    ReachedKeeps(es, s);
    Extended(es, s, e, u);
    hide Reaches, Owned, Commands.Acceptable, Commands.Registered, IsWalk;
    assert e.LogError?;
    assert CallRight(s, e.k);
    assert LogsErrorOf(s, e.k, u.logs);
  }

  /** An accepted finish with an error records it for its job, when the log's transaction commits, and nothing else. */
  lemma ErrorRecorded(es: seq<Event>, s: State, k: nat, commits: bool, u: State)
    requires Reaches(es, s) && Reaches(es + [LogError(k, commits)], u)
    ensures k < |s.calls| && u.running == s.running && u.chans == s.chans
    ensures var f := s.calls[k].f;
      if f.err == [] || !commits then u.logs == s.logs
      else
        && LogOf(u.logs, f.jobID) == Log(LogOf(s.logs, f.jobID).lines, Some(f.err))
        && forall id :: id != f.jobID ==> LogOf(u.logs, id) == LogOf(s.logs, id)
  {
    Extended(es, s, LogError(k, commits), u);
    hide Reaches;
  }

  /** The send hands the accepted finish, whole, to the job that waits for it. */
  lemma ResultDelivered(es: seq<Event>, s: State, k: nat, u: State)
    requires Reaches(es, s) && Reaches(es + [Send(k)], u)
    ensures k < |s.calls| && s.calls[k].chan < |s.chans| == |u.chans|
    ensures var c := s.calls[k].chan;
      && s.chans[c].jobID == s.calls[k].f.jobID && s.chans[c].sent == [] && u.chans[c].sent == [s.calls[k].f]
      && forall d :: 0 <= d < |s.chans| && d != c ==> u.chans[d] == s.chans[d]
    ensures u.running == s.running && u.logs == s.logs
  {
    ReachedKeeps(es, s);
    Extended(es, s, Send(k), u);
    hide Reaches, Owned;
    assert CallRight(s, k);
  }

  /** Agents may come, whatever they offer, and go; jobs may start and finishes arrive at any time. */
  lemma AlwaysPossible(s: State, offer: Offer, order: seq<Text>, conn: nat, id: uint64, f: Finished)
    ensures IsWalk(order, offer) ==> Enabled(s, RegisterAgent(offer, order))
    ensures conn in s.live && IsWalk(order, s.live[conn]) ==> Enabled(s, EndStream(conn, order))
    ensures Enabled(s, Start(id)) && Enabled(s, Pop(f))
    ensures exists walk :: IsWalk(walk, offer)
  {
    var walk := WalkOf(offer);
  }

  lemma {:induction false} WalkOf(offer: Offer) returns (walk: seq<Text>)
    ensures IsWalk(walk, offer)
    decreases |offer|
  {
    if offer == map[] {
      walk := [];
    } else {
      var n :| n in offer;
      assert n !in (offer - {n}) && (offer - {n}).Keys == offer.Keys - {n};
      walk := WalkOf(offer - {n});
      walk := walk + [n];
    }
  }
}
