/** commands/commands.go: the registry of commands, and how a request finds its command. */
module Commands {
  import Aliases
  import opened Bytes
  import opened Meeseeks
  import opened Wrappers

  datatype Kind = Local | Remote | Builtin | OtherKind(text: Text)

  datatype Action = Register | Unregister | OtherAction(text: Text)

  datatype Hub = Hub(kind: Kind, cmd: Command)

  type Table = map<Text, Hub>

  datatype Registration = Registration(name: Text, cmd: Option<Command>)

  datatype Args = Args(kind: Kind, action: Action, commands: seq<Registration>)

  datatype RegisterError =
    | NoKind
    | InvalidKind(kind: Text)
    | InvalidAction(action: Text)
    | NoName
    | NoCommand(name: Text)
    | IncompatibleKind(name: Text)
    | ReRegisteredRemote(name: Text)
    | UnknownCommand(name: Text)

  // ------------------------------------------------------------ the function

  /** What is wrong with the kind or action of a call. */
  function HeaderFault(args: Args): Option<RegisterError> {
    if args.kind.OtherKind? then
      if Blank(args.kind.text) then Some(NoKind) else Some(InvalidKind(args.kind.text))
    else if args.action.OtherAction? then Some(InvalidAction(args.action.text))
    else None
  }

  /** What is wrong with one registration of a call. */
  function Fault(t: Table, kind: Kind, action: Action, c: Registration): Option<RegisterError> {
    if Blank(c.name) then Some(NoName)
    else if c.cmd.None? then Some(NoCommand(c.name))
    else if c.name in t then
      if t[c.name].kind != kind then Some(IncompatibleKind(c.name))
      else if kind == Remote && action == Register then Some(ReRegisteredRemote(c.name))
      else None
    else if action == Unregister then Some(UnknownCommand(c.name))
    else None
  }

  function FaultAt(t: Table, args: Args, i: nat): Option<RegisterError>
    requires i < |args.commands|
  {
    Fault(t, args.kind, args.action, args.commands[i])
  }

  /** Validation stops at registration i. */
  ghost predicate IsFirstFault(t: Table, args: Args, i: nat)
    requires i < |args.commands|
  {
    && HeaderFault(args).None? && FaultAt(t, args, i).Some?
    && forall j :: 0 <= j < i ==> FaultAt(t, args, j).None?
  }

  /** The error a rejected call reports: the header's, or that of the first bad registration. */
  ghost predicate IsFault(t: Table, args: Args, error: Option<RegisterError>) {
    || error == HeaderFault(args)
    || exists i :: 0 <= i < |args.commands| && IsFirstFault(t, args, i) && error == FaultAt(t, args, i)
  }

  predicate Acceptable(t: Table, args: Args) {
    && HeaderFault(args).None?
    && forall i :: 0 <= i < |args.commands| ==> FaultAt(t, args, i).None?
  }

  lemma AcceptableHasCommands(t: Table, args: Args)
    requires Acceptable(t, args)
    ensures forall i :: 0 <= i < |args.commands| ==> args.commands[i].cmd.Some?
  {
    forall i | 0 <= i < |args.commands| ensures args.commands[i].cmd.Some? {
      assert FaultAt(t, args, i).None?;
    }
  }

  function Names(cs: seq<Registration>): set<Text> {
    set i | 0 <= i < |cs| :: cs[i].name
  }

  /** Later registrations of a name win. */
  function Added(t: Table, kind: Kind, cs: seq<Registration>): (u: Table)
    requires forall i :: 0 <= i < |cs| ==> cs[i].cmd.Some?
    ensures u.Keys == t.Keys + Names(cs)
    ensures forall n :: n in t && n !in Names(cs) ==> u[n] == t[n]
    ensures forall n :: n in Names(cs) ==> u[n].kind == kind && Registration(n, Some(u[n].cmd)) in cs
  {
    if cs == [] then t else
      var front, last := cs[..|cs| - 1], cs[|cs| - 1];
      assert cs == front + [last];
      assert Names(cs) == Names(front) + {last.name};
      Added(t, kind, front)[last.name := Hub(kind, last.cmd.value)]
  }

  /** Unregistering local commands takes them all, remote ones by name, builtins never. */
  function Removed(t: Table, kind: Kind, cs: seq<Registration>): Table {
    match kind
    case Local => map n | n in t && t[n].kind != Local :: t[n]
    case Remote => t - Names(cs)
    case _ => t
  }

  function Processed(t: Table, args: Args): Table
    requires Acceptable(t, args)
  {
    AcceptableHasCommands(t, args);
    if args.action == Register then
      Added(if args.kind == Local then Removed(t, Local, args.commands) else t, args.kind, args.commands)
    else Removed(t, args.kind, args.commands)
  }

  /** A rejected call changes nothing. */
  function Registered(t: Table, args: Args): Table {
    if Acceptable(t, args) then Processed(t, args) else t
  }

  function RegisteredAll(t: Table, calls: seq<Args>): Table {
    if calls == [] then t else Registered(RegisteredAll(t, calls[..|calls| - 1]), calls[|calls| - 1])
  }

  ghost predicate NamesPresent(t: Table) {
    forall n :: n in t ==> !Blank(n)
  }

  // ------------------------------------------------------------ what is kept

  /** No blank name gets in, a name that stays keeps its kind, and no builtin is lost. */
  lemma RegisterKeeps(t: Table, args: Args)
    requires NamesPresent(t)
    ensures NamesPresent(Registered(t, args))
    ensures forall n :: n in t && n in Registered(t, args) ==> Registered(t, args)[n].kind == t[n].kind
    ensures forall n :: n in t && t[n].kind == Builtin ==> n in Registered(t, args)
  {
    if Acceptable(t, args) {
      forall n | n in Names(args.commands)
        ensures !Blank(n) && (n in t ==> t[n].kind == args.kind)
      {
        var i :| 0 <= i < |args.commands| && args.commands[i].name == n;
        assert FaultAt(t, args, i).None?;
      }
    }
  }

  /** Over any number of calls, starting from no commands: names are never blank and builtins never leave. */
  lemma {:induction false} RegisterRun(calls: seq<Args>, i: nat)
    requires i <= |calls|
    ensures NamesPresent(RegisteredAll(map[], calls))
    ensures forall n ::
      n in RegisteredAll(map[], calls[..i]) && RegisteredAll(map[], calls[..i])[n].kind == Builtin ==>
        n in RegisteredAll(map[], calls) && RegisteredAll(map[], calls)[n].kind == Builtin
    decreases |calls|
  {
    if calls == [] {
      assert calls[..i] == calls;
    } else {
      var front := calls[..|calls| - 1];
      if i == |calls| {
        RegisterRun(front, |front|);
        assert calls[..i] == calls;
      } else {
        RegisterRun(front, i);
        assert calls[..i] == front[..i];
      }
      RegisterKeeps(RegisteredAll(map[], front), calls[|calls| - 1]);
    }
  }

  // ------------------------------------------------- what a call comes to

  /** The error a registration draws, case by case. */
  lemma FaultExactly(t: Table, kind: Kind, action: Action, c: Registration)
    ensures var fault := Fault(t, kind, action, c);
      var complete := !Blank(c.name) && c.cmd.Some?;
      && (fault == Some(NoName) <==> Blank(c.name))
      && (fault == Some(NoCommand(c.name)) <==> !Blank(c.name) && c.cmd.None?)
      && (fault == Some(IncompatibleKind(c.name)) <==> complete && c.name in t && t[c.name].kind != kind)
      && (fault == Some(ReRegisteredRemote(c.name)) <==>
            complete && c.name in t && t[c.name].kind == kind == Remote && action == Register)
      && (fault == Some(UnknownCommand(c.name)) <==> complete && c.name !in t && action == Unregister)
      && (fault.None? <==>
            && complete
            && (action == Unregister ==> c.name in t && t[c.name].kind == kind)
            && (action != Unregister && c.name in t ==>
                  t[c.name].kind == kind && !(kind == Remote && action == Register)))
  {
  }

  /** The error the kind and the action of a call draw. */
  lemma HeaderFaultExactly(args: Args)
    ensures HeaderFault(args).None? <==>
      args.kind in {Local, Remote, Builtin} && args.action in {Action.Register, Unregister}
    ensures HeaderFault(args) == Some(NoKind) <==> args.kind.OtherKind? && Blank(args.kind.text)
    ensures args.kind.OtherKind? && !Blank(args.kind.text) ==> HeaderFault(args) == Some(InvalidKind(args.kind.text))
    ensures !args.kind.OtherKind? && args.action.OtherAction? ==>
      HeaderFault(args) == Some(InvalidAction(args.action.text))
  {
  }

  ghost predicate AllComplete(cs: seq<Registration>) {
    forall i :: 0 <= i < |cs| ==> !Blank(cs[i].name) && cs[i].cmd.Some?
  }

  /**
   * Which calls are accepted. All names must be non-blank and all commands given. Local commands and builtins
   * register unless a name is held by another kind, so also again; remote ones only under names nobody holds;
   * and only what is there, with the same kind, can be unregistered.
   */
  lemma AcceptedExactly(t: Table, args: Args)
    ensures var cs := args.commands;
      Acceptable(t, args) <==>
        && args.kind in {Local, Remote, Builtin} && args.action in {Action.Register, Unregister} && AllComplete(cs)
        && (args.action == Action.Register && args.kind == Remote ==>
              forall i :: 0 <= i < |cs| ==> cs[i].name !in t)
        && (args.action == Action.Register && args.kind != Remote ==>
              forall i :: 0 <= i < |cs| && cs[i].name in t ==> t[cs[i].name].kind == args.kind)
        && (args.action == Unregister ==>
              forall i :: 0 <= i < |cs| ==> cs[i].name in t && t[cs[i].name].kind == args.kind)
  {
    var cs := args.commands;
    forall i | 0 <= i < |cs|
      ensures HeaderFault(args).None? ==>
        (FaultAt(t, args, i).None? <==>
           && !Blank(cs[i].name) && cs[i].cmd.Some?
           && if args.action == Unregister then cs[i].name in t && t[cs[i].name].kind == args.kind
              else cs[i].name in t ==> t[cs[i].name].kind == args.kind && args.kind != Remote)
    {
      FaultExactly(t, args.kind, args.action, cs[i]);
    }
    HeaderFaultExactly(args);
    hide Fault, HeaderFault;
  }

  /** i is the last registration of its name. */
  ghost predicate IsLast(cs: seq<Registration>, i: nat) {
    i < |cs| && forall j :: i < j < |cs| ==> cs[j].name != cs[i].name
  }

  lemma {:induction false} AddedLast(t: Table, kind: Kind, cs: seq<Registration>, i: nat)
    requires IsLast(cs, i) && forall j :: 0 <= j < |cs| ==> cs[j].cmd.Some?
    ensures cs[i].name in Added(t, kind, cs) && Added(t, kind, cs)[cs[i].name] == Hub(kind, cs[i].cmd.value)
  {
    var front := cs[..|cs| - 1];
    if i < |front| {
      assert front[i] == cs[i];
      AddedLast(t, kind, front, i);
    }
  }

  lemma {:induction false} LastOf(cs: seq<Registration>, n: Text) returns (i: nat)
    requires n in Names(cs)
    ensures IsLast(cs, i) && cs[i].name == n
  {
    i := |cs| - 1;
    if cs[i].name != n {
      var front := cs[..|cs| - 1];
      var k :| 0 <= k < |cs| && cs[k].name == n;
      assert front[k].name == n;
      i := LastOf(front, n);
    }
  }

  /**
   * What an accepted registration leaves: each name it gave, with the last command given for it, and of the rest
   * everything, but for local commands when it was local commands that were given.
   */
  lemma RegisterExactly(t: Table, args: Args)
    requires Acceptable(t, args) && args.action == Action.Register
    ensures var u, cs := Registered(t, args), args.commands;
      && (forall i: nat :: IsLast(cs, i) ==>
            cs[i].name in u && u[cs[i].name].kind == args.kind && cs[i].cmd == Some(u[cs[i].name].cmd))
      && (forall n :: n !in Names(cs) ==> (n in u <==> n in t && !(args.kind == Local && t[n].kind == Local)))
      && (forall n :: n !in Names(cs) && n in u ==> u[n] == t[n])
  {
    AcceptableHasCommands(t, args);
    var rest := if args.kind == Local then Removed(t, Local, args.commands) else t;
    forall i: nat | IsLast(args.commands, i)
      ensures args.commands[i].name in Registered(t, args)
      ensures Registered(t, args)[args.commands[i].name] == Hub(args.kind, args.commands[i].cmd.value)
    {
      AddedLast(rest, args.kind, args.commands, i);
    }
  }

  /** What an accepted unregistration leaves: local commands all go, remote ones that are named, builtins never. */
  lemma UnregisterExactly(t: Table, args: Args)
    requires Acceptable(t, args) && args.action == Unregister
    ensures var u := Registered(t, args);
      && (forall n :: n in u <==>
            && n in t && !(args.kind == Local && t[n].kind == Local)
            && !(args.kind == Remote && n in Names(args.commands)))
      && (forall n :: n in u ==> u[n] == t[n])
  {
  }

  /**
   * A configuration reload is accepted whenever no name is blank, missing its command or held by another kind, local
   * names already there included. It makes the local commands exactly the new ones, the last given for each name,
   * and touches nothing else; doing it again is accepted again and changes nothing.
   */
  lemma LocalReload(t: Table, cs: seq<Registration>)
    requires AllComplete(cs) && forall i :: 0 <= i < |cs| && cs[i].name in t ==> t[cs[i].name].kind == Local
    ensures var args := Args(Local, Action.Register, cs);
      var u := Registered(t, args);
      && Acceptable(t, args)
      && (forall n :: n in u && u[n].kind == Local <==> n in Names(cs))
      && (forall i: nat :: IsLast(cs, i) ==> cs[i].name in u && cs[i].cmd == Some(u[cs[i].name].cmd))
      && (forall n :: n in t && t[n].kind != Local ==> n in u && u[n] == t[n])
      && (forall n :: n in u && u[n].kind != Local ==> n in t && u[n] == t[n])
      && Acceptable(u, args) && Registered(u, args) == u
  {
    var args := Args(Local, Action.Register, cs);
    AcceptedExactly(t, args);
    RegisterExactly(t, args);
    var u := Registered(t, args);
    ReloadParts(t, u, cs);
    AcceptedExactly(u, args);
    RegisterExactly(u, args);
    SameReload(u, Registered(u, args), cs);
  }

  lemma ReloadParts(t: Table, u: Table, cs: seq<Registration>)
    requires forall i :: 0 <= i < |cs| ==> cs[i].cmd.Some?
    requires forall i :: 0 <= i < |cs| && cs[i].name in t ==> t[cs[i].name].kind == Local
    requires forall i: nat :: IsLast(cs, i) ==>
      cs[i].name in u && u[cs[i].name].kind == Local && cs[i].cmd == Some(u[cs[i].name].cmd)
    requires forall n :: n !in Names(cs) ==> (n in u <==> n in t && t[n].kind != Local)
    requires forall n :: n !in Names(cs) && n in u ==> u[n] == t[n]
    ensures forall n :: n in u && u[n].kind == Local <==> n in Names(cs)
    ensures forall n :: n in t && t[n].kind != Local ==> n in u && u[n] == t[n]
    ensures forall n :: n in u && u[n].kind != Local ==> n in t && u[n] == t[n]
  {
    forall n | n in Names(cs) ensures n in u && u[n].kind == Local && (n in t ==> t[n].kind == Local) {
      var i := LastOf(cs, n);
    }
  }

  lemma SameReload(u: Table, v: Table, cs: seq<Registration>)
    requires forall i :: 0 <= i < |cs| ==> cs[i].cmd.Some?
    requires forall n :: n in u && u[n].kind == Local <==> n in Names(cs)
    requires forall i: nat :: IsLast(cs, i) ==>
      cs[i].name in u && u[cs[i].name].kind == Local && cs[i].cmd == Some(u[cs[i].name].cmd)
    requires forall i: nat :: IsLast(cs, i) ==>
      cs[i].name in v && v[cs[i].name].kind == Local && cs[i].cmd == Some(v[cs[i].name].cmd)
    requires forall n :: n !in Names(cs) ==> (n in v <==> n in u && u[n].kind != Local)
    requires forall n :: n !in Names(cs) && n in v ==> v[n] == u[n]
    ensures v == u
  {
    forall n ensures n in v <==> n in u
             ensures n in v ==> v[n] == u[n]
    {
      if n in Names(cs) {
        var i := LastOf(cs, n);
      }
    }
  }

  // --------------------------------------------------------------- the object

  class Registry {
    var commands: Table

    constructor ()
      ensures commands == map[]
    {
      commands := map[];
    }

    method ValidateAll(args: Args) returns (error: Option<RegisterError>)
      ensures error.None? <==> Acceptable(commands, args)
      ensures error.Some? ==> IsFault(commands, args, error)
    {
      error := HeaderFault(args);
      if error.Some? {
        return;
      }
      for i := 0 to |args.commands|
        invariant forall j :: 0 <= j < i ==> FaultAt(commands, args, j).None?
      {
        error := Fault(commands, args.kind, args.action, args.commands[i]);
        if error.Some? {
          assert IsFirstFault(commands, args, i);
          return;
        }
      }
      error := None;
    }

    method RegisterCommands(kind: Kind, cs: seq<Registration>)
      requires forall i :: 0 <= i < |cs| ==> cs[i].cmd.Some?
      modifies this
      ensures commands == Added(old(commands), kind, cs)
    {
      for i := 0 to |cs|
        invariant commands == Added(old(commands), kind, cs[..i])
      {
        assert cs[..i + 1][..i] == cs[..i];
        commands := commands[cs[i].name := Hub(kind, cs[i].cmd.value)];
      }
      assert cs[..|cs|] == cs;
    }

    method UnregisterCommands(kind: Kind, cs: seq<Registration>)
      modifies this
      ensures commands == Removed(old(commands), kind, cs)
    {
      match kind
      case Local =>
        var rest := commands.Keys;
        while rest != {}
          invariant rest <= old(commands).Keys
          invariant commands ==
            map n | n in old(commands) && (n in rest || old(commands)[n].kind != Local) :: old(commands)[n]
        {
          var name :| name in rest;
          if commands[name].kind == Local {
            commands := commands - {name};
          }
          rest := rest - {name};
        }
      case Remote =>
        for i := 0 to |cs|
          invariant commands == old(commands) - Names(cs[..i])
        {
          assert Names(cs[..i + 1]) == Names(cs[..i]) + {cs[i].name};
          commands := commands - {cs[i].name};
        }
        assert cs[..|cs|] == cs;
      case _ =>
    }

    method Register(args: Args) returns (error: Option<RegisterError>)
      modifies this
      ensures commands == Registered(old(commands), args)
      ensures error.None? <==> Acceptable(old(commands), args)
    {
      error := ValidateAll(args);
      if error.Some? {
        return;
      }
      AcceptableHasCommands(commands, args);
      if args.action == Action.Register {
        if args.kind == Local {
          UnregisterCommands(args.kind, args.commands);
        }
        RegisterCommands(args.kind, args.commands);
      } else {
        UnregisterCommands(args.kind, args.commands);
      }
    }

    /**
     * Looks the command up, rewriting the request when it goes through an alias.
     * The alias lookup is a database transaction that may fail to commit.
     */
    method Find(aliases: Aliases.Store, req: RequestVar, commits: bool) returns (cmd: Option<Command>)
      requires aliases.Valid()
      modifies aliases, req
      ensures aliases.Valid() && aliases.table == old(aliases.table)
      ensures (req.value, cmd) ==
        Found(commands, if commits then AliasIn(aliases.table, old(req.value)) else None, old(req.value))
    {
      var alias := aliases.Get(req.value.userID, req.value.command, commits);
      var aliasedCommand := if alias.Success? then alias.value.command else [];
      var args := if alias.Success? then alias.value.args else [];
      if aliasedCommand in commands {
        req.value := req.value.(command := aliasedCommand, args := args + req.value.args);
        return Some(commands[aliasedCommand].cmd);
      }
      return if req.value.command in commands then Some(commands[req.value.command].cmd) else None;
    }
  }

  /** The loop variable of the dispatcher, which Find writes through. */
  class RequestVar {
    var value: Request

    constructor (value: Request)
      ensures this.value == value
    {
      this.value := value;
    }
  }

  // ------------------------------------------------------------------ finding

  function AliasIn(aliases: Aliases.Table, req: Request): Option<Aliases.Alias> {
    if req.userID != [] && (req.userID, req.command) in aliases then Some(aliases[(req.userID, req.command)]) else None
  }

  /** A missing alias is looked up as the empty name. */
  function Found(t: Table, alias: Option<Aliases.Alias>, req: Request): (Request, Option<Command>) {
    var (target, args) := if alias.Some? then (alias.value.command, alias.value.args) else ([], []);
    if target in t then (req.(command := target, args := args + req.args), Some(t[target].cmd))
    else (req, if req.command in t then Some(t[req.command].cmd) else None)
  }

  /** What a request comes to after these registrations and these alias operations. */
  function FoundAfter(calls: seq<Args>, ops: seq<Aliases.Op>, req: Request): (Request, Option<Command>) {
    Found(RegisteredAll(map[], calls), AliasIn(Aliases.Replay(ops), req), req)
  }

  /**
   * Aliases are followed one level, in every registry that registrations build and every table that alias
   * operations build. A registered target is what runs, with the alias's arguments first, also when the user
   * has an alias of that same name for something else. Otherwise the request is left alone and its own name decides.
   */
  lemma FindOneLevel(calls: seq<Args>, ops: seq<Aliases.Op>, req: Request)
    ensures var t, aliases := RegisteredAll(map[], calls), Aliases.Replay(ops);
      var (r, cmd) := FoundAfter(calls, ops, req);
      var own := (req.userID, req.command);
      if req.userID != [] && own in aliases && aliases[own].command in t then
        var alias := aliases[own];
        && r == req.(command := alias.command, args := alias.args + req.args)
        && cmd == Some(t[alias.command].cmd)
      else
        r == req && cmd == if req.command in t then Some(t[req.command].cmd) else None
  {
    RegisterRun(calls, |calls|);
    assert Blank([]) by { TrimSpaceTrims([]); }
    hide RegisteredAll, Aliases.Replay, Blank;
  }

  /** Of all alias operations by anyone, a request depends only on those on its own name by its own user. */
  lemma FindOwnAliasOnly(calls: seq<Args>, ops: seq<Aliases.Op>, req: Request)
    ensures FoundAfter(calls, ops, req) == FoundAfter(calls, Aliases.OpsOn(ops, req.userID, req.command), req)
  {
    Aliases.AliasesApart(ops, req.userID, req.command);
    hide RegisteredAll, Aliases.Replay, Found;
  }

  /** A target is not looked up as an alias again: whatever the user makes of its name changes nothing. */
  lemma TargetNotFollowed(calls: seq<Args>, ops: seq<Aliases.Op>, more: seq<Aliases.Op>, req: Request, target: Text)
    requires target != req.command && forall op :: op in more ==> op.alias == target
    ensures FoundAfter(calls, ops + more, req) == FoundAfter(calls, ops, req)
  {
    FindOwnAliasOnly(calls, ops + more, req);
    FindOwnAliasOnly(calls, ops, req);
    OthersFiltered(ops, more, req.userID, req.command);
  }

  lemma {:induction false} OthersFiltered(ops: seq<Aliases.Op>, more: seq<Aliases.Op>, user: Text, alias: Text)
    requires forall op :: op in more ==> (op.user, op.alias) != (user, alias)
    ensures Aliases.OpsOn(ops + more, user, alias) == Aliases.OpsOn(ops, user, alias)
  {
    if more == [] {
      assert ops + more == ops;
    } else {
      OthersFiltered(ops, more[..|more| - 1], user, alias);
      assert more[|more| - 1] in more;
      assert (ops + more)[..|ops + more| - 1] == ops + more[..|more| - 1];
      assert Aliases.OpsOn(ops, user, alias) + [] == Aliases.OpsOn(ops, user, alias);
    }
  }
}
