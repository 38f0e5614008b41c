/** auth/auth.go: who may run a command, and where. */
module Auth {
  import opened Bytes
  import opened Meeseeks
  import opened Wrappers

  datatype AuthError =
    | UserNotAllowed
    | ChannelNotAllowed
    | OnlyIMAllowed
    | GroupNotFound
    | UserNotInGroup

  const AUTH_ANY := "any"
  const AUTH_GROUP := "group"

  const CHANNEL_ANY := "any"
  const CHANNEL_IM_ONLY := "im_only"
  const CHANNEL_ALLOWED := "channel"

  type Groups = map<Text, set<Text>>

  predicate InGroup(groups: Groups, user: Text, group: Text) {
    group in groups && user in groups[group]
  }

  /** Anyone, members of one of the command's groups, or nobody; an unknown strategy lets nobody in. */
  predicate UserAllowed(groups: Groups, req: Request, cmd: Command) {
    || cmd.authStrategy == AUTH_ANY
    || (cmd.authStrategy == AUTH_GROUP && exists g :: g in cmd.allowedGroups && InGroup(groups, req.username, g))
  }

  /** Why the channel is refused, if it is; an unknown strategy refuses none. */
  function ChannelRefusal(req: Request, cmd: Command): Option<AuthError> {
    if cmd.channelStrategy == CHANNEL_IM_ONLY then
      if req.isIM then None else Some(OnlyIMAllowed)
    else if cmd.channelStrategy == CHANNEL_ALLOWED then
      if req.channel in cmd.allowedChannels then None else Some(ChannelNotAllowed)
    else None
  }

  function Refusal(groups: Groups, req: Request, cmd: Command): Option<AuthError> {
    if !UserAllowed(groups, req, cmd) then Some(UserNotAllowed) else ChannelRefusal(req, cmd)
  }

  /**
   * Who is refused, strategy by strategy. Anyone may run an "any" command, members of one of its groups a "group"
   * command, and nobody a command with any other strategy. Of those who may, an "im_only" command refuses them
   * outside direct messages, a "channel" command outside its channels, and any other channel strategy nowhere.
   */
  lemma RefusedExactly(groups: Groups, req: Request, cmd: Command)
    ensures var error := Refusal(groups, req, cmd);
      && (error == Some(UserNotAllowed) <==> !MayRun(groups, req, cmd))
      && (error == Some(OnlyIMAllowed) <==> MayRun(groups, req, cmd) && cmd.channelStrategy == "im_only" && !req.isIM)
      && (error == Some(ChannelNotAllowed) <==>
            MayRun(groups, req, cmd) && cmd.channelStrategy == "channel" && req.channel !in cmd.allowedChannels)
      && (error.None? <==> MayRun(groups, req, cmd) && MayRunHere(req, cmd))
  {
    if g :| g in cmd.allowedGroups && InGroup(groups, req.username, g) {
      assert g in groups && req.username in groups[g];
    }
    if g :| g in cmd.allowedGroups && g in groups && req.username in groups[g] {
      assert InGroup(groups, req.username, g);
    }
  }

  /** The documented meaning of the user strategies, in their configured names. */
  ghost predicate MayRun(groups: Groups, req: Request, cmd: Command) {
    || cmd.authStrategy == "any"
    || (cmd.authStrategy == "group" && exists g :: g in cmd.allowedGroups && g in groups && req.username in groups[g])
  }

  /** The documented meaning of the channel strategies. */
  ghost predicate MayRunHere(req: Request, cmd: Command) {
    && (cmd.channelStrategy == "im_only" ==> req.isIM)
    && (cmd.channelStrategy == "channel" ==> req.channel in cmd.allowedChannels)
  }

  class Authorizer {
    var groups: Groups
    var knownUsers: set<Text>

    constructor ()
      ensures groups == map[] && knownUsers == {}
    {
      groups, knownUsers := map[], {};
    }

    /** Replaces all groups by the configured ones. */
    method Configure(configured: map<Text, seq<Text>>)
      modifies this
      ensures groups.Keys == configured.Keys
      ensures forall u, g :: InGroup(groups, u, g) <==> g in configured && u in configured[g]
      ensures forall u :: u in knownUsers <==> exists g :: InGroup(groups, u, g)
    {
      groups, knownUsers := map[], {};
      var rest := configured.Keys;
      while rest != {}
        invariant rest <= configured.Keys && groups.Keys == configured.Keys - rest
        invariant forall u, g :: InGroup(groups, u, g) <==> g in configured && g !in rest && u in configured[g]
        invariant forall u :: u in knownUsers <==> exists g :: InGroup(groups, u, g)
      {
        var name :| name in rest;
        var users := configured[name];
        var group: set<Text> := {};
        ghost var known, before := knownUsers, groups;
        for i := 0 to |users|
          invariant groups == before
          invariant forall u :: u in group <==> u in users[..i]
          invariant knownUsers == known + group
        {
          group := group + {users[i]};
          knownUsers := knownUsers + {users[i]};
        }
        groups := groups[name := group];
        rest := rest - {name};
        assert forall u, g :: InGroup(groups, u, g) <==> (g == name && u in users) || InGroup(before, u, g);
        forall u ensures u in knownUsers <==> exists g :: InGroup(groups, u, g) {
          if u in users {
            assert InGroup(groups, u, name);
          } else if u in known {
            var g :| InGroup(before, u, g);
            assert InGroup(groups, u, g);
          }
        }
      }
    }

    method CheckUserInGroup(username: Text, group: Text) returns (error: Option<AuthError>)
      ensures error.None? <==> InGroup(groups, username, group)
      ensures error == Some(GroupNotFound) <==> group !in groups
      ensures error.Some? ==> error.value == GroupNotFound || error.value == UserNotInGroup
    {
      if group !in groups {
        return Some(GroupNotFound);
      }
      if username !in groups[group] {
        return Some(UserNotInGroup);
      }
      return None;
    }

    method CheckGroups(req: Request, cmd: Command) returns (error: Option<AuthError>)
      ensures error == if exists g :: g in cmd.allowedGroups && InGroup(groups, req.username, g)
                       then None else Some(UserNotAllowed)
    {
      for i := 0 to |cmd.allowedGroups|
        invariant forall j :: 0 <= j < i ==> !InGroup(groups, req.username, cmd.allowedGroups[j])
      {
        var e := CheckUserInGroup(req.username, cmd.allowedGroups[i]);
        if e.None? {
          assert cmd.allowedGroups[i] in cmd.allowedGroups;
          return None;
        }
      }
      return Some(UserNotAllowed);
    }

    method CheckChannels(req: Request, cmd: Command) returns (error: Option<AuthError>)
      ensures error == if req.channel in cmd.allowedChannels then None else Some(ChannelNotAllowed)
    {
      for i := 0 to |cmd.allowedChannels|
        invariant req.channel !in cmd.allowedChannels[..i]
      {
        if req.channel == cmd.allowedChannels[i] {
          return None;
        }
      }
      return Some(ChannelNotAllowed);
    }

    method Check(req: Request, cmd: Command) returns (error: Option<AuthError>)
      ensures error == Refusal(groups, req, cmd)
      ensures error == Some(UserNotAllowed) <==>
        !(cmd.authStrategy == "any"
          || (cmd.authStrategy == "group"
              && exists g :: g in cmd.allowedGroups && g in groups && req.username in groups[g]))
      ensures cmd.channelStrategy == "im_only" && !req.isIM ==> error.Some?
      ensures cmd.channelStrategy == "channel" && req.channel !in cmd.allowedChannels ==> error.Some?
      ensures error.Some? && error.value != UserNotAllowed ==>
        || (error.value == OnlyIMAllowed && cmd.channelStrategy == "im_only" && !req.isIM)
        || (error.value == ChannelNotAllowed && cmd.channelStrategy == "channel"
            && req.channel !in cmd.allowedChannels)
    {
      RefusedExactly(groups, req, cmd);
      if cmd.authStrategy == AUTH_ANY {
        error := None;
      } else if cmd.authStrategy == AUTH_GROUP {
        error := CheckGroups(req, cmd);
      } else {
        error := Some(UserNotAllowed);
      }
      if error.Some? {
        return;
      }
      if cmd.channelStrategy == CHANNEL_ALLOWED {
        error := CheckChannels(req, cmd);
      } else if cmd.channelStrategy == CHANNEL_IM_ONLY {
        error := if req.isIM then None else Some(OnlyIMAllowed);
      } else {
        error := None;
      }
    }
  }
}
