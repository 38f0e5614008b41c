/** persistence/aliases/aliases.go: one nested bucket of aliases per user. */
module Aliases {
  import opened Bolt
  import opened Bytes
  import opened Wrappers

  datatype Alias = Alias(alias: Text, command: Text, args: seq<Text>)

  datatype AliasError = UserRequired | AliasRequired | AliasNotFound | NotCommitted

  // ------------------------------------------------- the table, bucket-free

  /** All aliases, by user and name. */
  type Table = map<(Text, Text), Alias>

  datatype Op =
    | Create(user: Text, alias: Text, command: Text, args: seq<Text>)
    | Remove(user: Text, alias: Text)

  function Outcome(t: Table, op: Op): Option<AliasError> {
    if op.user == [] then Some(UserRequired)
    else match op
      case Create(_, alias, _, _) => if alias == [] then Some(AliasRequired) else None
      case Remove(user, alias) => if (user, alias) !in t then Some(AliasNotFound) else None
  }

  /** A refused operation changes nothing. */
  function Apply(t: Table, op: Op): Table {
    if Outcome(t, op).Some? then t
    else match op
      case Create(user, alias, command, args) => t[(user, alias) := Alias(alias, command, args)]
      case Remove(user, alias) => t - {(user, alias)}
  }

  function Replay(ops: seq<Op>): Table {
    if ops == [] then map[] else Apply(Replay(ops[..|ops| - 1]), ops[|ops| - 1])
  }

  function OpsOf(ops: seq<Op>, user: Text): seq<Op> {
    if ops == [] then [] else
      OpsOf(ops[..|ops| - 1], user) + if ops[|ops| - 1].user == user then [ops[|ops| - 1]] else []
  }

  /** Which operations are refused and why; what the others do. */
  lemma ApplyExactly(t: Table, op: Op)
    ensures Outcome(t, op) == Some(UserRequired) <==> op.user == []
    ensures Outcome(t, op) == Some(AliasRequired) <==> op.Create? && op.user != [] && op.alias == []
    ensures Outcome(t, op) == Some(AliasNotFound) <==> op.Remove? && op.user != [] && (op.user, op.alias) !in t
    ensures Outcome(t, op).Some? ==>
      Apply(t, op) == t && (op.user == [] || op.alias == [] || (op.user, op.alias) !in t)
    ensures Outcome(t, op).None? ==>
      Apply(t, op) == match op
        case Create(user, alias, command, args) => t[(user, alias) := Alias(alias, command, args)]
        case Remove(user, alias) => t - {(user, alias)}
  {
  }

  /** A user's aliases are what that user's operations alone would make them. */
  lemma {:induction false} UsersApart(ops: seq<Op>, user: Text, alias: Text)
    ensures (user, alias) in Replay(ops) <==> (user, alias) in Replay(OpsOf(ops, user))
    ensures (user, alias) in Replay(ops) ==> Replay(ops)[(user, alias)] == Replay(OpsOf(ops, user))[(user, alias)]
  {
    if ops != [] {
      var front, op := ops[..|ops| - 1], ops[|ops| - 1];
      UsersApart(front, user, alias);
      if op.user == user {
        var own := OpsOf(front, user);
        assert (own + [op])[..|own|] == own;
        UsersApart(front, user, op.alias);
      } else {
        assert OpsOf(front, user) + [] == OpsOf(front, user);
      }
    }
  }

  /** The operations on one alias of one user. */
  function OpsOn(ops: seq<Op>, user: Text, alias: Text): seq<Op> {
    if ops == [] then [] else
      var op := ops[|ops| - 1];
      OpsOn(ops[..|ops| - 1], user, alias) + if op.user == user && op.alias == alias then [op] else []
  }

  function EntryIn(t: Table, user: Text, alias: Text): Option<Alias> {
    if (user, alias) in t then Some(t[(user, alias)]) else None
  }

  /** An operation acts on its own alias, by what that alias is, and on no other. */
  lemma ApplyIsLocal(t: Table, v: Table, op: Op, user: Text, alias: Text)
    requires EntryIn(t, user, alias) == EntryIn(v, user, alias)
    ensures (op.user, op.alias) == (user, alias) ==>
      EntryIn(Apply(t, op), user, alias) == EntryIn(Apply(v, op), user, alias)
    ensures (op.user, op.alias) != (user, alias) ==> EntryIn(Apply(t, op), user, alias) == EntryIn(t, user, alias)
  {
  }

  /** What an alias stands for depends on the operations on that alias alone, refused ones included. */
  lemma {:induction false} AliasesApart(ops: seq<Op>, user: Text, alias: Text)
    ensures EntryIn(Replay(ops), user, alias) == EntryIn(Replay(OpsOn(ops, user, alias)), user, alias)
  {
    hide Apply, EntryIn;
    if ops != [] {
      var front, op := ops[..|ops| - 1], ops[|ops| - 1];
      AliasesApart(front, user, alias);
      var own := OpsOn(front, user, alias);
      ApplyIsLocal(Replay(front), Replay(own), op, user, alias);
      if op.user == user && op.alias == alias {
        assert (own + [op])[..|own|] == own;
      } else {
        assert own + [] == own;
      }
    }
  }

  /** An operation on another alias commutes with adding this one. */
  lemma ApplyAround(t: Table, op: Op, user: Text, alias: Text, entry: Alias)
    requires (op.user, op.alias) != (user, alias)
    ensures Apply(t[(user, alias) := entry], op) == Apply(t, op)[(user, alias) := entry]
    ensures (user, alias) in Apply(t, op) <==> (user, alias) in t
  {
  }

  lemma ReplaySnoc(ops: seq<Op>, op: Op)
    ensures Replay(ops + [op]) == Apply(Replay(ops), op)
  {
    hide Apply;
    assert (ops + [op])[..|ops|] == ops;
  }

  lemma CreateApplies(t: Table, user: Text, entry: Alias)
    requires user != [] && entry.alias != []
    ensures Apply(t, Create(user, entry.alias, entry.command, entry.args)) == t[(user, entry.alias) := entry]
  {
  }

  lemma RemoveApplies(t: Table, user: Text, entry: Alias)
    requires user != [] && (user, entry.alias) !in t
    ensures Apply(t[(user, entry.alias) := entry], Remove(user, entry.alias)) == t
  {
    assert t[(user, entry.alias) := entry] - {(user, entry.alias)} == t;
  }

  lemma {:induction false} CreatedAround(ops: seq<Op>, more: seq<Op>, user: Text, entry: Alias)
    requires user != [] && entry.alias != [] && (user, entry.alias) !in Replay(ops)
    requires forall op :: op in more ==> (op.user, op.alias) != (user, entry.alias)
    ensures var create := Create(user, entry.alias, entry.command, entry.args);
      Replay(ops + [create] + more) == Replay(ops + more)[(user, entry.alias) := entry]
    ensures (user, entry.alias) !in Replay(ops + more)
  {
    hide Apply, Replay;
    var create := Create(user, entry.alias, entry.command, entry.args);
    if more == [] {
      assert ops + [create] + more == ops + [create] && ops + more == ops;
      ReplaySnoc(ops, create);
      CreateApplies(Replay(ops), user, entry);
    } else {
      var front, op := more[..|more| - 1], more[|more| - 1];
      assert op in more && more == front + [op];
      CreatedAround(ops, front, user, entry);
      assert ops + [create] + more == ops + [create] + front + [op] && ops + more == ops + front + [op];
      ReplaySnoc(ops + [create] + front, op);
      ReplaySnoc(ops + front, op);
      ApplyAround(Replay(ops + front), op, user, entry.alias, entry);
    }
  }

  /** Whatever happens to other aliases in between, creating a new alias and removing it comes to nothing. */
  lemma CreateRemove(ops: seq<Op>, more: seq<Op>, user: Text, entry: Alias)
    requires user != [] && entry.alias != [] && (user, entry.alias) !in Replay(ops)
    requires forall op :: op in more ==> (op.user, op.alias) != (user, entry.alias)
    ensures var create, remove := Create(user, entry.alias, entry.command, entry.args), Remove(user, entry.alias);
      Replay(ops + [create] + more + [remove]) == Replay(ops + more)
  {
    hide Apply, Replay;
    var create, remove := Create(user, entry.alias, entry.command, entry.args), Remove(user, entry.alias);
    CreatedAround(ops, more, user, entry);
    ReplaySnoc(ops + [create] + more, remove);
    RemoveApplies(Replay(ops + more), user, entry);
  }

  // ------------------------------------------------------------ the buckets

  ghost predicate UserKeyed(b: Bucket<Alias>) {
    forall a :: a in b.items ==> a != [] && b.items[a].Leaf? && b.items[a].value.alias == a
  }

  ghost predicate Keyed(all: Bucket<Alias>) {
    forall u :: u in all.items ==> u != [] && all.items[u].Nested? && UserKeyed(all.items[u].bucket)
  }

  function Lookup(all: Bucket<Alias>, user: Text, alias: Text): Option<Alias> {
    if all.SubBucket(user).Some? then all.SubBucket(user).value.Get(alias) else None
  }

  ghost predicate Refines(all: Bucket<Alias>, t: Table) {
    forall u, a :: Lookup(all, u, a) == if (u, a) in t then Some(t[(u, a)]) else None
  }

  /** getAliasesBucket, given the bucket of all users: the user's bucket, made if need be. */
  function UserBucket(all: Bucket<Alias>, user: Text): Result<Bucket<Alias>, AliasError> {
    match all.CreateBucketIfNotExists(user)
    case Success(b) => Success(b)
    case Failure(_) => Failure(UserRequired)
  }

  lemma UserBucketHolds(all: Bucket<Alias>, t: Table, user: Text)
    requires Keyed(all) && Refines(all, t)
    ensures UserBucket(all, user).Success? <==> user != []
    ensures user != [] ==> UserKeyed(UserBucket(all, user).value)
    ensures user != [] ==> forall a :: Lookup(all, user, a) == UserBucket(all, user).value.Get(a)
    ensures user == [] ==> forall a :: ([], a) !in t
  {
    if user == [] {
      forall a ensures ([], a) !in t {
        assert Lookup(all, [], a).None?;
      }
    }
  }

  /** Opening a user's bucket for reading may create it empty; nobody can tell. */
  lemma EmptyBucketUnseen(all: Bucket<Alias>, t: Table, user: Text)
    requires Keyed(all) && Refines(all, t) && user != []
    ensures var after := all.WithBucket(user, UserBucket(all, user).value); Keyed(after) && Refines(after, t)
  {
    UserBucketHolds(all, t, user);
    var b := UserBucket(all, user).value;
    var after := all.WithBucket(user, b);
    forall u, a ensures Lookup(after, u, a) == Lookup(all, u, a) {
    }
  }

  lemma PutRefines(all: Bucket<Alias>, t: Table, user: Text, entry: Alias)
    requires Keyed(all) && Refines(all, t) && user != [] && entry.alias != []
    ensures var put := UserBucket(all, user).value.Put(entry.alias, entry);
      && put.Success?
      && Keyed(all.WithBucket(user, put.value))
      && Refines(all.WithBucket(user, put.value), t[(user, entry.alias) := entry])
  {
    UserBucketHolds(all, t, user);
    var b := UserBucket(all, user).value.Put(entry.alias, entry).value;
    var after := all.WithBucket(user, b);
    forall u, a
      ensures Lookup(after, u, a) == if (u, a) == (user, entry.alias) then Some(entry) else Lookup(all, u, a)
    {
    }
  }

  lemma DeleteRefines(all: Bucket<Alias>, t: Table, user: Text, alias: Text)
    requires Keyed(all) && Refines(all, t) && user != [] && (user, alias) in t
    ensures var rest := UserBucket(all, user).value.Delete(alias);
      && rest.Success?
      && var kept, dropped := all.WithBucket(user, rest.value), all.WithBucket(user, rest.value).DeleteBucket(user);
      && Keyed(kept) && Refines(kept, t - {(user, alias)})
      && (rest.value.items == map[] ==> Keyed(dropped) && Refines(dropped, t - {(user, alias)}))
  {
    UserBucketHolds(all, t, user);
    var rest := UserBucket(all, user).value.Delete(alias).value;
    var kept := all.WithBucket(user, rest);
    var dropped := kept.DeleteBucket(user);
    forall u, a
      ensures Lookup(kept, u, a) == if (u, a) == (user, alias) then None else Lookup(all, u, a)
      ensures rest.items == map[] ==> Lookup(dropped, u, a) == Lookup(kept, u, a)
    {
    }
  }

  class Store {
    var aliases: Bucket<Alias>
    ghost var table: Table

    ghost predicate Valid()
      reads this
    {
      Keyed(aliases) && Refines(aliases, table)
    }

    constructor ()
      ensures Valid() && table == map[]
    {
      aliases, table := EmptyBucket(), map[];
    }

    /** commits tells whether Bolt manages to commit; a failed transaction is rolled back. */
    method Create(user: Text, alias: Text, command: Text, args: seq<Text>, commits: bool)
      returns (error: Option<AliasError>)
      requires Valid()
      modifies this
      ensures Valid()
      ensures commits ==> table == Apply(old(table), Op.Create(user, alias, command, args))
      ensures error == Some(UserRequired) <==> user == []
      ensures error == Some(AliasRequired) <==> user != [] && alias == []
      ensures error == Some(NotCommitted) <==> user != [] && alias != [] && !commits
      ensures error.None? <==> user != [] && alias != [] && commits
      ensures table == if error.None? then old(table)[(user, alias) := Alias(alias, command, args)] else old(table)
    {
      hide Keyed, Refines;
      UserBucketHolds(aliases, table, user);
      var bucket := UserBucket(aliases, user);
      if bucket.Failure? {
        return Some(UserRequired);
      }
      var entry := Alias(alias, command, args);
      var put := bucket.value.Put(alias, entry);
      if alias == [] {
        return Some(AliasRequired);
      }
      PutRefines(aliases, table, user, entry);
      if !commits {
        return Some(NotCommitted);
      }
      aliases := aliases.WithBucket(user, put.value);
      table := Apply(table, Op.Create(user, alias, command, args));
      return None;
    }

    method Remove(user: Text, alias: Text, commits: bool) returns (error: Option<AliasError>)
      requires Valid()
      modifies this
      ensures Valid()
      ensures commits ==> table == Apply(old(table), Op.Remove(user, alias))
      ensures error == Some(UserRequired) <==> user == []
      ensures error == Some(AliasNotFound) <==> user != [] && (user, alias) !in old(table)
      ensures error == Some(NotCommitted) <==> user != [] && (user, alias) in old(table) && !commits
      ensures error.None? <==> user != [] && (user, alias) in old(table) && commits
      ensures table == if error.None? then old(table) - {(user, alias)} else old(table)
    {
      UserBucketHolds(aliases, table, user);
      var bucket := UserBucket(aliases, user);
      if bucket.Failure? {
        return Some(UserRequired);
      }
      assert Lookup(aliases, user, alias) == bucket.value.Get(alias);
      if bucket.value.Get(alias).None? {
        return Some(AliasNotFound);
      }
      hide Keyed, Refines;
      DeleteRefines(aliases, table, user, alias);
      var rest := bucket.value.Delete(alias).value;
      var cur := new Cursor(rest);
      var k, value := cur.First();
      var all := aliases.WithBucket(user, rest);
      if k.None? {
        assert rest.items.Keys == {};
        all := all.DeleteBucket(user);
      }
      if !commits {
        return Some(NotCommitted);
      }
      aliases := all;
      table := Apply(table, Op.Remove(user, alias));
      return None;
    }

    method Get(user: Text, alias: Text, commits: bool) returns (r: Result<Alias, AliasError>)
      requires Valid()
      modifies this
      ensures Valid() && table == old(table)
      ensures user == [] ==> r == Failure(UserRequired)
      ensures user != [] && (user, alias) !in table ==> r == Failure(AliasNotFound)
      ensures user != [] && (user, alias) in table ==>
                r == if commits then Success(table[(user, alias)]) else Failure(NotCommitted)
    {
      UserBucketHolds(aliases, table, user);
      var bucket := UserBucket(aliases, user);
      if bucket.Failure? {
        return Failure(UserRequired);
      }
      assert Lookup(aliases, user, alias) == bucket.value.Get(alias);
      var payload := bucket.value.Get(alias);
      if payload.None? {
        return Failure(AliasNotFound);
      }
      hide Keyed, Refines;
      if !commits {
        return Failure(NotCommitted);
      }
      EmptyBucketUnseen(aliases, table, user);
      aliases := aliases.WithBucket(user, bucket.value);
      return Success(payload.value);
    }

    /** The user's aliases in the byte order of their names. */
    method List(user: Text, commits: bool) returns (r: Result<seq<Alias>, AliasError>)
      requires Valid()
      modifies this
      ensures Valid() && table == old(table)
      ensures user == [] ==> r == Failure(UserRequired)
      ensures user != [] && !commits ==> r == Failure(NotCommitted)
      ensures user != [] && commits ==> r.Success? && ListsAll(table, user, r.value)
    {
      UserBucketHolds(aliases, table, user);
      var bucket := UserBucket(aliases, user);
      if bucket.Failure? {
        return Failure(UserRequired);
      }
      var found := ReadAliases(bucket.value);
      if !commits {
        return Failure(NotCommitted);
      }
      forall a ensures (user, a) in table <==> a in bucket.value.items
               ensures (user, a) in table ==> table[(user, a)] == bucket.value.items[a].value {
        assert Lookup(aliases, user, a) == bucket.value.Get(a);
      }
      ListedFromBucket(bucket.value, table, user, found);
      EmptyBucketUnseen(aliases, table, user);
      hide Keyed, Refines, ListsAll;
      aliases := aliases.WithBucket(user, bucket.value);
      return Success(found);
    }
  }

  /** Each of the user's aliases once, and nothing else, by ascending name. */
  ghost predicate ListsAll(t: Table, user: Text, r: seq<Alias>) {
    && (forall i, j :: 0 <= i < j < |r| ==> Less(r[i].alias, r[j].alias))
    && (forall i :: 0 <= i < |r| ==> (user, r[i].alias) in t && t[(user, r[i].alias)] == r[i])
    && (forall a :: (user, a) in t ==> t[(user, a)] in r)
  }

  ghost function Values(b: Bucket<Alias>, keys: seq<Key>): (vs: seq<Alias>)
    requires UserKeyed(b) && forall k :: k in keys ==> k in b.items
    ensures |vs| == |keys|
    ensures forall i :: 0 <= i < |keys| ==> vs[i] == b.items[keys[i]].value
  {
    seq(|keys|, i requires 0 <= i < |keys| => b.items[keys[i]].value)
  }

  method ReadAliases(b: Bucket<Alias>) returns (found: seq<Alias>)
    requires UserKeyed(b)
    ensures found == Values(b, Ascending(b.items.Keys))
  {
    hide Ascending, Less;
    found := [];
    var cur := new Cursor(b);
    ghost var all := Values(b, cur.keys);
    var key, payload := cur.First();
    while payload.Some?
      invariant cur.Valid() && cur.bucket == b && 0 <= cur.pos && payload == cur.At().1
      invariant found == all[..cur.pos]
      decreases |cur.keys| - cur.pos
    {
      found := found + [payload.value];
      key, payload := cur.Next();
    }
  }

  lemma ListedFromBucket(b: Bucket<Alias>, t: Table, user: Text, r: seq<Alias>)
    requires UserKeyed(b) && r == Values(b, Ascending(b.items.Keys))
    requires forall a :: (user, a) in t <==> a in b.items
    requires forall a :: (user, a) in t ==> t[(user, a)] == b.items[a].value
    ensures ListsAll(t, user, r)
  {
    hide Less;
    var keys := Ascending(b.items.Keys);
    AscendingSorted(b.items.Keys);
    hide Ascending;
    forall a | (user, a) in t ensures t[(user, a)] in r {
      assert a in keys;
      var i :| 0 <= i < |keys| && keys[i] == a;
      assert r[i] == t[(user, a)];
    }
  }
}
