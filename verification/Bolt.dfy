/**
 * The part of the Bolt key/value store the application relies on: buckets map
 * byte keys to values or to nested buckets, each bucket counts its own
 * sequence, and a cursor walks the keys in byte order.
 */
module Bolt {
  import opened Bytes
  import opened Keys
  import opened Wrappers

  type Key = Text

  datatype BoltError =
    | BucketNameRequired
    | KeyRequired
    | IncompatibleValue

  datatype Entry<V> = Leaf(value: V) | Nested(bucket: Bucket<V>)

  datatype Bucket<V> = Bucket(sequence: uint64, items: map<Key, Entry<V>>) {

    /** The value at key; nil when there is none or when the key holds a bucket. */
    function Get(key: Key): Option<V> {
      if key in items && items[key].Leaf? then Some(items[key].value) else None
    }

    function Put(key: Key, value: V): Result<Bucket<V>, BoltError> {
      if key == [] then Failure(KeyRequired)
      else if key in items && items[key].Nested? then Failure(IncompatibleValue)
      else Success(this.(items := items[key := Leaf(value)]))
    }

    function Delete(key: Key): Result<Bucket<V>, BoltError> {
      if key in items && items[key].Nested? then Failure(IncompatibleValue)
      else Success(this.(items := items - {key}))
    }

    /** uint64 increment: it wraps to 0 past the maximum. */
    function NextSequence(): Bucket<V> {
      this.(sequence := if sequence == MAX_UINT64 then 0 else sequence + 1)
    }

    /** The nested bucket at key; nil when there is none. */
    function SubBucket(key: Key): Option<Bucket<V>> {
      if key in items && items[key].Nested? then Some(items[key].bucket) else None
    }

    function CreateBucketIfNotExists(key: Key): Result<Bucket<V>, BoltError> {
      if key == [] then Failure(BucketNameRequired)
      else if key !in items then Success(EmptyBucket())
      else if items[key].Leaf? then Failure(IncompatibleValue)
      else Success(items[key].bucket)
    }

    /** Writing a changed sub-bucket back into its parent. */
    function WithBucket(key: Key, sub: Bucket<V>): Bucket<V> {
      this.(items := items[key := Nested(sub)])
    }

    function DeleteBucket(key: Key): Bucket<V> {
      if key in items && items[key].Nested? then this.(items := items - {key}) else this
    }
  }

  function EmptyBucket<V>(): Bucket<V> {
    Bucket(0, map[])
  }

  // ------------------------------------------------------------- key order

  predicate IsLeast(k: Key, keys: set<Key>) {
    k in keys && forall j :: j in keys && j != k ==> Less(k, j)
  }

  lemma {:induction false} LeastExists(keys: set<Key>)
    requires keys != {}
    ensures exists k :: IsLeast(k, keys)
  {
    var k :| k in keys;
    if keys == {k} {
      assert IsLeast(k, keys);
    } else {
      LeastExists(keys - {k});
      var rest :| IsLeast(rest, keys - {k});
      LessTotal(k, rest);
      if Less(k, rest) {
        forall j | j in keys && j != k && j != rest ensures Less(k, j) {
          LessTransitive(k, rest, j);
        }
        assert IsLeast(k, keys);
      } else {
        assert IsLeast(rest, keys);
      }
    }
  }

  lemma LeastUnique(keys: set<Key>)
    ensures forall a, b :: IsLeast(a, keys) && IsLeast(b, keys) ==> a == b
  {
    forall a, b | IsLeast(a, keys) && IsLeast(b, keys) && a != b
      ensures false
    {
      LessTransitive(a, b, a);
      LessIrreflexive(a);
    }
  }

  function Least(keys: set<Key>): (k: Key)
    requires keys != {}
    ensures IsLeast(k, keys)
  {
    LeastExists(keys);
    LeastUnique(keys);
    var k :| k in keys && IsLeast(k, keys);
    k
  }

  /** The keys in byte order: the path of a cursor. */
  function Ascending(keys: set<Key>): (s: seq<Key>)
    ensures |s| == |keys|
    ensures forall k :: k in s <==> k in keys
  {
    if keys == {} then [] else
      var k := Least(keys);
      [k] + Ascending(keys - {k})
  }

  ghost predicate Sorted(s: seq<Key>) {
    forall i, j :: 0 <= i < j < |s| ==> Less(s[i], s[j])
  }

  lemma {:induction false} AscendingSorted(keys: set<Key>)
    ensures Sorted(Ascending(keys))
  {
    if keys != {} {
      var k := Least(keys);
      AscendingSorted(keys - {k});
      var rest := Ascending(keys - {k});
      assert forall j :: 0 <= j < |rest| ==> rest[j] in keys - {k};
    }
  }

  /** A set of keys has one ascending listing. */
  lemma {:induction false} AscendingUnique(s: seq<Key>, keys: set<Key>)
    requires Sorted(s) && forall k :: k in s <==> k in keys
    ensures s == Ascending(keys)
    decreases |s|
  {
    if s == [] {
      assert keys == {};
    } else {
      assert s[0] in keys;
      var k := Least(keys);
      assert IsLeast(s[0], keys);
      LeastUnique(keys);
      assert s == [k] + s[1..];
      forall j | 1 <= j < |s| ensures s[j] != k {
        LessIrreflexive(k);
      }
      AscendingUnique(s[1..], keys - {k});
    }
  }

  /**
   * A cursor over the keys its bucket had when the cursor was made: writes to
   * the bucket during the walk change neither the keys visited nor their order.
   */
  class Cursor<V> {
    const bucket: Bucket<V>
    const keys: seq<Key>
    var pos: int

    ghost predicate Valid()
      reads this
    {
      keys == Ascending(bucket.items.Keys) && -1 <= pos <= |keys|
    }

    constructor (bucket: Bucket<V>)
      ensures Valid() && this.bucket == bucket && pos == -1
    {
      this.bucket := bucket;
      this.keys := Ascending(bucket.items.Keys);
      this.pos := -1;
    }

    /** Key and value at the cursor; a nested bucket has a key and no value. */
    function At(): (Option<Key>, Option<V>)
      reads this
    {
      if 0 <= pos < |keys| then (Some(keys[pos]), bucket.Get(keys[pos])) else (None, None)
    }

    method First() returns (key: Option<Key>, value: Option<V>)
      requires Valid()
      modifies this
      ensures Valid() && pos == 0 && (key, value) == At()
    {
      pos := 0;
      key, value := At().0, At().1;
    }

    method Next() returns (key: Option<Key>, value: Option<V>)
      requires Valid()
      modifies this
      ensures Valid() && (key, value) == At()
      ensures pos == if old(pos) < |keys| then old(pos) + 1 else old(pos)
    {
      if pos < |keys| {
        pos := pos + 1;
      }
      key, value := At().0, At().1;
    }

    method Last() returns (key: Option<Key>, value: Option<V>)
      requires Valid()
      modifies this
      ensures Valid() && pos == |keys| - 1 && (key, value) == At()
    {
      pos := |keys| - 1;
      key, value := At().0, At().1;
    }

    method Prev() returns (key: Option<Key>, value: Option<V>)
      requires Valid()
      modifies this
      ensures Valid() && (key, value) == At()
      ensures pos == if old(pos) >= 0 then old(pos) - 1 else old(pos)
    {
      if pos >= 0 {
        pos := pos - 1;
      }
      key, value := At().0, At().1;
    }
  }
}
