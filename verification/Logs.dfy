/** persistence/logs/local/logs.go: one bucket per job, holding the lines and a nested bucket for the error. */
module Logs {
  import opened Bolt
  import opened Bytes
  import opened JobLogs
  import opened Keys
  import opened Wrappers

  datatype LogError = NoLogsForJob | NotCommitted

  datatype JobLog = JobLog(error: Text, output: Text)

  /** The bytes of "error". */
  const ERROR_KEY: Key := [0x65, 0x72, 0x72, 0x6F, 0x72]

  // ----------------------------------------------------------- the key order

  lemma ErrorKeyNumber()
    ensures ERROR_KEY == BigEndian(0x65_7272_6F72, 5)
  {
    assert BigEndian(0x65, 1) == [0x65];
    assert BigEndian(0x6572, 2) == [0x65, 0x72];
    assert BigEndian(0x65_7272, 3) == [0x65, 0x72, 0x72];
    assert BigEndian(0x6572_726F, 4) == [0x65, 0x72, 0x72, 0x6F];
  }

  /** "error" sorts among the line keys at the number its bytes begin. */
  lemma {:induction false} ErrorKeyOrder(i: uint64)
    ensures Less(IDToBytes(i), ERROR_KEY) <==> i <= LINES_BEFORE_ERROR
    ensures Less(ERROR_KEY, IDToBytes(i)) <==> i > LINES_BEFORE_ERROR
  {
    hide Less;
    var p := i / 0x100_0000;
    var t := BigEndian(i / 0x1_0000, 6)[5..] + BigEndian(i / 0x100, 7)[6..] + BigEndian(i, 8)[7..];
    assert i / 0x100 / 0x100 == i / 0x1_0000 && i / 0x1_0000 / 0x100 == p;
    assert BigEndian(i, 8) == BigEndian(p, 5) + t;
    IDToBytesIsBigEndian(i);
    ErrorKeyNumber();
    LessExtended(BigEndian(p, 5), t, ERROR_KEY);
    assert Pow256(5) == 0x100_0000_0000;
    BigEndianOrder(p, 0x65_7272_6F72, 5);
    BigEndianOrder(0x65_7272_6F72, p, 5);
    if p == 0x65_7272_6F72 {
      LessIrreflexive(ERROR_KEY);
    } else {
      DecodeEncode(p, 5);
      DecodeEncode(0x65_7272_6F72, 5);
    }
  }

  // ------------------------------------------------------- one job's bucket

  /** Line i is the value at key i, counting from 1; the error sits in a bucket of its own. */
  ghost predicate Represents(b: Bucket<Text>, log: Log) {
    && b.sequence == |log.lines|
    && (forall k :: k in b.items ==>
          (k == ERROR_KEY && log.error.Some?) || (|k| == 8 && 1 <= IDFromBytes(k) <= |log.lines|))
    && (forall i: uint64 :: 1 <= i <= |log.lines| ==> HasLine(b, log, i))
    && (log.error.Some? ==> HasError(b, log.error))
  }

  ghost predicate HasLine(b: Bucket<Text>, log: Log, i: uint64)
    requires 1 <= i <= |log.lines|
  {
    IDToBytes(i) in b.items && b.items[IDToBytes(i)] == Leaf(log.lines[i - 1])
  }

  ghost predicate HasError(b: Bucket<Text>, error: Option<Text>) {
    b.SubBucket(ERROR_KEY).Some? && b.SubBucket(ERROR_KEY).value.Get(ERROR_KEY) == error
  }

  lemma EmptyRepresents()
    ensures Represents(EmptyBucket(), NEW_LOG)
  {
  }

  lemma AppendRepresents(b: Bucket<Text>, log: Log, content: Text)
    requires Represents(b, log)
    ensures var c := b.NextSequence();
      && c.Put(IDToBytes(c.sequence), content).Success?
      && (|log.lines| < MAX_UINT64 ==>
            Represents(c.Put(IDToBytes(c.sequence), content).value, log.(lines := log.lines + [content])))
  {
    hide IDToBytes, IDFromBytes;
    var c := b.NextSequence();
    var key := IDToBytes(c.sequence);
    IDRoundTrip(c.sequence);
    assert key !in b.items;
    if |log.lines| < MAX_UINT64 {
      var d := c.Put(key, content).value;
      var longer := log.(lines := log.lines + [content]);
      forall i: uint64 | 1 <= i <= |longer.lines| ensures HasLine(d, longer, i) {
        IDRoundTrip(i);
        assert i <= |log.lines| ==> HasLine(b, log, i);
      }
    }
  }

  lemma SetErrorRepresents(b: Bucket<Text>, log: Log, error: Text)
    requires Represents(b, log)
    ensures var sub := b.CreateBucketIfNotExists(ERROR_KEY);
      && sub.Success? && sub.value.Put(ERROR_KEY, error).Success?
      && Represents(b.WithBucket(ERROR_KEY, sub.value.Put(ERROR_KEY, error).value), log.(error := Some(error)))
  {
    hide IDToBytes, IDFromBytes;
    var sub := b.CreateBucketIfNotExists(ERROR_KEY);
    var d := b.WithBucket(ERROR_KEY, sub.value.Put(ERROR_KEY, error).value);
    forall i: uint64 | 1 <= i <= |log.lines| ensures HasLine(d, log.(error := Some(error)), i) {
      assert HasLine(b, log, i);
      assert |IDToBytes(i)| == 8;
    }
  }

  /** The key at step j of a cursor's way through the bucket. */
  ghost function KeyAt(log: Log, j: nat): Key
    requires j <= |log.lines| < TWO_TO_64
    requires j == |log.lines| ==> log.error.Some?
  {
    if log.error.None? || j < ErrorAt(log) then IDToBytes(j + 1)
    else if j == ErrorAt(log) then ERROR_KEY
    else IDToBytes(j)
  }

  ghost function PathLength(log: Log): nat {
    |log.lines| + if log.error.Some? then 1 else 0
  }

  ghost function Path(log: Log): (path: seq<Key>)
    requires |log.lines| < TWO_TO_64 - 1
    ensures |path| == PathLength(log)
    ensures forall j :: 0 <= j < |path| ==> path[j] == KeyAt(log, j)
  {
    seq(PathLength(log), j requires 0 <= j < PathLength(log) => KeyAt(log, j))
  }

  lemma {:induction false} PathSorted(log: Log)
    requires |log.lines| < TWO_TO_64 - 1
    ensures Sorted(Path(log))
  {
    hide Less, IDToBytes;
    var path := Path(log);
    forall i, j | 0 <= i < j < |path| ensures Less(path[i], path[j]) {
      if log.error.None? || j < ErrorAt(log) {
        IDOrder(i + 1, j + 1);
      } else if j == ErrorAt(log) {
        ErrorKeyOrder(i + 1);
      } else if i < ErrorAt(log) {
        IDOrder(i + 1, j);
      } else if i == ErrorAt(log) {
        ErrorKeyOrder(j);
      } else {
        IDOrder(i, j);
      }
    }
  }

  lemma PathCovers(b: Bucket<Text>, log: Log)
    requires Represents(b, log) && |log.lines| < TWO_TO_64 - 1
    ensures forall k :: k in Path(log) <==> k in b.items
  {
    hide Less, IDToBytes, IDFromBytes;
    var path := Path(log);
    forall k | k in b.items ensures k in path {
      if k == ERROR_KEY && log.error.Some? {
        assert path[ErrorAt(log)] == k;
      } else {
        KeyRoundTrip(k);
        var i := IDFromBytes(k);
        assert path[if log.error.None? || i <= ErrorAt(log) then i - 1 else i] == k;
      }
    }
    forall j | 0 <= j < |path| ensures path[j] in b.items {
      if log.error.None? || j < ErrorAt(log) {
        assert HasLine(b, log, j + 1);
      } else if j > ErrorAt(log) {
        assert HasLine(b, log, j);
      }
    }
  }

  /** What a cursor finds at step j: a line, or the nil value of the error's bucket. */
  function ValueAt(log: Log, j: int): Option<Text> {
    if !(0 <= j < |log.lines| + 1) then None
    else if log.error.None? || j < ErrorAt(log) then if j < |log.lines| then Some(log.lines[j]) else None
    else if j == ErrorAt(log) then None
    else Some(log.lines[j - 1])
  }

  lemma CursorWalks(b: Bucket<Text>, log: Log, keys: seq<Key>)
    requires Represents(b, log) && |log.lines| < TWO_TO_64 - 1 && keys == Ascending(b.items.Keys)
    ensures |keys| == PathLength(log)
    ensures forall j :: 0 <= j < |keys| ==> b.Get(keys[j]) == ValueAt(log, j)
  {
    hide Less, IDToBytes, IDFromBytes, Ascending;
    PathSorted(log);
    PathCovers(b, log);
    AscendingUnique(Path(log), b.items.Keys);
    forall j | 0 <= j < |keys| ensures b.Get(keys[j]) == ValueAt(log, j) {
      if log.error.None? || j < ErrorAt(log) {
        assert HasLine(b, log, j + 1);
      } else if j > ErrorAt(log) {
        assert HasLine(b, log, j);
      }
    }
  }

  // ------------------------------------------------------- the reading loops

  /** Walking keys upwards yields values, then a nil value or the end. */
  ghost predicate YieldsUp(b: Bucket<Text>, keys: seq<Key>, values: seq<Text>) {
    && |values| <= |keys|
    && (forall j :: 0 <= j < |values| ==> b.Get(keys[j]) == Some(values[j]))
    && (|values| < |keys| ==> b.Get(keys[|values|]).None?)
  }

  /** Walking keys downwards yields values from the last one back, then a nil value or the end. */
  ghost predicate YieldsDown(b: Bucket<Text>, keys: seq<Key>, values: seq<Text>) {
    && |values| <= |keys|
    && (forall j :: |keys| - |values| <= j < |keys| ==> b.Get(keys[j]) == Some(values[j - (|keys| - |values|)]))
    && (|values| < |keys| ==> b.Get(keys[|keys| - |values| - 1]).None?)
  }

  lemma {:induction false} CursorYields(b: Bucket<Text>, log: Log)
    requires Represents(b, log) && |log.lines| < MAX_UINT64
    ensures YieldsUp(b, Ascending(b.items.Keys), FromTop(log))
    ensures YieldsDown(b, Ascending(b.items.Keys), FromBottom(log))
  {
    hide Ascending, Represents;
    CursorWalks(b, log, Ascending(b.items.Keys));
  }

  method ReadAll(b: Bucket<Text>, ghost all: seq<Text>) returns (lines: seq<Text>)
    requires YieldsUp(b, Ascending(b.items.Keys), all)
    ensures lines == all
  {
    hide Ascending;
    var c := new Cursor(b);
    var key, line := c.First();
    lines := [];
    while line.Some?
      invariant c.Valid() && c.bucket == b && 0 <= c.pos <= |all| && line == c.At().1
      invariant lines == all[..c.pos]
      decreases |c.keys| - c.pos
    {
      lines := lines + [line.value];
      key, line := c.Next();
    }
  }

  method ReadFirst(b: Bucket<Text>, limit: int, ghost all: seq<Text>) returns (lines: seq<Text>)
    requires YieldsUp(b, Ascending(b.items.Keys), all)
    ensures lines == FirstN(all, limit)
  {
    hide Ascending;
    var c := new Cursor(b);
    lines := [];
    var key, line := c.First();
    var i := 0;
    while i < limit && line.Some?
      invariant c.Valid() && c.bucket == b && line == c.At().1
      invariant 0 <= i == c.pos <= |all| && (limit > 0 ==> i <= limit) && (limit <= 0 ==> i == 0)
      invariant lines == all[..i]
    {
      lines := lines + [line.value];
      key, line := c.Next();
      i := i + 1;
    }
  }

  lemma SuffixCons(all: seq<Text>, i: nat)
    ensures i < |all| ==> all[|all| - (i + 1)..] == [all[|all| - (i + 1)]] + all[|all| - i..]
  {
  }

  method ReadLast(b: Bucket<Text>, limit: int, ghost all: seq<Text>) returns (lines: seq<Text>)
    requires YieldsDown(b, Ascending(b.items.Keys), all)
    ensures lines == LastN(all, limit)
  {
    hide Ascending;
    var c := new Cursor(b);
    lines := [];
    var key, line := c.Last();
    var i := 0;
    while i < limit && line.Some?
      invariant c.Valid() && c.bucket == b && line == c.At().1
      invariant 0 <= i <= |all| && c.pos == |c.keys| - 1 - i
      invariant (limit > 0 ==> i <= limit) && (limit <= 0 ==> i == 0)
      invariant lines == all[|all| - i..]
    {
      SuffixCons(all, i);
      lines := [line.value] + lines;
      key, line := c.Prev();
      i := i + 1;
    }
  }

  // -------------------------------------------------------------- all jobs

  ghost predicate Holds(all: Bucket<Text>, id: uint64, log: Log) {
    all.SubBucket(IDToBytes(id)).Some? && Represents(all.SubBucket(IDToBytes(id)).value, log)
  }

  ghost predicate HoldsAll(logs: Option<Bucket<Text>>, history: History) {
    && (logs.None? ==> history == map[])
    && (logs.Some? ==> forall k :: k in logs.value.items ==> |k| == 8 && IDFromBytes(k) in history)
    && (logs.Some? ==> forall id :: id in history ==> Holds(logs.value, id, history[id]))
  }

  /** getJobBucket: the bucket of a job inside a transaction that may create it. */
  function JobBucket(logs: Option<Bucket<Text>>, id: uint64): Result<Bucket<Text>, BoltError> {
    var all := if logs.Some? then logs.value else EmptyBucket();
    all.CreateBucketIfNotExists(IDToBytes(id))
  }

  /** The logs bucket with the job's bucket put back. */
  function WithJobBucket(logs: Option<Bucket<Text>>, id: uint64, b: Bucket<Text>): Bucket<Text> {
    var all := if logs.Some? then logs.value else EmptyBucket();
    all.WithBucket(IDToBytes(id), b)
  }

  lemma {:induction false} JobBucketRepresents(logs: Option<Bucket<Text>>, history: History, id: uint64)
    requires HoldsAll(logs, history)
    ensures JobBucket(logs, id).Success? && Represents(JobBucket(logs, id).value, LogOf(history, id))
  {
    hide IDToBytes, Represents;
    EmptyRepresents();
    IDRoundTrip(id);
    assert id in history ==> Holds(logs.value, id, history[id]);
  }

  lemma JobBucketReplaced(logs: Option<Bucket<Text>>, history: History, id: uint64, b: Bucket<Text>, log: Log)
    requires HoldsAll(logs, history) && Represents(b, log)
    ensures HoldsAll(Some(WithJobBucket(logs, id, b)), history[id := log])
  {
    hide IDToBytes, IDFromBytes, Represents;
    var all, after := WithJobBucket(logs, id, b), history[id := log];
    IDRoundTrip(id);
    forall k | k in all.items ensures |k| == 8 && IDFromBytes(k) in after {
      assert k == IDToBytes(id) || (logs.Some? && k in logs.value.items);
    }
    forall other | other in after ensures Holds(all, other, after[other]) {
      OtherJobHeld(logs, history, id, b, log, other);
    }
  }

  lemma OtherJobHeld(logs: Option<Bucket<Text>>, history: History, id: uint64, b: Bucket<Text>, log: Log, other: uint64)
    requires HoldsAll(logs, history) && Represents(b, log) && (other == id || other in history)
    ensures Holds(WithJobBucket(logs, id, b), other, history[id := log][other])
  {
    hide IDToBytes, IDFromBytes, Represents;
    if other != id {
      IDRoundTrip(id);
      IDRoundTrip(other);
      assert Holds(logs.value, other, history[other]);
    }
  }

  class Store {
    var logs: Option<Bucket<Text>>
    ghost var history: History

    ghost predicate Valid()
      reads this
    {
      HoldsAll(logs, history)
    }

    constructor ()
      ensures Valid() && history == map[]
    {
      logs, history := None, map[];
    }

    /** commits tells whether Bolt manages to commit. The lines of a job are numbered with 64 bits. */
    method Append(id: uint64, content: Text, commits: bool) returns (r: Result<(), LogError>)
      requires Valid()
      modifies this
      ensures |LogOf(old(history), id).lines| < MAX_UINT64 ==> Valid()
      ensures history == if commits then Written(old(history), Write.Append(id, content)) else old(history)
      ensures var log := LogOf(old(history), id);
        history == if !commits || content == [] then old(history)
                   else old(history)[id := Log(log.lines + [content], log.error)]
      ensures r.Success? <==> commits || content == []
    {
      hide IDToBytes, Represents;
      if content == [] {
        return Success(());
      }
      JobBucketRepresents(logs, history, id);
      var b := JobBucket(logs, id).value;
      ghost var log := LogOf(history, id);
      AppendRepresents(b, log, content);
      b := b.NextSequence();
      b := b.Put(IDToBytes(b.sequence), content).value;
      if !commits {
        return Failure(NotCommitted);
      }
      if |log.lines| < MAX_UINT64 {
        JobBucketReplaced(logs, history, id, b, log.(lines := log.lines + [content]));
      }
      logs := Some(WithJobBucket(logs, id, b));
      history := Written(history, Write.Append(id, content));
      return Success(());
    }

    method SetError(id: uint64, error: Option<Text>, commits: bool) returns (r: Result<(), LogError>)
      requires Valid()
      modifies this
      ensures Valid()
      ensures history == if commits then Written(old(history), Write.SetError(id, error)) else old(history)
      ensures history == if !commits || error.None? then old(history)
                         else old(history)[id := Log(LogOf(old(history), id).lines, error)]
      ensures r.Success? <==> commits || error.None?
    {
      hide IDToBytes, Represents;
      if error.None? {
        return Success(());
      }
      JobBucketRepresents(logs, history, id);
      var b := JobBucket(logs, id).value;
      ghost var log := LogOf(history, id);
      SetErrorRepresents(b, log, error.value);
      var errorBucket := b.CreateBucketIfNotExists(ERROR_KEY).value;
      errorBucket := errorBucket.Put(ERROR_KEY, error.value).value;
      b := b.WithBucket(ERROR_KEY, errorBucket);
      if !commits {
        return Failure(NotCommitted);
      }
      JobBucketReplaced(logs, history, id, b, log.(error := error));
      logs := Some(WithJobBucket(logs, id, b));
      history := Written(history, Write.SetError(id, error));
      return Success(());
    }

    /** readLogBucket: the job's bucket, or the error that it has none. */
    method ReadBucket(id: uint64) returns (r: Result<Bucket<Text>, LogError>)
      requires Valid()
      ensures r.Success? <==> id in history
      ensures r.Success? ==> Represents(r.value, history[id])
      ensures r.Failure? ==> r.error == NoLogsForJob
    {
      hide IDToBytes, Represents;
      IDRoundTrip(id);
      if logs.None? {
        return Failure(NoLogsForJob);
      }
      assert id in history ==> Holds(logs.value, id, history[id]);
      var b := logs.value.SubBucket(IDToBytes(id));
      if b.None? {
        return Failure(NoLogsForJob);
      }
      return Success(b.value);
    }

    static function RecordedError(b: Bucket<Text>): Text {
      var errorBucket := b.SubBucket(ERROR_KEY);
      if errorBucket.Some? && errorBucket.value.Get(ERROR_KEY).Some? then errorBucket.value.Get(ERROR_KEY).value else []
    }

    static function ErrorText(log: Log): Text {
      if log.error.Some? then log.error.value else []
    }

    static lemma RecordedErrorIs(b: Bucket<Text>, log: Log)
      requires Represents(b, log)
      ensures RecordedError(b) == ErrorText(log)
    {
    }

    method Get(id: uint64) returns (r: Result<JobLog, LogError>)
      requires Valid() && |LogOf(history, id).lines| < MAX_UINT64
      ensures r == if id in history then Success(JobLog(ErrorText(history[id]), Join(FromTop(history[id]))))
                   else Failure(NoLogsForJob)
      ensures r.Success? ==> r.value.error == match history[id].error case Some(e) => e case None => []
    {
      hide Represents, Join, FromTop, Ascending, YieldsUp, YieldsDown, RecordedError;
      var found := ReadBucket(id);
      if found.Failure? {
        return Failure(NoLogsForJob);
      }
      CursorYields(found.value, history[id]);
      var lines := ReadAll(found.value, FromTop(history[id]));
      RecordedErrorIs(found.value, history[id]);
      return Success(JobLog(RecordedError(found.value), Join(lines)));
    }

    method Head(id: uint64, limit: int) returns (r: Result<JobLog, LogError>)
      requires Valid() && |LogOf(history, id).lines| < MAX_UINT64
      ensures r == if id in history
                   then Success(JobLog(ErrorText(history[id]), Join(FirstN(FromTop(history[id]), limit))))
                   else Failure(NoLogsForJob)
      ensures r.Success? ==> r.value.error == match history[id].error case Some(e) => e case None => []
    {
      hide Represents, Join, FromTop, FirstN, Ascending, YieldsUp, YieldsDown, RecordedError;
      var found := ReadBucket(id);
      if found.Failure? {
        return Failure(NoLogsForJob);
      }
      CursorYields(found.value, history[id]);
      var lines := ReadFirst(found.value, limit, FromTop(history[id]));
      RecordedErrorIs(found.value, history[id]);
      return Success(JobLog(RecordedError(found.value), Join(lines)));
    }

    method Tail(id: uint64, limit: int) returns (r: Result<JobLog, LogError>)
      requires Valid() && |LogOf(history, id).lines| < MAX_UINT64
      ensures r == if id in history
                   then Success(JobLog(ErrorText(history[id]), Join(LastN(FromBottom(history[id]), limit))))
                   else Failure(NoLogsForJob)
      ensures r.Success? ==> r.value.error == match history[id].error case Some(e) => e case None => []
    {
      hide Represents, Join, FromBottom, LastN, Ascending, YieldsUp, YieldsDown, RecordedError;
      var found := ReadBucket(id);
      if found.Failure? {
        return Failure(NoLogsForJob);
      }
      CursorYields(found.value, history[id]);
      var lines := ReadLast(found.value, limit, FromBottom(history[id]));
      RecordedErrorIs(found.value, history[id]);
      return Success(JobLog(RecordedError(found.value), Join(lines)));
    }
  }
}
