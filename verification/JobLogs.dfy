/** What the job logs are: per job, the lines in order and the error, if any. */
module JobLogs {
  import opened Bytes
  import opened Keys
  import opened Wrappers

  datatype Log = Log(lines: seq<Text>, error: Option<Text>)

  const NEW_LOG := Log([], None)

  type History = map<uint64, Log>

  datatype Write =
    | Append(id: uint64, content: Text)
    | SetError(id: uint64, error: Option<Text>)
  {
    /** Writing no content, or no error, does nothing. */
    predicate Counts() {
      match this
      case Append(_, content) => content != []
      case SetError(_, error) => error.Some?
    }
  }

  function LogOf(h: History, id: uint64): Log {
    if id in h then h[id] else NEW_LOG
  }

  function Written(h: History, w: Write): History {
    if !w.Counts() then h else
      var log := LogOf(h, w.id);
      match w
      case Append(id, content) => h[id := log.(lines := log.lines + [content])]
      case SetError(id, error) => h[id := log.(error := error)]
  }

  function Replay(ws: seq<Write>): History {
    if ws == [] then map[] else Written(Replay(ws[..|ws| - 1]), ws[|ws| - 1])
  }

  /** The contents appended for one job, empty ones dropped. */
  function AppendedTo(ws: seq<Write>, id: uint64): seq<Text> {
    if ws == [] then [] else
      var w := ws[|ws| - 1];
      AppendedTo(ws[..|ws| - 1], id) + if w.Append? && w.id == id && w.content != [] then [w.content] else []
  }

  /** The last error set for one job. */
  function LastError(ws: seq<Write>, id: uint64): Option<Text> {
    if ws == [] then None else
      var w := ws[|ws| - 1];
      if w.SetError? && w.id == id && w.error.Some? then w.error else LastError(ws[..|ws| - 1], id)
  }

  /** However writes to different jobs interleave, a job's log holds its own lines in order and its own last error. */
  lemma {:induction false} ReplayIsPerJob(ws: seq<Write>, id: uint64)
    ensures LogOf(Replay(ws), id) == Log(AppendedTo(ws, id), LastError(ws, id))
    ensures id in Replay(ws) <==> exists i :: 0 <= i < |ws| && ws[i].id == id && ws[i].Counts()
    ensures forall i :: 0 <= i < |AppendedTo(ws, id)| ==> AppendedTo(ws, id)[i] != []
  {
    if ws != [] {
      var front, w := ws[..|ws| - 1], ws[|ws| - 1];
      ReplayIsPerJob(front, id);
      if id in Replay(front) {
        var i :| 0 <= i < |front| && front[i].id == id && front[i].Counts();
        assert ws[i] == front[i];
      }
      if w.id == id && w.Counts() {
        assert ws[|ws| - 1].id == id;
      }
    }
  }

  /** The error a job's log ends up with is the last one set for it, and there is none if none was ever set. */
  lemma {:induction false} LastErrorWins(ws: seq<Write>, id: uint64)
    ensures LogOf(Replay(ws), id).error.None? <==>
      forall i :: 0 <= i < |ws| ==> !(ws[i].SetError? && ws[i].id == id && ws[i].error.Some?)
    ensures forall i {:trigger ws[i]} ::
      0 <= i < |ws| && ws[i].SetError? && ws[i].id == id && ws[i].error.Some?
      && (forall j :: i < j < |ws| ==> !(ws[j].SetError? && ws[j].id == id && ws[j].error.Some?)) ==>
        LogOf(Replay(ws), id).error == ws[i].error
  {
    if ws != [] {
      var front, w := ws[..|ws| - 1], ws[|ws| - 1];
      assert ws == front + [w];
      LastErrorWins(front, id);
    }
  }

  /** Write w appends a line to the log of job id. */
  predicate Lines(w: Write, id: uint64) {
    w.Append? && w.id == id && w.content != []
  }

  /** at tells which writes the lines came from: all that append one, in their order. */
  ghost predicate CameFrom(ws: seq<Write>, id: uint64, lines: seq<Text>, at: seq<nat>) {
    && |at| == |lines|
    && (forall k :: 0 <= k < |at| ==> at[k] < |ws| && Lines(ws[at[k]], id) && ws[at[k]].content == lines[k])
    && (forall j, k :: 0 <= j < k < |at| ==> at[j] < at[k])
    && (forall i :: 0 <= i < |ws| && Lines(ws[i], id) ==> i in at)
  }

  lemma CameFromNext(ws: seq<Write>, w: Write, id: uint64, lines: seq<Text>, at: seq<nat>)
    requires CameFrom(ws, id, lines, at)
    ensures Lines(w, id) ==> CameFrom(ws + [w], id, lines + [w.content], at + [|ws|])
    ensures !Lines(w, id) ==> CameFrom(ws + [w], id, lines, at)
  {
    if Lines(w, id) {
      var later := at + [|ws|];
      assert later[|at|] == |ws|;
      assert forall i :: i in at ==> i in later;
    }
  }

  function LinesOf(ws: seq<Write>, id: uint64): seq<Text> {
    LogOf(Replay(ws), id).lines
  }

  lemma LinesNext(ws: seq<Write>, w: Write, id: uint64)
    ensures Lines(w, id) ==> LinesOf(ws + [w], id) == LinesOf(ws, id) + [w.content]
    ensures !Lines(w, id) ==> LinesOf(ws + [w], id) == LinesOf(ws, id)
  {
    assert (ws + [w])[..|ws|] == ws;
  }

  lemma NoLines(id: uint64)
    ensures CameFrom([], id, LinesOf([], id), [])
  {
  }

  /** The lines of a job's log are the contents appended to it, empty ones dropped, in the order in which they were. */
  lemma {:induction false} LinesInOrder(ws: seq<Write>, id: uint64) returns (at: seq<nat>)
    ensures CameFrom(ws, id, LogOf(Replay(ws), id).lines, at)
  {
    hide CameFrom, Lines, Replay, LogOf;
    if ws == [] {
      NoLines(id);
      at := [];
    } else {
      var front, w := ws[..|ws| - 1], ws[|ws| - 1];
      assert ws == front + [w];
      var before := LinesInOrder(front, id);
      LinesNext(front, w, id);
      hide LinesOf;
      CameFromNext(front, w, id, LinesOf(front, id), before) by { LinesAre(front, id); }
      LinesAre(ws, id);
      at := if Lines(w, id) then before + [|front|] else before;
    }
  }

  lemma LinesAre(ws: seq<Write>, id: uint64)
    ensures LinesOf(ws, id) == LogOf(Replay(ws), id).lines
  {
  }

  // ------------------------------------------------------------ what is read

  /** The number of line keys that sort before the error key: see ErrorKeyOrder. */
  const LINES_BEFORE_ERROR := 0x6572_726F_7200_0000 - 1

  /** Where the error entry stands among the lines. */
  function ErrorAt(log: Log): (n: nat)
    ensures n <= |log.lines|
  {
    if |log.lines| < LINES_BEFORE_ERROR then |log.lines| else LINES_BEFORE_ERROR
  }

  function FromTop(log: Log): seq<Text> {
    if log.error.Some? then log.lines[..ErrorAt(log)] else log.lines
  }

  function FromBottom(log: Log): seq<Text> {
    if log.error.Some? then log.lines[ErrorAt(log)..] else log.lines
  }

  function FirstN(lines: seq<Text>, n: int): seq<Text> {
    if n <= 0 then [] else if n <= |lines| then lines[..n] else lines
  }

  function LastN(lines: seq<Text>, n: int): seq<Text> {
    if n <= 0 then [] else if n <= |lines| then lines[|lines| - n..] else lines
  }

  /** The first n are a beginning of the lines, the last n an end of them; as many as there are, if fewer than n. */
  lemma FirstAndLast(lines: seq<Text>, n: int)
    ensures var first, last := FirstN(lines, n), LastN(lines, n);
      && |first| == |last| == (if n <= 0 then 0 else if n < |lines| then n else |lines|)
      && first <= lines && last == lines[|lines| - |last|..]
  {
  }

  const NEWLINE: byte := 0x0A

  /** strings.Join with a newline. */
  function Join(lines: seq<Text>): Text {
    if lines == [] then []
    else if |lines| == 1 then lines[0]
    else Join(lines[..|lines| - 1]) + [NEWLINE] + lines[|lines| - 1]
  }

  lemma JoinSnoc(lines: seq<Text>, last: Text)
    ensures Join(lines + [last]) == if lines == [] then last else Join(lines) + [NEWLINE] + last
  {
    assert (lines + [last])[..|lines|] == lines;
  }

  /** Where line k begins in the joined text. */
  function Offset(lines: seq<Text>, k: nat): nat
    requires k < |lines|
  {
    if k == 0 then 0 else Offset(lines, k - 1) + |lines[k - 1]| + 1
  }

  lemma {:induction false} OffsetOfFront(lines: seq<Text>, last: Text, k: nat)
    requires k < |lines|
    ensures Offset(lines + [last], k) == Offset(lines, k)
  {
    if k > 0 {
      OffsetOfFront(lines, last, k - 1);
    }
  }

  lemma OffsetNext(lines: seq<Text>, k: nat)
    requires k < |lines|
    ensures k == 0 ==> Offset(lines, k) == 0
    ensures k + 1 < |lines| ==> Offset(lines, k + 1) == Offset(lines, k) + |lines[k]| + 1
  {
  }

  lemma Before(whole: Text, more: Text, start: nat, end: nat)
    requires start <= end <= |whole|
    ensures (whole + more)[start..end] == whole[start..end]
    ensures end < |whole| ==> (whole + more)[end] == whole[end]
    ensures end == |whole| && more != [] ==> (whole + more)[end] == more[0]
  {
  }

  /** The line is in the text from start on, and a newline or the end of the text after it. */
  ghost predicate StandsAt(text: Text, line: Text, start: nat, atEnd: bool) {
    var end := start + |line|;
    end <= |text| && text[start..end] == line && if atEnd then end == |text| else end < |text| && text[end] == 0x0A
  }

  lemma StandsBefore(whole: Text, last: Text, line: Text, start: nat, atEnd: bool)
    requires StandsAt(whole, line, start, atEnd)
    ensures StandsAt(whole + [NEWLINE] + last, line, start, false)
  {
    Before(whole, [NEWLINE] + last, start, start + |line|);
    assert whole + [NEWLINE] + last == whole + ([NEWLINE] + last);
  }

  lemma StandsLast(whole: Text, last: Text)
    ensures StandsAt(whole + [NEWLINE] + last, last, |whole| + 1, true)
  {
    assert whole + [NEWLINE] + last == (whole + [NEWLINE]) + last;
  }

  /** Every line is in the joined text at its offset, followed by a newline, the last one by nothing. */
  lemma {:induction false} JoinExactly(lines: seq<Text>, k: nat)
    requires k < |lines|
    ensures StandsAt(Join(lines), lines[k], Offset(lines, k), k == |lines| - 1)
    ensures k == 0 ==> Offset(lines, k) == 0
    ensures k + 1 < |lines| ==> Offset(lines, k + 1) == Offset(lines, k) + |lines[k]| + 1
  {
    var front, last := lines[..|lines| - 1], lines[|lines| - 1];
    assert lines == front + [last];
    JoinSnoc(front, last);
    OffsetNext(lines, k);
    if front == [] {
      hide Join, Offset;
    } else if k < |front| {
      hide Join, Offset, StandsAt;
      JoinExactly(front, k);
      OffsetOfFront(front, last, k);
      StandsBefore(Join(front), last, front[k], Offset(front, k), k == |front| - 1);
    } else {
      JoinExactly(front, k - 1);
      OffsetOfFront(front, last, k - 1);
      OffsetNext(lines, k - 1);
      hide Join, Offset;
      assert Offset(lines, k) == |Join(front)| + 1;
      hide StandsAt;
      StandsLast(Join(front), last);
    }
  }

  lemma JoinOnto(whole: Text, part: Text, last: Text, first: Text)
    requires whole == first + [NEWLINE] + part
    ensures whole + [NEWLINE] + last == first + [NEWLINE] + (part + [NEWLINE] + last)
  {
  }

  lemma {:induction false} JoinAppend(a: seq<Text>, b: seq<Text>)
    requires a != [] && b != []
    ensures Join(a + b) == Join(a) + [NEWLINE] + Join(b)
  {
    hide Join;
    var front, last := b[..|b| - 1], b[|b| - 1];
    assert b == front + [last] && a + b == a + front + [last];
    JoinSnoc(front, last);
    JoinSnoc(a + front, last);
    if front == [] {
      assert a + front == a;
    } else {
      JoinAppend(a, front);
      JoinOnto(Join(a + front), Join(front), last, Join(a));
    }
  }

  /**
   * With no error recorded, what Head shows of the first k lines, a newline, and what Tail shows of the others
   * make up what Get shows; with nothing on one side, the other shows it all.
   */
  lemma HeadAndTailPartition(log: Log, k: nat)
    requires log.error.None? && k <= |log.lines|
    ensures var head, tail := Join(FirstN(FromTop(log), k)), Join(LastN(FromBottom(log), |log.lines| - k));
      Join(FromTop(log)) ==
        if k == 0 then tail else if k == |log.lines| then head else head + [0x0A] + tail
  {
    var top, rest := FirstN(FromTop(log), k), LastN(FromBottom(log), |log.lines| - k);
    assert top == log.lines[..k] && rest == log.lines[k..] && log.lines == top + rest;
    if k == 0 {
      assert rest == log.lines;
    } else if k == |log.lines| {
      assert top == log.lines;
    } else {
      JoinAppend(top, rest);
    }
  }

  /** Reading from the top misses lines exactly when an error is recorded and sorts among them. */
  lemma TopIsComplete(log: Log, n: int)
    ensures FromTop(log) == log.lines <==> log.error.None? || |log.lines| <= LINES_BEFORE_ERROR
    ensures log.error.None? || |log.lines| <= LINES_BEFORE_ERROR || n <= LINES_BEFORE_ERROR
       <==> FirstN(FromTop(log), n) == FirstN(log.lines, n)
  {
    if log.error.Some? && |log.lines| > LINES_BEFORE_ERROR {
      assert |FromTop(log)| == LINES_BEFORE_ERROR;
    }
  }

  /**
   * Reading n lines from the bottom gives the last n exactly when no error is
   * recorded, nothing is asked for or there, or the lines past the error suffice.
   */
  lemma TailIsComplete(log: Log, n: int)
    ensures LastN(FromBottom(log), n) == LastN(log.lines, n)
       <==> log.error.None? || n <= 0 || log.lines == [] || n <= |log.lines| - ErrorAt(log)
    ensures log.error.Some? && |log.lines| <= LINES_BEFORE_ERROR ==> LastN(FromBottom(log), n) == []
  {
    if log.error.Some? && n > 0 && log.lines != [] {
      assert |FromBottom(log)| == |log.lines| - ErrorAt(log) < |log.lines|;
      if n <= |FromBottom(log)| {
        assert LastN(FromBottom(log), n) == LastN(log.lines, n);
      } else {
        assert |LastN(FromBottom(log), n)| < |LastN(log.lines, n)|;
      }
    }
  }

  lemma {:induction false} JoinIsEmpty(lines: seq<Text>)
    requires forall i :: 0 <= i < |lines| ==> lines[i] != []
    ensures Join(lines) == [] <==> lines == []
  {
  }

  /**
   * What Tail shows of a job with an error and an ordinary number of lines: nothing. So it shows
   * what it should exactly when there was nothing to show.
   */
  lemma TailOutputOnError(log: Log, n: int)
    requires log.error.Some? && |log.lines| <= LINES_BEFORE_ERROR
    requires forall i :: 0 <= i < |log.lines| ==> log.lines[i] != []
    ensures Join(LastN(FromBottom(log), n)) == []
    ensures Join(LastN(FromBottom(log), n)) == Join(LastN(log.lines, n)) <==> n <= 0 || log.lines == []
  {
    TailIsComplete(log, n);
    JoinIsEmpty(LastN(log.lines, n));
  }
}
