/** text/parser/parser.go without the machine: what a command line is made of, and what it stands for. */
module Grammar {
  import Parser
  import opened Bytes
  import opened Wrappers

  // ------------------------------------------------------------------ grammar

  /** A space or a tab. */
  predicate Gap(c: byte) {
    c == 0x20 || c == 0x09
  }

  /** A double quote, a single quote or a backtick. */
  predicate Quote(c: byte) {
    c == 0x22 || c == 0x27 || c == 0x60
  }

  const ESCAPE: byte := 0x5C

  predicate Ordinary(c: byte) {
    !Gap(c) && !Quote(c) && c != ESCAPE
  }

  /** What stands before the byte that closes an argument. */
  datatype Mark =
    | Space(c: byte)
    | Escaped(c: byte)
    | Plain(c: byte)
  {
    predicate Valid() {
      match this
      case Space(c) => Gap(c)
      case Escaped(_) => true
      case Plain(c) => Ordinary(c)
    }

    function Written(): Text {
      match this
      case Space(c) => [c]
      case Escaped(c) => [ESCAPE, c]
      case Plain(c) => [c]
    }

    /** Space is not part of an argument; of an escaped byte only the byte is. */
    function Spelled(): Text {
      match this
      case Space(_) => []
      case Escaped(c) => Utf8(c as int)
      case Plain(c) => Utf8(c as int)
    }
  }

  /** The UTF-8 encoding of a code point below 0x800 (RFC 3629, section 3). */
  function Utf8(n: int): (r: Text)
    requires 0 <= n < 0x800
    ensures n < 0x80 ==> |r| == 1 && r[0] as int == n
    ensures n >= 0x80 ==> |r| == 2 && 0xC2 <= r[0] <= 0xDF && 0x80 <= r[1] <= 0xBF
    ensures n >= 0x80 ==> (r[0] as int - 0xC0) * 64 + (r[1] as int - 0x80) == n
  {
    if n < 0x80 then [n as byte] else [(0xC0 + n / 64) as byte, (0x80 + n % 64) as byte]
  }

  /** An ordinary byte has been seen. */
  predicate InWord(marks: seq<Mark>) {
    exists i :: 0 <= i < |marks| && marks[i].Plain?
  }

  /** Space comes before the first ordinary byte; after it, space would end the argument. */
  predicate ValidMarks(marks: seq<Mark>) {
    && (forall i :: 0 <= i < |marks| ==> marks[i].Valid())
    && forall i, j :: 0 <= i < j < |marks| && marks[i].Plain? ==> !marks[j].Space?
  }

  /** What ends an argument: space after an ordinary byte, or a quoted text anywhere. */
  datatype Close =
    | AtSpace(c: byte)
    | AtQuoted(quote: byte, text: Text)
  {
    predicate Valid(marks: seq<Mark>) {
      match this
      case AtSpace(c) => Gap(c) && InWord(marks)
      case AtQuoted(q, text) => Quote(q) && q !in text
    }

    function Written(): Text {
      match this
      case AtSpace(c) => [c]
      case AtQuoted(q, text) => [q] + text + [q]
    }

    function Spelled(): Text {
      match this
      case AtSpace(_) => []
      case AtQuoted(_, text) => SpelledBytes(text)
    }
  }

  datatype Argument = Argument(marks: seq<Mark>, close: Close) {
    predicate Valid() {
      ValidMarks(marks) && close.Valid(marks)
    }
  }

  /** How a line breaks off. */
  datatype End =
    | Finished
    | Dangling
    | Unclosed(quote: byte, text: Text)

  /** Closed arguments, then what no longer got closed. */
  datatype Line = Line(arguments: seq<Argument>, marks: seq<Mark>, end: End) {
    predicate Valid() {
      && (forall i :: 0 <= i < |arguments| ==> arguments[i].Valid())
      && ValidMarks(marks)
      && (end.Unclosed? ==> Quote(end.quote) && end.quote !in end.text)
    }
  }

  function SpelledBytes(text: Text): Text {
    if text == [] then [] else SpelledBytes(text[..|text| - 1]) + Utf8(text[|text| - 1] as int)
  }

  function MarksWritten(marks: seq<Mark>): Text {
    if marks == [] then [] else MarksWritten(marks[..|marks| - 1]) + marks[|marks| - 1].Written()
  }

  function MarksSpelled(marks: seq<Mark>): Text {
    if marks == [] then [] else MarksSpelled(marks[..|marks| - 1]) + marks[|marks| - 1].Spelled()
  }

  function ArgumentsWritten(args: seq<Argument>): Text {
    if args == [] then [] else
      var last := args[|args| - 1];
      ArgumentsWritten(args[..|args| - 1]) + MarksWritten(last.marks) + last.close.Written()
  }

  function EndWritten(end: End): Text {
    match end
    case Finished => []
    case Dangling => [ESCAPE]
    case Unclosed(q, text) => [q] + text
  }

  function Written(line: Line): Text {
    ArgumentsWritten(line.arguments) + MarksWritten(line.marks) + EndWritten(line.end)
  }

  /** One text per closed argument. */
  function Spelled(args: seq<Argument>): (r: seq<Text>)
    ensures |r| == |args|
    ensures forall i :: 0 <= i < |args| ==> r[i] == MarksSpelled(args[i].marks) + args[i].close.Spelled()
  {
    seq(|args|, i requires 0 <= i < |args| => MarksSpelled(args[i].marks) + args[i].close.Spelled())
  }

  /** What a line stands for: its arguments, with a last one if something is left over; an error if a quote is open. */
  function Meaning(line: Line): Result<seq<Text>, Parser.ParseError> {
    if line.end.Unclosed? then Failure(Parser.UnclosedQuoteInCommand)
    else
      var rest := MarksSpelled(line.marks);
      Success(Spelled(line.arguments) + if rest == [] then [] else [rest])
  }

  // --------------------------------------------------- the machine reads lines

  lemma RuneIsUtf8(c: byte)
    ensures Parser.Rune(c) == Utf8(c as int)
  {
  }

  /** The loop stands after these arguments and marks. */
  predicate Stands(s: Parser.Scan, args: seq<Text>, marks: seq<Mark>) {
    && s.args == args && s.current == MarksSpelled(marks) && !s.escapeNext
    && s.mode == if InWord(marks) then Parser.Arg else Parser.Start
  }

  lemma StandsMore(s: Parser.Scan, args: seq<Text>, marks: seq<Mark>, m: Mark)
    requires Stands(s, args, marks) && ValidMarks(marks + [m])
    ensures Stands(Parser.ScanAll(s, m.Written()), args, marks + [m])
  {
    assert (marks + [m])[|marks|] == m && (marks + [m])[..|marks|] == marks;
    assert InWord(marks + [m]) <==> InWord(marks) || m.Plain? by {
      assert forall i :: 0 <= i < |marks| ==> (marks + [m])[i] == marks[i];
    }
    RuneIsUtf8(m.c);
    match m
    case Space(c) =>
      assert !InWord(marks);
      ScanOne(s, c);
      assert MarksSpelled(marks) + [] == MarksSpelled(marks);
    case Escaped(c) => ScanTwo(s, ESCAPE, c);
    case Plain(c) => ScanOne(s, c);
  }

  lemma ScanOne(s: Parser.Scan, c: byte)
    ensures Parser.ScanAll(s, [c]) == Parser.Step(s, c)
  {
    hide Parser.Step;
    assert [] + [c] == [c];
    Parser.ScanSnoc(s, [], c);
  }

  lemma ScanTwo(s: Parser.Scan, c: byte, d: byte)
    ensures Parser.ScanAll(s, [c, d]) == Parser.Step(Parser.Step(s, c), d)
  {
    hide Parser.Step;
    assert [c] + [d] == [c, d];
    Parser.ScanSnoc(s, [c], d);
    ScanOne(s, c);
  }

  lemma {:induction false} ReadMarks(s: Parser.Scan, args: seq<Text>, marks: seq<Mark>)
    requires Stands(s, args, []) && ValidMarks(marks)
    ensures Stands(Parser.ScanAll(s, MarksWritten(marks)), args, marks)
  {
    hide Stands, Parser.Step;
    if marks != [] {
      var front, last := marks[..|marks| - 1], marks[|marks| - 1];
      assert marks == front + [last];
      ReadMarks(s, args, front);
      StandsMore(Parser.ScanAll(s, MarksWritten(front)), args, front, last);
      Parser.ScanAppend(s, MarksWritten(front), last.Written());
    }
  }

  /** Inside quotes, after this much text. */
  predicate Quoting(s: Parser.Scan, args: seq<Text>, marks: seq<Mark>, q: byte, text: Text) {
    s == Parser.Scan(args, Parser.Quotes, MarksSpelled(marks) + SpelledBytes(text), [q], false)
  }

  lemma {:induction false} ReadQuoted(s: Parser.Scan, args: seq<Text>, marks: seq<Mark>, q: byte, text: Text)
    requires Stands(s, args, marks) && Quote(q) && q !in text
    ensures Quoting(Parser.ScanAll(s, [q] + text), args, marks, q, text)
  {
    if text == [] {
      assert [q] + text == [q];
      ScanOne(s, q);
      RuneIsUtf8(q);
    } else {
      var front, c := text[..|text| - 1], text[|text| - 1];
      assert text == front + [c] && [q] + text == [q] + front + [c];
      assert c in text;
      ReadQuoted(s, args, marks, q, front);
      Parser.ScanSnoc(s, [q] + front, c);
      RuneIsUtf8(c);
      assert MarksSpelled(marks) + SpelledBytes(front) + Utf8(c as int) == MarksSpelled(marks) + SpelledBytes(text);
    }
  }

  lemma ReadClose(s: Parser.Scan, args: seq<Text>, a: Argument)
    requires Stands(s, args, a.marks) && a.Valid()
    ensures Stands(Parser.ScanAll(s, a.close.Written()), args + [MarksSpelled(a.marks) + a.close.Spelled()], [])
  {
    match a.close
    case AtSpace(c) =>
      ScanOne(s, c);
      assert MarksSpelled(a.marks) + [] == MarksSpelled(a.marks);
    case AtQuoted(q, text) =>
      ReadQuoted(s, args, a.marks, q, text);
      Parser.ScanSnoc(s, [q] + text, q);
      RuneIsUtf8(q);
  }

  lemma ReadArgument(s: Parser.Scan, args: seq<Text>, a: Argument)
    requires Stands(s, args, []) && a.Valid()
    ensures Stands(Parser.ScanAll(s, MarksWritten(a.marks) + a.close.Written()),
                   args + [MarksSpelled(a.marks) + a.close.Spelled()], [])
  {
    hide Stands, Parser.Step, MarksSpelled, MarksWritten;
    ReadMarks(s, args, a.marks);
    Parser.ScanAppend(s, MarksWritten(a.marks), a.close.Written());
    ReadClose(Parser.ScanAll(s, MarksWritten(a.marks)), args, a);
  }

  lemma SpelledSnoc(args: seq<Argument>, a: Argument)
    ensures Spelled(args + [a]) == Spelled(args) + [MarksSpelled(a.marks) + a.close.Spelled()]
  {
    hide MarksSpelled;
  }

  lemma WrittenSnoc(args: seq<Argument>, a: Argument)
    ensures ArgumentsWritten(args + [a]) == ArgumentsWritten(args) + (MarksWritten(a.marks) + a.close.Written())
  {
    hide MarksWritten;
    assert (args + [a])[..|args|] == args;
  }

  lemma NothingRead()
    ensures Stands(Parser.ScanAll(Parser.INITIAL, ArgumentsWritten([])), Spelled([]), [])
  {
    assert Spelled([]) == [];
  }

  lemma {:induction false} ReadArguments(args: seq<Argument>)
    requires forall i :: 0 <= i < |args| ==> args[i].Valid()
    ensures Stands(Parser.ScanAll(Parser.INITIAL, ArgumentsWritten(args)), Spelled(args), [])
  {
    hide Stands, Parser.Step, MarksSpelled, MarksWritten, ArgumentsWritten, Parser.ScanAll;
    if args == [] {
      NothingRead();
    } else {
      var front, last := args[..|args| - 1], args[|args| - 1];
      assert args == front + [last];
      ReadArguments(front);
      var text := MarksWritten(last.marks) + last.close.Written();
      ReadArgument(Parser.ScanAll(Parser.INITIAL, ArgumentsWritten(front)), Spelled(front), last);
      Parser.ScanAppend(Parser.INITIAL, ArgumentsWritten(front), text);
      WrittenSnoc(front, last);
      SpelledSnoc(front, last);
    }
  }

  lemma ReadEnd(s: Parser.Scan, line: Line)
    requires Stands(s, Spelled(line.arguments), line.marks) && line.Valid()
    ensures Parser.Finish(Parser.ScanAll(s, EndWritten(line.end))) == Meaning(line)
  {
    var rest := MarksSpelled(line.marks);
    assert Spelled(line.arguments) + [] == Spelled(line.arguments);
    match line.end
    case Finished =>
    case Dangling => ScanOne(s, ESCAPE);
    case Unclosed(q, text) => ReadQuoted(s, Spelled(line.arguments), line.marks, q, text);
  }

  lemma ReadLine(line: Line)
    requires line.Valid()
    ensures Parser.Finish(Parser.ScanAll(Parser.INITIAL, Written(line))) == Meaning(line)
  {
    hide Stands, Parser.Step, Parser.Finish, Meaning;
    var head, tail, end := ArgumentsWritten(line.arguments), MarksWritten(line.marks), EndWritten(line.end);
    ReadArguments(line.arguments);
    ReadMarks(Parser.ScanAll(Parser.INITIAL, head), Spelled(line.arguments), line.marks);
    Parser.ScanAppend(Parser.INITIAL, head, tail);
    Parser.ScanAppend(Parser.INITIAL, head + tail, end);
    ReadEnd(Parser.ScanAll(Parser.INITIAL, head + tail), line);
  }

  // -------------------------------------------------------- every text is a line

  /** The line one byte longer. */
  function Extended(line: Line, c: byte): Line {
    match line.end
    case Unclosed(q, text) =>
      if c == q then Line(line.arguments + [Argument(line.marks, AtQuoted(q, text))], [], Finished)
      else line.(end := Unclosed(q, text + [c]))
    case Dangling => line.(marks := line.marks + [Escaped(c)], end := Finished)
    case Finished =>
      if c == ESCAPE then line.(end := Dangling)
      else if Quote(c) then line.(end := Unclosed(c, []))
      else if !Gap(c) then line.(marks := line.marks + [Plain(c)])
      else if InWord(line.marks) then Line(line.arguments + [Argument(line.marks, AtSpace(c))], [], Finished)
      else line.(marks := line.marks + [Space(c)])
  }

  function LineOf(text: Text): Line {
    if text == [] then Line([], [], Finished) else Extended(LineOf(text[..|text| - 1]), text[|text| - 1])
  }

  lemma MarkAdded(line: Line, m: Mark)
    requires line.Valid() && m.Valid() && (m.Space? ==> !InWord(line.marks))
    ensures var u := Line(line.arguments, line.marks + [m], Finished);
      u.Valid() && Written(u) == ArgumentsWritten(line.arguments) + MarksWritten(line.marks) + m.Written()
  {
    var marks := line.marks + [m];
    assert marks[..|line.marks|] == line.marks;
    assert MarksWritten(marks) == MarksWritten(line.marks) + m.Written();
  }

  lemma ArgumentAdded(line: Line, close: Close)
    requires line.Valid() && close.Valid(line.marks)
    ensures var u := Line(line.arguments + [Argument(line.marks, close)], [], Finished);
      u.Valid() && Written(u) == ArgumentsWritten(line.arguments) + MarksWritten(line.marks) + close.Written()
  {
    var args := line.arguments + [Argument(line.marks, close)];
    assert args[..|line.arguments|] == line.arguments;
    assert args[|line.arguments|].Valid();
  }

  lemma ExtendedWritten(line: Line, c: byte)
    requires line.Valid()
    ensures Extended(line, c).Valid() && Written(Extended(line, c)) == Written(line) + [c]
  {
    var before := ArgumentsWritten(line.arguments) + MarksWritten(line.marks);
    match line.end
    case Unclosed(q, text) =>
      if c == q {
        ArgumentAdded(line, AtQuoted(q, text));
        assert before + ([q] + text + [q]) == before + ([q] + text) + [q];
      } else {
        assert before + ([q] + (text + [c])) == before + ([q] + text) + [c];
      }
    case Dangling =>
      MarkAdded(line, Escaped(c));
      assert before + [ESCAPE, c] == before + [ESCAPE] + [c];
    case Finished =>
      assert before + [] == before;
      if c == ESCAPE || Quote(c) {
        assert [c] + [] == [c];
      } else if !Gap(c) {
        MarkAdded(line, Plain(c));
      } else if InWord(line.marks) {
        ArgumentAdded(line, AtSpace(c));
      } else {
        MarkAdded(line, Space(c));
      }
  }

  lemma {:induction false} EveryTextIsALine(text: Text)
    ensures LineOf(text).Valid() && Written(LineOf(text)) == text
  {
    if text != [] {
      var front, c := text[..|text| - 1], text[|text| - 1];
      assert text == front + [c];
      EveryTextIsALine(front);
      hide Extended;
      ExtendedWritten(LineOf(front), c);
    }
  }

  // ------------------------------------------------------------------ the parser

  /** A command means what its trimmed text means, however that text is read as a line; and it can always be so read. */
  lemma ParsedIsMeaning(command: Text)
    ensures exists line: Line :: line.Valid() && Written(line) == TrimSpace(command)
    ensures forall line: Line :: line.Valid() && Written(line) == TrimSpace(command) ==>
      Parser.Parsed(command) == Meaning(line)
  {
    hide TrimSpace, Written, Meaning, Line.Valid;
    EveryTextIsALine(TrimSpace(command));
    forall line: Line | line.Valid() && Written(line) == TrimSpace(command)
      ensures Parser.Parsed(command) == Meaning(line)
    {
      ReadLine(line);
    }
  }
}
