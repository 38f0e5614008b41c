/** text/parser/parser.go: splitting a command line into arguments. */
module Parser {
  import opened Bytes
  import opened Wrappers

  const BACKSLASH: byte := 0x5C
  const DOUBLE_QUOTE: byte := 0x22
  const SINGLE_QUOTE: byte := 0x27
  const BACKTICK: byte := 0x60

  datatype ParseError = UnclosedQuoteInCommand

  datatype Mode = Start | Quotes | Arg

  /** The local variables of the loop. */
  datatype Scan = Scan(args: seq<Text>, mode: Mode, current: Text, quote: Text, escapeNext: bool)

  const INITIAL := Scan([], Start, [], [DOUBLE_QUOTE], false)

  /** Go's string(c) of a byte: the UTF-8 encoding of the code point c. */
  function Rune(c: byte): (r: Text)
    ensures |r| == 1 <==> c < 0x80
    ensures 1 <= |r| <= 2
    ensures |r| == 1 ==> r == [c]
  {
    if c < 0x80 then [c] else [0xC0 + c / 64, 0x80 + c % 64]
  }

  predicate IsQuote(c: byte) {
    c == DOUBLE_QUOTE || c == SINGLE_QUOTE || c == BACKTICK
  }

  predicate IsSeparator(c: byte) {
    c == SPACE || c == TAB
  }

  function Step(s: Scan, c: byte): Scan {
    if s.mode == Quotes then
      if Rune(c) != s.quote then s.(current := s.current + Rune(c))
      else s.(args := s.args + [s.current], current := [], mode := Start)
    else if s.escapeNext then s.(current := s.current + Rune(c), escapeNext := false)
    else if c == BACKSLASH then s.(escapeNext := true)
    else if IsQuote(c) then s.(mode := Quotes, quote := Rune(c))
    else if s.mode == Arg then
      if IsSeparator(c) then s.(args := s.args + [s.current], current := [], mode := Start)
      else s.(current := s.current + Rune(c))
    else if !IsSeparator(c) then s.(mode := Arg, current := s.current + Rune(c))
    else s
  }

  function ScanAll(s: Scan, input: Text): Scan
    decreases |input|
  {
    if input == [] then s else ScanAll(Step(s, input[0]), input[1..])
  }

  function Finish(s: Scan): Result<seq<Text>, ParseError> {
    if s.mode == Quotes then Failure(UnclosedQuoteInCommand)
    else Success(if s.current != [] then s.args + [s.current] else s.args)
  }

  function Parsed(command: Text): Result<seq<Text>, ParseError> {
    Finish(ScanAll(INITIAL, TrimSpace(command)))
  }

  method Parse(command: Text) returns (r: Result<seq<Text>, ParseError>)
    ensures r == Parsed(command)
  {
    var args: seq<Text> := [];
    var state := Start;
    var current: Text := [];
    var quote := [DOUBLE_QUOTE];
    var escapeNext := false;

    var trimmed := TrimSpace(command);

    var i := 0;
    while i < |trimmed|
      invariant 0 <= i <= |trimmed|
      invariant ScanAll(Scan(args, state, current, quote, escapeNext), trimmed[i..])
             == ScanAll(INITIAL, trimmed)
    {
      var c := trimmed[i];
      assert trimmed[i..][1..] == trimmed[i + 1..];
      i := i + 1;

      if state == Quotes {
        if Rune(c) != quote {
          current := current + Rune(c);
        } else {
          args := args + [current];
          current := [];
          state := Start;
        }
        continue;
      }
      if escapeNext {
        current := current + Rune(c);
        escapeNext := false;
        continue;
      }
      if c == BACKSLASH {
        escapeNext := true;
        continue;
      }
      if c == DOUBLE_QUOTE || c == SINGLE_QUOTE || c == BACKTICK {
        state := Quotes;
        quote := Rune(c);
        continue;
      }
      if state == Arg {
        if c == SPACE || c == TAB {
          args := args + [current];
          current := [];
          state := Start;
        } else {
          current := current + Rune(c);
        }
        continue;
      }
      if c != SPACE && c != TAB {
        state := Arg;
        current := current + Rune(c);
      }
    }

    if state == Quotes {
      return Failure(UnclosedQuoteInCommand);
    }
    if current != [] {
      args := args + [current];
    }
    return Success(args);
  }

  // ------------------------------------------------------- scanning in parts

  lemma {:induction false} ScanAppend(s: Scan, a: Text, b: Text)
    ensures ScanAll(s, a + b) == ScanAll(ScanAll(s, a), b)
    decreases |a|
  {
    if a == [] {
      assert a + b == b;
    } else {
      assert (a + b)[1..] == a[1..] + b;
      ScanAppend(Step(s, a[0]), a[1..], b);
    }
  }

  lemma ScanSnoc(s: Scan, a: Text, c: byte)
    ensures ScanAll(s, a + [c]) == Step(ScanAll(s, a), c)
  {
    ScanAppend(s, a, [c]);
    var t := ScanAll(s, a);
    assert [c][1..] == [];
    assert ScanAll(t, [c]) == ScanAll(Step(t, c), []);
  }

  /** What the loop keeps: an argument in progress is never empty, and the open quote is a quote. */
  predicate Sound(s: Scan) {
    && (s.mode == Arg ==> s.current != [])
    && (s.mode == Quotes ==> !s.escapeNext && s.quote in {[DOUBLE_QUOTE], [SINGLE_QUOTE], [BACKTICK]})
  }

  lemma {:induction false} ScanSound(s: Scan, input: Text)
    requires Sound(s)
    ensures Sound(ScanAll(s, input))
    decreases |input|
  {
    if input != [] {
      ScanSound(Step(s, input[0]), input[1..]);
    }
  }

  // --------------------------------------------------------- printing, round trip

  /** How the parser spells a byte string: each byte as the rune of its value. */
  function Recode(a: Text): Text {
    if a == [] then [] else Recode(a[..|a| - 1]) + Rune(a[|a| - 1])
  }

  function RecodeAll(args: seq<Text>): (r: seq<Text>)
    ensures |r| == |args|
    ensures forall i :: 0 <= i < |args| ==> r[i] == Recode(args[i])
  {
    if args == [] then [] else RecodeAll(args[..|args| - 1]) + [Recode(args[|args| - 1])]
  }

  predicate Ascii(a: Text) {
    forall i :: 0 <= i < |a| ==> a[i] < 0x80
  }

  predicate AllAscii(args: seq<Text>) {
    forall i :: 0 <= i < |args| ==> Ascii(args[i])
  }

  lemma {:induction false} RecodeAscii(a: Text)
    ensures |Recode(a)| >= |a|
    ensures Recode(a) == a <==> Ascii(a)
    ensures Ascii(a) <==> |Recode(a)| == |a|
  {
    if a != [] {
      var front, c := a[..|a| - 1], a[|a| - 1];
      assert a == front + [c];
      RecodeAscii(front);
      if Recode(a) == a {
        assert |Recode(front)| + |Rune(c)| == |front| + 1;
        assert Ascii(front) && c < 0x80;
      }
      if Ascii(a) {
        assert Ascii(front);
      }
    }
  }

  lemma RecodeAllAscii(args: seq<Text>)
    ensures RecodeAll(args) == args <==> AllAscii(args)
  {
    forall i | 0 <= i < |args| ensures Recode(args[i]) == args[i] <==> Ascii(args[i]) {
      RecodeAscii(args[i]);
    }
    if RecodeAll(args) == args {
      assert forall i :: 0 <= i < |args| ==> RecodeAll(args)[i] == args[i];
    }
  }

  /** How a word may be written: a backslash before every byte, bare, or between quotes. */
  datatype Word =
    | Escaped(text: Text)
    | Bare(text: Text)
    | Quoted(text: Text, quote: byte)
  {
    /** Escaped suits every text; bare words and quoted words must not contain what ends them. */
    predicate Valid() {
      match this
      case Escaped(_) => true
      case Bare(t) => t != [] && forall c :: c in t ==> !IsSeparator(c) && !IsQuote(c) && c != BACKSLASH
      case Quoted(t, q) => IsQuote(q) && q !in t
    }

    /** The written form. An escaped word is closed by an empty pair of quotes. */
    function Written(): Text {
      match this
      case Escaped(t) => EscapeBytes(t) + [DOUBLE_QUOTE, DOUBLE_QUOTE]
      case Bare(t) => t
      case Quoted(t, q) => [q] + t + [q]
    }
  }

  function EscapeBytes(a: Text): Text {
    if a == [] then [] else EscapeBytes(a[..|a| - 1]) + [BACKSLASH, a[|a| - 1]]
  }

  /** The words in order, one space between neighbours. */
  function Print(words: seq<Word>): Text {
    if words == [] then []
    else if |words| == 1 then words[0].Written()
    else Print(words[..|words| - 1]) + [SPACE] + words[|words| - 1].Written()
  }

  function Texts(words: seq<Word>): (ts: seq<Text>)
    ensures |ts| == |words|
    ensures forall i :: 0 <= i < |words| ==> ts[i] == words[i].text
  {
    seq(|words|, i requires 0 <= i < |words| => words[i].text)
  }

  predicate AllValid(words: seq<Word>) {
    forall i :: 0 <= i < |words| ==> words[i].Valid()
  }

  /** Between words: nothing pending. */
  predicate Between(s: Scan) {
    s.mode == Start && s.current == [] && !s.escapeNext
  }

  /** s has read exactly the arguments args, the last of which may still be in progress. */
  predicate HasRead(s: Scan, args: seq<Text>) {
    || (Between(s) && s.args == args)
    || (s.mode == Arg && !s.escapeNext && s.current != [] && args == s.args + [s.current])
  }

  lemma {:induction false} ScanEscaped(s: Scan, a: Text)
    requires s.mode == Start && !s.escapeNext
    ensures ScanAll(s, EscapeBytes(a)) == s.(current := s.current + Recode(a))
  {
    if a != [] {
      var front, c := a[..|a| - 1], a[|a| - 1];
      ScanEscaped(s, front);
      var e := EscapeBytes(front);
      assert EscapeBytes(a) == (e + [BACKSLASH]) + [c];
      ScanSnoc(s, e, BACKSLASH);
      ScanSnoc(s, e + [BACKSLASH], c);
      assert s.current + Recode(front) + Rune(c) == s.current + Recode(a);
    } else {
      assert s.current + Recode(a) == s.current;
    }
  }

  lemma {:induction false} ScanQuoted(s: Scan, a: Text, q: byte)
    requires s.mode == Quotes && s.quote == [q] && IsQuote(q) && q !in a
    ensures ScanAll(s, a) == s.(current := s.current + Recode(a))
  {
    if a != [] {
      var front, c := a[..|a| - 1], a[|a| - 1];
      assert a == front + [c];
      ScanQuoted(s, front, q);
      ScanSnoc(s, front, c);
      assert s.current + Recode(front) + Rune(c) == s.current + Recode(a);
    } else {
      assert s.current + Recode(a) == s.current;
    }
  }

  lemma {:induction false} ScanBare(s: Scan, a: Text)
    requires Between(s) && Bare(a).Valid()
    ensures ScanAll(s, a) == s.(mode := Arg, current := Recode(a))
  {
    var front, c := a[..|a| - 1], a[|a| - 1];
    assert a == front + [c];
    assert c in a;
    ScanSnoc(s, front, c);
    if front == [] {
      assert ScanAll(s, front) == s;
      assert Recode(a) == [] + Rune(c) == s.current + Rune(c);
    } else {
      assert forall b :: b in front ==> b in a;
      ScanBare(s, front);
      assert Recode(a) == Recode(front) + Rune(c);
    }
  }

  lemma ScanWord(s: Scan, w: Word)
    requires Between(s) && w.Valid()
    ensures HasRead(ScanAll(s, w.Written()), s.args + [Recode(w.text)])
  {
    match w {
      case Escaped(t) =>
        var e := EscapeBytes(t);
        ScanEscaped(s, t);
        assert w.Written() == (e + [DOUBLE_QUOTE]) + [DOUBLE_QUOTE];
        ScanSnoc(s, e, DOUBLE_QUOTE);
        ScanSnoc(s, e + [DOUBLE_QUOTE], DOUBLE_QUOTE);
        assert [] + Recode(t) == Recode(t);
      case Bare(t) =>
        ScanBare(s, t);
        RecodeAscii(t);
      case Quoted(t, q) =>
        var begun := Step(s, q);
        assert w.Written() == [q] + (t + [q]);
        ScanAppend(s, [q], t + [q]);
        ScanSnoc(s, [], q);
        assert [] + [q] == [q];
        ScanQuoted(begun, t, q);
        ScanSnoc(begun, t, q);
        assert [] + Recode(t) == Recode(t);
    }
  }

  lemma {:induction false} ScanPrinted(words: seq<Word>)
    requires AllValid(words)
    ensures HasRead(ScanAll(INITIAL, Print(words)), RecodeAll(Texts(words)))
  {
    if words != [] {
      var n := |words| - 1;
      var front, w := words[..n], words[n];
      ScanPrinted(front);
      var before := ScanAll(INITIAL, Print(front));
      assert Texts(words)[..n] == Texts(front);
      assert RecodeAll(Texts(words)) == RecodeAll(Texts(front)) + [Recode(w.text)];
      if n == 0 {
        ScanWord(INITIAL, w);
      } else {
        assert Print(words) == (Print(front) + [SPACE]) + w.Written();
        ScanAppend(INITIAL, Print(front) + [SPACE], w.Written());
        ScanSnoc(INITIAL, Print(front), SPACE);
        ScanWord(Step(before, SPACE), w);
      }
    }
  }

  /** Every list of words, each written in any form that suits it, parses back to the texts written. */
  lemma {:induction false} RoundTrip(words: seq<Word>)
    requires AllValid(words) && Trimmed(Print(words))
    ensures Parsed(Print(words)) == Success(RecodeAll(Texts(words)))
    ensures Parsed(Print(words)) == Success(Texts(words)) <==> AllAscii(Texts(words))
  {
    TrimSpaceTrims(Print(words));
    ScanPrinted(words);
    RecodeAllAscii(Texts(words));
  }

  function EscapedWords(args: seq<Text>): (words: seq<Word>)
    ensures |words| == |args|
    ensures forall i :: 0 <= i < |args| ==> words[i] == Escaped(args[i])
  {
    seq(|args|, i requires 0 <= i < |args| => Escaped(args[i]))
  }

  lemma {:induction false} EscapedPrintTrimmed(args: seq<Text>)
    ensures var p := Print(EscapedWords(args));
      args != [] ==> p != [] && (p[0] == BACKSLASH || p[0] == DOUBLE_QUOTE) && p[|p| - 1] == DOUBLE_QUOTE
  {
    if args != [] {
      var n := |args| - 1;
      var ws := EscapedWords(args);
      assert ws[..n] == EscapedWords(args[..n]);
      EscapedPrintTrimmed(args[..n]);
      EscapeHead(args[n]);
    }
  }

  lemma {:induction false} EscapeHead(a: Text)
    ensures a != [] ==> EscapeBytes(a) != [] && EscapeBytes(a)[0] == BACKSLASH
  {
    if |a| > 1 {
      EscapeHead(a[..|a| - 1]);
    }
  }

  /**
   * Escaping every byte is a total printer: whatever the arguments hold, they
   * come back, each byte as its rune; so exactly the ASCII ones come back as they were.
   */
  lemma {:induction false} EscapedRoundTrip(args: seq<Text>)
    ensures Parsed(Print(EscapedWords(args))) == Success(RecodeAll(args))
    ensures Parsed(Print(EscapedWords(args))) == Success(args) <==> AllAscii(args)
  {
    EscapedPrintTrimmed(args);
    assert Texts(EscapedWords(args)) == args;
    RoundTrip(EscapedWords(args));
  }

  // ------------------------------------------------------------ concatenation

  /** Both parses succeed and the arguments follow one another, or the first failure. */
  function Both(a: Result<seq<Text>, ParseError>, b: Result<seq<Text>, ParseError>): Result<seq<Text>, ParseError> {
    match a
    case Failure(e) => Failure(e)
    case Success(xs) =>
      match b
      case Failure(e) => Failure(e)
      case Success(ys) => Success(xs + ys)
  }

  /** The text ends where a separator would end its last argument and start afresh. */
  predicate EndsCleanly(text: Text) {
    var s := ScanAll(INITIAL, text);
    s.mode != Quotes && !s.escapeNext && (s.mode == Start ==> s.current == [])
  }

  /** s and t differ only in arguments already read and, outside quotes, in the last quote seen. */
  predicate Later(prefix: seq<Text>, s: Scan, t: Scan) {
    && t.args == prefix + s.args
    && t.mode == s.mode && t.current == s.current && t.escapeNext == s.escapeNext
    && (s.mode == Quotes ==> t.quote == s.quote)
  }

  lemma {:induction false} ScanLater(prefix: seq<Text>, s: Scan, t: Scan, input: Text)
    requires Later(prefix, s, t)
    ensures Later(prefix, ScanAll(s, input), ScanAll(t, input))
    decreases |input|
  {
    if input != [] {
      assert prefix + (s.args + [s.current]) == (prefix + s.args) + [s.current];
      ScanLater(prefix, Step(s, input[0]), Step(t, input[0]), input[1..]);
    }
  }

  lemma JoinedCores(core: Text, end: Text)
    requires Trimmed(core) && Trimmed(end) && core != [] && end != []
    ensures Parsed(core + [SPACE] + end) == Finish(ScanAll(Step(ScanAll(INITIAL, core), SPACE), end))
  {
    hide TrimSpace, Trimmed;
    JoinedTrimmed(core, end);
    TrimSpaceTrims(core + [SPACE] + end);
    ScanAppend(INITIAL, core + [SPACE], end);
    ScanSnoc(INITIAL, core, SPACE);
  }

  /** After a clean text and a space, a message scans as it would alone, behind the text's arguments. */
  lemma CleanScan(text: Text, message: Text)
    requires EndsCleanly(text)
    ensures Finish(ScanAll(INITIAL, text)).Success?
    ensures Finish(ScanAll(Step(ScanAll(INITIAL, text), SPACE), message))
         == Both(Finish(ScanAll(INITIAL, text)), Finish(ScanAll(INITIAL, message)))
  {
    ScanSound(INITIAL, text);
    hide ScanAll;
    var middle := Step(ScanAll(INITIAL, text), SPACE);
    assert Finish(ScanAll(INITIAL, text)) == Success(middle.args);
    assert middle.args + [] == middle.args;
    ScanLater(middle.args, INITIAL, middle, message);
    var last := ScanAll(INITIAL, message);
    assert middle.args + (last.args + [last.current]) == (middle.args + last.args) + [last.current];
  }

  lemma ParsedTrimmed(command: Text)
    requires Trimmed(command)
    ensures Parsed(command) == Finish(ScanAll(INITIAL, command))
  {
    TrimSpaceTrims(command);
  }

  /** Without outer white space, and with a text that ends cleanly, the joined parse is the two parses in order. */
  lemma CleanConcatenation(text: Text, message: Text)
    requires Trimmed(text) && Trimmed(message) && text != [] && message != [] && EndsCleanly(text)
    ensures Parsed(text + [SPACE] + message) == Both(Parsed(text), Parsed(message))
  {
    ParsedTrimmed(text);
    ParsedTrimmed(message);
    JoinedCores(text, message);
    CleanScan(text, message);
  }

  /** A message for which the law fails, given a text that does not end cleanly. */
  function Spoiler(text: Text): Text {
    var s := ScanAll(INITIAL, text);
    if s.mode == Quotes then s.quote else [0x62]
  }

  lemma ParsedWithByte(text: Text, c: byte)
    requires Trimmed(text) && text != [] && Trimmed([c])
    ensures var s := ScanAll(INITIAL, text);
      Parsed(text) == Finish(s) && Parsed(text + [SPACE] + [c]) == Finish(Step(Step(s, SPACE), c))
  {
    TrimSpaceTrims(text);
    JoinedTrimmed(text, [c]);
    TrimSpaceTrims(text + [SPACE] + [c]);
    ScanSnoc(INITIAL, text, SPACE);
    ScanSnoc(INITIAL, text + [SPACE], c);
  }

  lemma ParsedByte(c: byte)
    requires 0x61 <= c <= 0x7A
    ensures Parsed([c]) == Success([[c]])
  {
    TrimSpaceTrims([c]);
    assert ScanAll(INITIAL, [c]) == Step(INITIAL, c) by {
      assert [c][1..] == [];
    }
    assert [] + Rune(c) == [c];
    assert Step(INITIAL, c) == Scan([], Arg, [c], [DOUBLE_QUOTE], false);
    assert [] + [[c]] == [[c]];
  }

  lemma UncleanConcatenation(text: Text)
    requires Trimmed(text) && !EndsCleanly(text)
    ensures Trimmed(Spoiler(text))
    ensures Parsed(text + [SPACE] + Spoiler(text)) != Both(Parsed(text), Parsed(Spoiler(text)))
  {
    var s := ScanAll(INITIAL, text);
    ScanSound(INITIAL, text);
    var c := Spoiler(text)[0];
    assert Spoiler(text) == [c];
    ParsedWithByte(text, c);
    if s.mode != Quotes {
      ParsedByte(c);
      var pending := if s.escapeNext then s.current + [SPACE] + [c] else s.current + [c];
      assert Finish(Step(Step(s, SPACE), c)) == Success(s.args + [pending]);
      if s.current != [] {
        assert |s.args + [s.current] + [[c]]| == |s.args| + 2;
      } else {
        assert (s.args + [pending])[|s.args|] == pending && (s.args + [[c]])[|s.args|] == [c];
      }
    }
  }
}
