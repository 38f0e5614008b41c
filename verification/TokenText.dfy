/** api/api.go: a token's text and the message that comes with it are joined by a space and parsed as one. */
module TokenText {
  import opened Bytes
  import opened Parser
  import opened Wrappers

  /** The joined parse is the text's arguments followed by the message's, and fails when the message's does. */
  predicate Follows(text: Text, message: Text) {
    Parsed(text + [SPACE] + message) == Both(Parsed(text), Parsed(message))
  }

  predicate AllSeparators(w: Text) {
    forall c :: c in w ==> IsSeparator(c)
  }

  /** What stands between the two once the outer white space is gone. */
  function Gap(text: Text, message: Text): Text {
    Trail(TrimLeft(text)) + [SPACE] + Lead(message)
  }

  // ---------------------------------------------------------- the easy cases

  lemma ParsedCore(command: Text)
    ensures Parsed(TrimSpace(command)) == Parsed(command)
  {
    hide TrimSpace;
    TrimSpaceTrims(command);
    TrimSpaceTrims(TrimSpace(command));
  }

  lemma ParsedBlank(command: Text)
    requires Blank(command)
    ensures Parsed(command) == Success([])
  {
  }

  lemma BothNothing(r: Result<seq<Text>, ParseError>)
    ensures Both(Success([]), r) == r
    ensures r.Success? ==> Both(r, Success([])) == r
  {
    if r.Success? {
      assert [] + r.value == r.value && r.value + [] == r.value;
    }
  }

  lemma ParsedWhere(a: Text, b: Text)
    requires TrimSpace(a) == TrimSpace(b)
    ensures Parsed(a) == Parsed(b)
  {
    hide TrimSpace;
  }

  lemma CleanSucceeds(text: Text)
    requires EndsCleanly(TrimSpace(text))
    ensures Parsed(text).Success?
  {
    hide TrimSpace, ScanAll;
  }

  lemma FollowsBlank(text: Text, message: Text)
    requires EndsCleanly(TrimSpace(text)) && (Blank(text) || Blank(message))
    ensures Follows(text, message)
  {
    TrimJoined(text, message);
    hide TrimSpace, Parsed, Both, EndsCleanly;
    if Blank(text) {
      ParsedBlank(text);
      ParsedWhere(text + [SPACE] + message, message);
      BothNothing(Parsed(message));
    } else {
      ParsedBlank(message);
      ParsedWhere(text + [SPACE] + message, text);
      CleanSucceeds(text);
      BothNothing(Parsed(text));
    }
  }

  // -------------------------------------------------- scanning what is between

  lemma {:induction false} ScanIdle(s: Scan, w: Text)
    requires s.mode == Start && !s.escapeNext && AllSeparators(w)
    ensures ScanAll(s, w) == s
    decreases |w|
  {
    if w != [] {
      assert w[0] in w;
      ScanIdle(s, w[1..]);
    }
  }

  /** Separators, however many, end a clean scan's last argument as one space does. */
  lemma ScanSeparators(s: Scan, w: Text)
    requires s.mode != Quotes && !s.escapeNext && (s.mode == Start ==> s.current == [])
    requires w != [] && AllSeparators(w)
    ensures ScanAll(s, w) == Step(s, SPACE)
  {
    assert w[0] in w;
    assert AllSeparators(w[1..]);
    ScanIdle(Step(s, w[0]), w[1..]);
  }

  /** The bytes of all arguments, finished and in progress. */
  function Total(args: seq<Text>): nat {
    if args == [] then 0 else Total(args[..|args| - 1]) + |args[|args| - 1]|
  }

  function Content(s: Scan): nat {
    Total(s.args) + |s.current|
  }

  lemma TotalSnoc(args: seq<Text>, last: Text)
    ensures Total(args + [last]) == Total(args) + |last|
  {
    assert (args + [last])[..|args|] == args;
  }

  lemma {:induction false} TotalAppend(a: seq<Text>, b: seq<Text>)
    ensures Total(a + b) == Total(a) + Total(b)
    decreases |b|
  {
    if b == [] {
      assert a + b == a;
    } else {
      var front, last := b[..|b| - 1], b[|b| - 1];
      TotalAppend(a, front);
      assert b == front + [last] && a + b == a + front + [last];
      TotalSnoc(a + front, last);
    }
  }

  /** What a byte adds depends on quotes and escapes, not on being at the start or inside an argument. */
  function Adds(s: Scan, c: byte): nat {
    if s.mode == Quotes then if Rune(c) != s.quote then |Rune(c)| else 0
    else if s.escapeNext then |Rune(c)|
    else if c == BACKSLASH || IsQuote(c) || IsSeparator(c) then 0
    else |Rune(c)|
  }

  lemma StepAdds(s: Scan, c: byte)
    ensures Content(Step(s, c)) == Content(s) + Adds(s, c)
  {
    TotalSnoc(s.args, s.current);
    hide Total, Rune;
  }

  /** s and t stand alike towards quotes and escapes. */
  predicate Alike(s: Scan, t: Scan) {
    && (s.mode == Quotes <==> t.mode == Quotes) && s.escapeNext == t.escapeNext
    && (s.mode == Quotes ==> s.quote == t.quote)
  }

  lemma StepAlike(s: Scan, t: Scan, c: byte)
    requires Alike(s, t)
    ensures Alike(Step(s, c), Step(t, c)) && Adds(s, c) == Adds(t, c)
  {
    hide Rune;
  }

  lemma {:induction false} ScanAlike(s: Scan, t: Scan, w: Text)
    requires Alike(s, t)
    ensures Alike(ScanAll(s, w), ScanAll(t, w))
    ensures Content(ScanAll(t, w)) - Content(t) == Content(ScanAll(s, w)) - Content(s)
    decreases |w|
  {
    hide Content, Alike, Adds, Step;
    if w != [] {
      StepAlike(s, t, w[0]);
      StepAdds(s, w[0]);
      StepAdds(t, w[0]);
      ScanAlike(Step(s, w[0]), Step(t, w[0]), w[1..]);
    }
  }

  /** Neither a quote nor a backslash. */
  predicate Plain(w: Text) {
    forall c :: c in w ==> !IsQuote(c) && c != BACKSLASH
  }

  /** White space that is no separator is kept: it begins or goes on with an argument. */
  lemma {:induction false} ScanPlain(s: Scan, w: Text)
    requires s.mode != Quotes && !s.escapeNext && Plain(w)
    ensures var u := ScanAll(s, w);
      && u.mode != Quotes && !u.escapeNext
      && if AllSeparators(w) then Content(u) == Content(s) else Content(u) > Content(s)
    decreases |w|
  {
    if w != [] {
      assert w[0] in w && Plain(w[1..]);
      StepAdds(s, w[0]);
      hide Content;
      assert AllSeparators(w) <==> IsSeparator(w[0]) && AllSeparators(w[1..]) by {
        assert w == [w[0]] + w[1..];
      }
      ScanPlain(Step(s, w[0]), w[1..]);
    }
  }

  lemma {:induction false} LeadPlain(s: Text)
    ensures Plain(Lead(s))
    decreases |s|
  {
    var n := LeadingSpace(s);
    if n > 0 {
      LeadPlain(s[n..]);
      assert Plain(s[..n]);
    }
  }

  lemma {:induction false} TrailPlain(s: Text)
    ensures Plain(Trail(s))
    decreases |s|
  {
    var n := TrailingSpace(s);
    if n > 0 {
      TrailPlain(s[..|s| - n]);
      assert Plain(s[|s| - n..]);
    }
  }

  lemma FinishContent(s: Scan)
    ensures Finish(s).Failure? <==> s.mode == Quotes
    ensures Finish(s).Success? ==> Total(Finish(s).value) == Content(s)
  {
    TotalSnoc(s.args, s.current);
  }

  // ------------------------------------------------------------------ the law

  /** Neither is blank: parse the text's core, what is between, then the message's core. */
  lemma JoinedScan(text: Text, message: Text)
    requires !Blank(text) && !Blank(message)
    ensures Parsed(text + [SPACE] + message) ==
      Finish(ScanAll(ScanAll(ScanAll(INITIAL, TrimSpace(text)), Gap(text, message)), TrimSpace(message)))
  {
    TrimJoined(text, message);
    var core, mid, end := TrimSpace(text), Gap(text, message), TrimSpace(message);
    ScanAppend(INITIAL, core + mid, end);
    ScanAppend(INITIAL, core, mid);
  }

  lemma FollowsSeparators(text: Text, message: Text)
    requires EndsCleanly(TrimSpace(text)) && !Blank(text) && !Blank(message)
    requires AllSeparators(Gap(text, message))
    ensures Follows(text, message)
  {
    var core, end := TrimSpace(text), TrimSpace(message);
    assert core != [] && end != [];
    hide TrimSpace, Trail, Lead, Blank;
    JoinedScan(text, message);
    ScanSeparators(ScanAll(INITIAL, core), Gap(text, message));
    TrimSpaceTrims(text);
    TrimSpaceTrims(message);
    JoinedCores(core, end);
    CleanConcatenation(core, end);
    ParsedCore(text);
    ParsedCore(message);
  }

  lemma GapPlain(text: Text, message: Text)
    ensures Plain(Gap(text, message))
  {
    hide Trail, Lead;
    TrailPlain(TrimLeft(text));
    LeadPlain(message);
  }

  /** In total, the joined arguments hold what the separate ones do and what is between besides. */
  lemma JoinedContent(text: Text, message: Text)
    requires EndsCleanly(TrimSpace(text)) && !Blank(text) && !Blank(message)
    ensures Parsed(text + [SPACE] + message).Failure? <==> Parsed(message).Failure?
    ensures Parsed(message).Success? ==>
      && Parsed(text).Success?
      && (AllSeparators(Gap(text, message)) || Total(Parsed(text + [SPACE] + message).value)
                                                 > Total(Parsed(text).value) + Total(Parsed(message).value))
  {
    hide TrimSpace, Gap, Blank, AllSeparators, Plain, Total, Content;
    var first := ScanAll(INITIAL, TrimSpace(text));
    JoinedScan(text, message);
    GapPlain(text, message);
    ScanPlain(first, Gap(text, message));
    var middle := ScanAll(first, Gap(text, message));
    ScanAlike(INITIAL, middle, TrimSpace(message));
    FinishContent(first);
    FinishContent(ScanAll(INITIAL, TrimSpace(message)));
    FinishContent(ScanAll(middle, TrimSpace(message)));
    InitialContent();
  }

  lemma InitialContent()
    ensures Content(INITIAL) == 0
  {
  }

  /**
   * The law for every text that ends cleanly and every message, white space and all: it fails exactly when the
   * message parses and some byte trimmed off between the two, had they been parsed apart, is no separator.
   */
  lemma FollowsExactly(text: Text, message: Text)
    requires EndsCleanly(TrimSpace(text))
    ensures Follows(text, message) <==>
      Blank(text) || Blank(message) || Parsed(message).Failure? || AllSeparators(Gap(text, message))
  {
    if Blank(text) || Blank(message) {
      FollowsBlank(text, message);
    } else if AllSeparators(Gap(text, message)) {
      FollowsSeparators(text, message);
    } else {
      hide TrimSpace, Gap, Blank, AllSeparators, EndsCleanly, Total;
      CleanSucceeds(text);
      JoinedContent(text, message);
      hide Parsed;
      if Parsed(message).Success? {
        TotalAppend(Parsed(text).value, Parsed(message).value);
      } else {
        assert Parsed(text + [SPACE] + message) == Failure(UnclosedQuoteInCommand) == Parsed(message);
      }
    }
  }

  lemma TrimmedParts(text: Text)
    requires Trimmed(text)
    ensures Lead(text) == [] && Trail(TrimLeft(text)) == [] && TrimSpace(text) == text
  {
    TrimSpaceTrims(text);
  }

  /**
   * A stored text without outer white space keeps the law for every message that starts with separators at most,
   * exactly when it ends cleanly: no open quote, no dangling backslash, no escaped word still pending.
   */
  lemma TextKeepsLaw(text: Text)
    requires Trimmed(text)
    ensures EndsCleanly(text) <==> forall message | AllSeparators(Lead(message)) :: Follows(text, message)
  {
    TrimmedParts(text);
    if EndsCleanly(text) {
      hide TrimSpace, Blank, EndsCleanly, Parsed, Lead, Trail, TrimLeft, Follows;
      forall message | AllSeparators(Lead(message)) ensures Follows(text, message) {
        FollowsExactly(text, message);
        assert AllSeparators(Gap(text, message));
      }
    } else {
      UncleanConcatenation(text);
      TrimmedParts(Spoiler(text));
      assert !Follows(text, Spoiler(text)) && AllSeparators(Lead(Spoiler(text)));
    }
  }

  lemma ScanFour(a: byte, b: byte, c: byte, d: byte)
    ensures ScanAll(INITIAL, [a, b, c, d]) == Step(Step(Step(Step(INITIAL, a), b), c), d)
  {
    hide Step;
    assert [a] == [] + [a] && [a, b] == [a] + [b] && [a, b, c] == [a, b] + [c] && [a, b, c, d] == [a, b, c] + [d];
    ScanSnoc(INITIAL, [], a);
    ScanSnoc(INITIAL, [a], b);
    ScanSnoc(INITIAL, [a, b], c);
    ScanSnoc(INITIAL, [a, b, c], d);
  }

  const A: byte := 0x61
  const B: byte := 0x62
  const NEWLINE: byte := 0x0A

  lemma JoinedKeepsNewline()
    ensures Parsed([A, SPACE, NEWLINE, B]) == Success([[A], [NEWLINE, B]])
  {
    var joined := [A, SPACE, NEWLINE, B];
    TrimSpaceTrims(joined);
    hide TrimSpace;
    ScanFour(A, SPACE, NEWLINE, B);
    var none: Text, args: seq<Text> := [], [];
    assert none + [A] == [A] && none + [NEWLINE] == [NEWLINE] && [NEWLINE] + [B] == [NEWLINE, B];
    assert args + [[A]] == [[A]] && [[A]] + [[NEWLINE, B]] == [[A], [NEWLINE, B]];
    var s := Step(INITIAL, A);
    assert s == Scan([], Arg, [A], [DOUBLE_QUOTE], false);
    var t := Step(s, SPACE);
    assert t == Scan([[A]], Start, [], [DOUBLE_QUOTE], false);
    assert Step(Step(t, NEWLINE), B) == Scan([[A]], Arg, [NEWLINE, B], [DOUBLE_QUOTE], false);
  }

  lemma MessageLosesNewline()
    ensures Parsed([NEWLINE, B]) == Success([[B]])
  {
    var message: Text := [NEWLINE, B];
    TrimSpaceTrims([B]);
    assert LeadingSpace(message) == 1 && message[1..] == [B];
    assert TrimSpace(message) == TrimSpace([B]) by {
      assert TrimLeft(message) == TrimLeft([B]);
    }
    hide TrimSpace;
    ParsedWhere(message, [B]);
    ParsedByte(B);
  }

  lemma EndsCleanlyA()
    ensures EndsCleanly(TrimSpace([A]))
  {
    TrimSpaceTrims([A]);
    assert TrimSpace([A]) == [A];
    hide TrimSpace;
    assert [A][1..] == [];
    assert ScanAll(INITIAL, [A]) == ScanAll(Step(INITIAL, A), []) == Step(INITIAL, A);
  }

  /** A message as the API may receive it: the newline in front of it becomes part of the argument. */
  lemma NewlineIsKept()
    ensures EndsCleanly(TrimSpace([A])) && !Follows([A], [NEWLINE, B])
    ensures Parsed([A, SPACE, NEWLINE, B]) == Success([[A], [NEWLINE, B]])
    ensures Both(Parsed([A]), Parsed([NEWLINE, B])) == Success([[A], [B]])
  {
    EndsCleanlyA();
    hide TrimSpace, Step, ScanAll, EndsCleanly;
    ParsedByte(A);
    MessageLosesNewline();
    JoinedKeepsNewline();
    assert [A] + [SPACE] + [NEWLINE, B] == [A, SPACE, NEWLINE, B];
    hide Parsed;
    assert [[A]] + [[B]] == [[A], [B]];
    assert [[A], [B]][1] != [[A], [NEWLINE, B]][1];
  }
}
