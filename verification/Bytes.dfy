/** Go strings as sequences of bytes: their order, and strings.TrimSpace. */
module Bytes {

  newtype byte = x: int | 0 <= x < 256

  /** A Go string or byte slice. */
  type Text = seq<byte>

  const SPACE: byte := 0x20
  const TAB: byte := 0x09

  // ---------------------------------------------------------------- order

  /** The order of bytes.Compare, which is the order of Bolt keys. */
  predicate Less(a: Text, b: Text) {
    b != [] && (a == [] || a[0] < b[0] || (a[0] == b[0] && Less(a[1..], b[1..])))
  }

  lemma {:induction false} LessIrreflexive(a: Text)
    ensures !Less(a, a)
  {
    if a != [] {
      LessIrreflexive(a[1..]);
    }
  }

  lemma {:induction false} LessTransitive(a: Text, b: Text, c: Text)
    requires Less(a, b) && Less(b, c)
    ensures Less(a, c)
  {
    if a != [] && a[0] == b[0] == c[0] {
      LessTransitive(a[1..], b[1..], c[1..]);
    }
  }

  lemma {:induction false} LessTotal(a: Text, b: Text)
    ensures a == b || Less(a, b) || Less(b, a)
  {
    if a != [] && b != [] && a[0] == b[0] {
      LessTotal(a[1..], b[1..]);
      assert a == [a[0]] + a[1..] && b == [b[0]] + b[1..];
    }
  }

  /** Between texts of one length, the last byte decides only when everything before it is equal. */
  lemma {:induction false} LessSnoc(a: Text, x: byte, b: Text, y: byte)
    requires |a| == |b|
    ensures Less(a + [x], b + [y]) <==> Less(a, b) || (a == b && x < y)
  {
    if a == [] {
      assert a + [x] == [x] && b + [y] == [y];
    } else {
      LessSnoc(a[1..], x, b[1..], y);
      assert (a + [x])[1..] == a[1..] + [x] && (b + [y])[1..] == b[1..] + [y];
      assert a == [a[0]] + a[1..] && b == [b[0]] + b[1..];
    }
  }

  /** A text that continues p compares to a text as long as p the way p does. */
  lemma {:induction false} LessExtended(p: Text, t: Text, e: Text)
    requires |p| == |e|
    ensures Less(p + t, e) <==> Less(p, e)
    ensures p != e ==> (Less(e, p + t) <==> Less(e, p))
    ensures p == e && t != [] ==> Less(e, p + t)
  {
    if p == [] {
      assert p + t == t;
    } else {
      LessExtended(p[1..], t, e[1..]);
      assert (p + t)[1..] == p[1..] + t;
      assert p == [p[0]] + p[1..] && e == [e[0]] + e[1..];
    }
  }

  // ------------------------------------------------------------ TrimSpace

  /** The byte, or the two or three bytes, are the UTF-8 form of a rune for which unicode.IsSpace holds. */
  predicate Space1(x: byte) {
    0x09 <= x <= 0x0D || x == SPACE
  }

  predicate Space2(x: byte, y: byte) {
    x == 0xC2 && (y == 0x85 || y == 0xA0)
  }

  predicate Space3(x: byte, y: byte, z: byte) {
    || (x == 0xE1 && y == 0x9A && z == 0x80)
    || (x == 0xE2 && y == 0x80 && (0x80 <= z <= 0x8A || z == 0xA8 || z == 0xA9 || z == 0xAF))
    || (x == 0xE2 && y == 0x81 && z == 0x9F)
    || (x == 0xE3 && y == 0x80 && z == 0x80)
  }

  /** Length of the white space rune that s starts with; 0 if it starts with none. */
  function LeadingSpace(s: Text): (n: nat)
    ensures n <= |s|
  {
    if |s| >= 1 && Space1(s[0]) then 1
    else if |s| >= 2 && Space2(s[0], s[1]) then 2
    else if |s| >= 3 && Space3(s[0], s[1], s[2]) then 3
    else 0
  }

  /** Length of the white space rune that s ends with; 0 if it ends with none. */
  function TrailingSpace(s: Text): (n: nat)
    ensures n <= |s|
  {
    var k := |s|;
    if k >= 1 && Space1(s[k - 1]) then 1
    else if k >= 2 && Space2(s[k - 2], s[k - 1]) then 2
    else if k >= 3 && Space3(s[k - 3], s[k - 2], s[k - 1]) then 3
    else 0
  }

  /** The code points with the White_Space property, which unicode.IsSpace asks for. */
  predicate IsSpaceRune(n: int) {
    || 0x09 <= n <= 0x0D || n == 0x20 || n == 0x85 || n == 0xA0 || n == 0x1680 || 0x2000 <= n <= 0x200A
    || n == 0x2028 || n == 0x2029 || n == 0x202F || n == 0x205F || n == 0x3000
  }

  /** The UTF-8 encoding of a code point below 0x1_0000 (RFC 3629, section 3). */
  function Encoded(n: int): (r: Text)
    requires 0 <= n < 0x1_0000
    ensures 1 <= |r| <= 3
  {
    if n < 0x80 then [n as byte]
    else if n < 0x800 then [(0xC0 + n / 64) as byte, (0x80 + n % 64) as byte]
    else [(0xE0 + n / 4096) as byte, (0x80 + n / 64 % 64) as byte, (0x80 + n % 64) as byte]
  }

  lemma SpacesEncoded(n: int)
    requires IsSpaceRune(n)
    ensures var e := Encoded(n);
      if |e| == 1 then Space1(e[0])
      else if |e| == 2 then Space2(e[0], e[1]) && !Space1(e[0]) && !Space1(e[1])
      else Space3(e[0], e[1], e[2]) && !Space1(e[0]) && !Space1(e[2]) && !Space2(e[0], e[1]) && !Space2(e[1], e[2])
  {
  }

  lemma Space3Encodes(x: byte, y: byte, z: byte)
    requires Space3(x, y, z)
    ensures exists n :: IsSpaceRune(n) && Encoded(n) == [x, y, z]
  {
    var n := (x as int - 0xE0) * 4096 + (y as int - 0x80) * 64 + (z as int - 0x80);
    assert IsSpaceRune(n) && Encoded(n) == [x, y, z];
  }

  lemma Space2Encodes(x: byte, y: byte)
    requires Space2(x, y)
    ensures exists n :: IsSpaceRune(n) && Encoded(n) == [x, y]
  {
    var n := (x as int - 0xC0) * 64 + (y as int - 0x80);
    assert IsSpaceRune(n) && Encoded(n) == [x, y];
  }

  /** What is taken off at the left in one step is a white space rune, and any such rune there is taken off. */
  lemma LeadingSpaceIsRune(s: Text)
    ensures LeadingSpace(s) > 0 ==> exists n :: IsSpaceRune(n) && Encoded(n) == s[..LeadingSpace(s)]
    ensures forall n :: IsSpaceRune(n) && Encoded(n) <= s ==> LeadingSpace(s) == |Encoded(n)|
  {
    var k := LeadingSpace(s);
    if k == 1 {
      assert IsSpaceRune(s[0] as int) && Encoded(s[0] as int) == s[..1];
    } else if k == 2 {
      Space2Encodes(s[0], s[1]);
      assert s[..2] == [s[0], s[1]];
    } else if k == 3 {
      Space3Encodes(s[0], s[1], s[2]);
      assert s[..3] == [s[0], s[1], s[2]];
    }
    forall n | IsSpaceRune(n) && Encoded(n) <= s ensures LeadingSpace(s) == |Encoded(n)| {
      SpacesEncoded(n);
    }
  }

  lemma TakenAtRight(s: Text)
    requires TrailingSpace(s) > 0
    ensures exists n :: IsSpaceRune(n) && Encoded(n) == s[|s| - TrailingSpace(s)..]
  {
    var k, m := TrailingSpace(s), |s|;
    if k == 1 {
      var n := s[m - 1] as int;
      assert s[m - 1..] == [s[m - 1]];
      assert IsSpaceRune(n) && Encoded(n) == s[m - 1..];
    } else if k == 2 {
      Space2Encodes(s[m - 2], s[m - 1]);
      hide Encoded;
      assert s[m - 2..] == [s[m - 2], s[m - 1]];
    } else {
      Space3Encodes(s[m - 3], s[m - 2], s[m - 1]);
      hide Encoded;
      assert s[m - 3..] == [s[m - 3], s[m - 2], s[m - 1]];
    }
  }

  lemma FoundAtRight(s: Text, n: int)
    requires IsSpaceRune(n) && |Encoded(n)| <= |s| && Encoded(n) == s[|s| - |Encoded(n)|..]
    ensures TrailingSpace(s) == |Encoded(n)|
  {
    SpacesEncoded(n);
    var e, m := Encoded(n), |s|;
    hide Encoded, IsSpaceRune;
    assert e[|e| - 1] == s[m - 1];
    assert |e| >= 2 ==> e[|e| - 2] == s[m - 2];
    assert |e| >= 3 ==> e[|e| - 3] == s[m - 3];
  }

  /** The same at the right. */
  lemma TrailingSpaceIsRune(s: Text)
    ensures TrailingSpace(s) > 0 ==> exists n :: IsSpaceRune(n) && Encoded(n) == s[|s| - TrailingSpace(s)..]
    ensures forall n :: IsSpaceRune(n) && |Encoded(n)| <= |s| && Encoded(n) == s[|s| - |Encoded(n)|..] ==>
      TrailingSpace(s) == |Encoded(n)|
  {
    if TrailingSpace(s) > 0 {
      TakenAtRight(s);
    }
    hide TrailingSpace, Encoded;
    forall n | IsSpaceRune(n) && |Encoded(n)| <= |s| && Encoded(n) == s[|s| - |Encoded(n)|..]
      ensures TrailingSpace(s) == |Encoded(n)|
    {
      FoundAtRight(s, n);
    }
  }

  function TrimLeft(s: Text): Text {
    var n := LeadingSpace(s);
    if n == 0 then s else TrimLeft(s[n..])
  }

  function TrimRight(s: Text): Text {
    var n := TrailingSpace(s);
    if n == 0 then s else TrimRight(s[..|s| - n])
  }

  function TrimSpace(s: Text): Text {
    TrimRight(TrimLeft(s))
  }

  /** Nothing but white space. */
  predicate Blank(s: Text) {
    TrimSpace(s) == []
  }

  /** s neither starts nor ends with white space. */
  predicate Trimmed(s: Text) {
    LeadingSpace(s) == 0 && TrailingSpace(s) == 0
  }

  lemma {:induction false} TrimLeftSuffix(s: Text) returns (k: nat)
    ensures k <= |s| && TrimLeft(s) == s[k..]
    ensures LeadingSpace(TrimLeft(s)) == 0
    decreases |s|
  {
    var n := LeadingSpace(s);
    if n == 0 {
      k := 0;
    } else {
      var j := TrimLeftSuffix(s[n..]);
      k := n + j;
      assert s[n..][j..] == s[k..];
    }
  }

  lemma {:induction false} TrimRightPrefix(s: Text) returns (k: nat)
    ensures k <= |s| && TrimRight(s) == s[..k]
    ensures TrailingSpace(TrimRight(s)) == 0
    decreases |s|
  {
    var n := TrailingSpace(s);
    if n == 0 {
      k := |s|;
    } else {
      k := TrimRightPrefix(s[..|s| - n]);
      assert s[..|s| - n][..k] == s[..k];
    }
  }

  /** TrimSpace yields a trimmed text, and the trimmed texts are those it leaves alone. */
  lemma TrimSpaceTrims(s: Text)
    ensures Trimmed(TrimSpace(s))
    ensures Trimmed(s) <==> TrimSpace(s) == s
  {
    var k := TrimLeftSuffix(s);
    var t := TrimLeft(s);
    var j := TrimRightPrefix(t);
    assert LeadingSpace(t[..j]) == 0;
  }

  /** White space on either side of a single space cannot swallow it or grow past it. */
  lemma JoinedTrimmed(a: Text, b: Text)
    requires Trimmed(a) && Trimmed(b) && a != [] && b != []
    ensures Trimmed(a + [SPACE] + b)
  {
  }

  // ------------------------------------------------- trimming joined texts

  /** What TrimLeft takes off. */
  function Lead(s: Text): Text {
    var n := LeadingSpace(s);
    if n == 0 then [] else s[..n] + Lead(s[n..])
  }

  /** What TrimRight takes off. */
  function Trail(s: Text): Text {
    var n := TrailingSpace(s);
    if n == 0 then [] else Trail(s[..|s| - n]) + s[|s| - n..]
  }

  lemma {:induction false} LeadSplit(s: Text)
    ensures s == Lead(s) + TrimLeft(s)
    decreases |s|
  {
    hide LeadingSpace, TrailingSpace;
    var n := LeadingSpace(s);
    if n > 0 {
      LeadSplit(s[n..]);
      assert s == s[..n] + s[n..];
    }
  }

  lemma {:induction false} TrailSplit(s: Text)
    ensures s == TrimRight(s) + Trail(s)
    decreases |s|
  {
    hide LeadingSpace, TrailingSpace;
    var n := TrailingSpace(s);
    if n > 0 {
      TrailSplit(s[..|s| - n]);
      assert s == s[..|s| - n] + s[|s| - n..];
    }
  }

  /** A space after a text that does not vanish stops what is trimmed on its left. */
  lemma {:induction false} TrimLeftOver(a: Text, b: Text)
    requires TrimLeft(a) != [] && b != [] && b[0] == SPACE
    ensures TrimLeft(a + b) == TrimLeft(a) + b
    decreases |a|
  {
    var n := LeadingSpace(a);
    assert LeadingSpace(a + b) == n;
    if n > 0 {
      assert (a + b)[n..] == a[n..] + b;
      TrimLeftOver(a[n..], b);
    }
  }

  lemma {:induction false} TrimLeftThrough(a: Text, b: Text)
    requires TrimLeft(a) == []
    ensures TrimLeft(a + b) == TrimLeft(b)
    decreases |a|
  {
    if a == [] {
      assert a + b == b;
    } else {
      var n := LeadingSpace(a);
      assert n > 0 && LeadingSpace(a + b) == n;
      assert (a + b)[n..] == a[n..] + b;
      TrimLeftThrough(a[n..], b);
    }
  }

  /** No white space rune begins in p and ends after it. */
  predicate NoRuneOpen(p: Text) {
    var k := |p|;
    && (k >= 1 ==> p[k - 1] != 0xC2 && !(0xE1 <= p[k - 1] <= 0xE3))
    && (k >= 2 ==> !(0xE1 <= p[k - 2] <= 0xE3 && (p[k - 1] == 0x9A || p[k - 1] == 0x80 || p[k - 1] == 0x81)))
  }

  lemma RuneCloses(p: Text, s: Text)
    requires LeadingSpace(s) > 0
    ensures NoRuneOpen(p + s[..LeadingSpace(s)])
  {
    var n := LeadingSpace(s);
    var q := p + s[..n];
    assert q[|q| - 1] == s[n - 1];
    assert n >= 2 ==> q[|q| - 2] == s[n - 2];
  }

  lemma {:induction false} LeadClosed(p: Text, s: Text)
    requires NoRuneOpen(p)
    ensures NoRuneOpen(p + Lead(s))
    decreases |s|
  {
    hide NoRuneOpen, LeadingSpace;
    var n := LeadingSpace(s);
    if n == 0 {
      assert p + Lead(s) == p;
    } else {
      RuneCloses(p, s);
      LeadClosed(p + s[..n], s[n..]);
      assert p + Lead(s) == p + s[..n] + Lead(s[n..]);
    }
  }

  lemma {:induction false} TrimRightOver(p: Text, t: Text)
    requires NoRuneOpen(p) && TrimRight(t) != []
    ensures TrimRight(p + t) == p + TrimRight(t)
    decreases |t|
  {
    var n := TrailingSpace(t);
    assert TrailingSpace(p + t) == n;
    if n > 0 {
      assert (p + t)[..|p + t| - n] == p + t[..|t| - n];
      TrimRightOver(p, t[..|t| - n]);
    }
  }

  lemma RuneAtEnd(a: Text, s: Text)
    requires LeadingSpace(s) > 0
    ensures TrailingSpace(a + s[..LeadingSpace(s)]) == LeadingSpace(s)
  {
    var n := LeadingSpace(s);
    var q := a + s[..n];
    assert q[|q| - 1] == s[n - 1];
    assert n >= 2 ==> q[|q| - 2] == s[n - 2];
    assert n >= 3 ==> q[|q| - 3] == s[n - 3];
  }

  lemma TrimRightRune(a: Text, r: Text)
    requires r != [] && TrailingSpace(a + r) == |r|
    ensures TrimRight(a + r) == TrimRight(a)
  {
    hide TrailingSpace;
    assert (a + r)[..|a|] == a;
  }

  lemma Regroup(a: Text, s: Text, n: nat)
    requires n <= |s|
    ensures a + s[..n] + s[n..] == a + s
  {
    assert s[..n] + s[n..] == s;
  }

  lemma VanishesOn(s: Text)
    requires TrimLeft(s) == [] && s != []
    ensures LeadingSpace(s) > 0 && TrimLeft(s[LeadingSpace(s)..]) == []
  {
    hide LeadingSpace;
  }

  lemma {:induction false} TrimRightThrough(a: Text, s: Text)
    requires TrimLeft(s) == []
    ensures TrimRight(a + s) == TrimRight(a)
    decreases |s|
  {
    hide LeadingSpace, TrailingSpace, TrimRight, TrimLeft;
    if s == [] {
      assert a + s == a;
    } else {
      VanishesOn(s);
      var n := LeadingSpace(s);
      TrimRightThrough(a + s[..n], s[n..]);
      Regroup(a, s, n);
      RuneAtEnd(a, s);
      TrimRightRune(a, s[..n]);
    }
  }

  lemma {:induction false} VanishingStartsBlank(t: Text)
    requires TrimRight(t) == [] && t != []
    ensures LeadingSpace(t) > 0
    decreases |t|
  {
    var n := TrailingSpace(t);
    var front := t[..|t| - n];
    if front != [] {
      VanishingStartsBlank(front);
    }
  }

  lemma BlankLeft(s: Text)
    requires Blank(s)
    ensures TrimLeft(s) == []
  {
    var k := TrimLeftSuffix(s);
    if TrimLeft(s) != [] {
      VanishingStartsBlank(TrimLeft(s));
    }
  }

  lemma TrimSpaced(b: Text)
    ensures TrimLeft([SPACE] + b) == TrimLeft(b)
  {
    var sb := [SPACE] + b;
    assert LeadingSpace(sb) == 1 && sb[1..] == b;
    hide LeadingSpace;
  }

  lemma TrimJoinedBlankFirst(a: Text, b: Text)
    requires Blank(a)
    ensures TrimSpace(a + ([SPACE] + b)) == TrimSpace(b)
  {
    hide TrimLeft, TrimRight, Blank;
    BlankLeft(a);
    TrimLeftThrough(a, [SPACE] + b);
    TrimSpaced(b);
  }

  lemma NotBlankLeft(a: Text)
    requires !Blank(a)
    ensures TrimLeft(a) != []
  {
  }

  lemma TrimJoinedBlankLast(a: Text, b: Text)
    requires !Blank(a) && Blank(b)
    ensures TrimSpace(a + ([SPACE] + b)) == TrimSpace(a)
  {
    hide TrimLeft, TrimRight, Blank;
    NotBlankLeft(a);
    TrimLeftOver(a, [SPACE] + b);
    BlankLeft(b);
    TrimSpaced(b);
    TrimRightThrough(TrimLeft(a), [SPACE] + b);
  }

  lemma ClosedBySpace(a: Text)
    ensures NoRuneOpen(a + [SPACE])
  {
  }

  lemma SplitSecond(left: Text, b: Text, lead: Text, rest: Text)
    requires b == lead + rest
    ensures left + ([SPACE] + b) == left + [SPACE] + lead + rest
  {
  }

  lemma SplitFirst(left: Text, core: Text, trail: Text, lead: Text, end: Text)
    requires left == core + trail
    ensures left + [SPACE] + lead + end == core + (trail + [SPACE] + lead) + end
  {
  }

  lemma TrimJoinedInside(a: Text, b: Text)
    requires !Blank(a) && !Blank(b)
    ensures TrimSpace(a + ([SPACE] + b)) == TrimSpace(a) + (Trail(TrimLeft(a)) + [SPACE] + Lead(b)) + TrimSpace(b)
  {
    assert TrimRight(TrimLeft(b)) != [];
    hide TrimLeft, TrimRight, Blank, NoRuneOpen, Lead, Trail;
    var left, lead, rest := TrimLeft(a), Lead(b), TrimLeft(b);
    NotBlankLeft(a);
    TrimLeftOver(a, [SPACE] + b);
    LeadSplit(b);
    SplitSecond(left, b, lead, rest);
    ClosedBySpace(left);
    LeadClosed(left + [SPACE], b);
    TrimRightOver(left + [SPACE] + lead, rest);
    TrailSplit(left);
    SplitFirst(left, TrimRight(left), Trail(left), lead, TrimRight(rest));
  }

  /** Trimming a text, a space and another text: white space inside stays, at the outer ends it goes. */
  lemma TrimJoined(a: Text, b: Text)
    ensures TrimSpace(a + [SPACE] + b) ==
      if Blank(a) then TrimSpace(b) else if Blank(b) then TrimSpace(a)
      else TrimSpace(a) + (Trail(TrimLeft(a)) + [SPACE] + Lead(b)) + TrimSpace(b)
  {
    hide TrimSpace, Blank, Trail, Lead;
    assert a + [SPACE] + b == a + ([SPACE] + b);
    if Blank(a) {
      TrimJoinedBlankFirst(a, b);
    } else if Blank(b) {
      TrimJoinedBlankLast(a, b);
    } else {
      TrimJoinedInside(a, b);
    }
  }
}
