/** What stripping comments means, said of texts alone: eight laws that the stripper obeys and that leave
    no other function. */
module CommentLaws {
  import opened CommentStripper

  /** The inside of a closed string literal. */
  predicate Quoted(t: string) {
    if t == [] then true
    else if t[0] == '\\' then |t| > 1 && Quoted(t[2..])
    else t[0] != '"' && Quoted(t[1..])
  }

  /** The inside of a string literal in which the text ends. */
  predicate HalfQuoted(t: string) {
    if t == [] || t == ['\\'] then true
    else if t[0] == '\\' then HalfQuoted(t[2..])
    else t[0] != '"' && HalfQuoted(t[1..])
  }

  /** `t` ends with the closer that leaves the outermost of `depth` nested block comments. */
  predicate Closes(t: string, depth: nat) {
    if t == [] then false
    else if Begins(t, '*', '/') then if depth == 1 then |t| == 2 else depth > 1 && Closes(t[2..], depth - 1)
    else if Begins(t, '/', '*') then Closes(t[2..], depth + 1)
    else Closes(t[1..], depth)
  }

  /** `t` never leaves the outermost of `depth` nested block comments. */
  predicate StaysInside(t: string, depth: nat) {
    if t == [] then depth > 0
    else if Begins(t, '*', '/') then depth > 1 && StaysInside(t[2..], depth - 1)
    else if Begins(t, '/', '*') then StaysInside(t[2..], depth + 1)
    else StaysInside(t[1..], depth)
  }

  /** As many newlines as there are in `t`. */
  function LineBreaks(t: string): string {
    seq(multiset(t)['\n'], i => '\n')
  }

  /** Code and literals stay, comments go, newlines stay where they are. */
  ghost predicate Laws(f: string -> string) {
    && f("") == ""
    && (forall c: char, b: string :: c != '"' && !Opener([c] + b) ==> f([c] + b) == [c] + f(b))
    && (forall t: string, b: string :: Quoted(t) ==> f("\"" + t + "\"" + b) == "\"" + t + "\"" + f(b))
    && (forall t: string :: HalfQuoted(t) ==> f("\"" + t) == "\"" + t)
    && (forall t: string, b: string :: '\n' !in t ==> f("//" + t + "\n" + b) == "\n" + f(b))
    && (forall t: string :: '\n' !in t ==> f("//" + t) == "")
    && (forall t: string, b: string :: Closes(t, 1) ==> f("/*" + t + b) == LineBreaks(t) + f(b))
    && (forall t: string :: StaysInside(t, 1) ==> f("/*" + t) == LineBreaks(t))
  }

  // ------------------------------------------------------ the stripper obeys

  type Reader = (Mode, string) -> string

  /** What the reader keeps of `s` in mode `m` is what a turn of the loop keeps, and then the rest. */
  predicate TakesTurn(g: Reader, m: Mode, s: string) {
    if s == [] then g(m, s) == []
    else if m.InBlock? && m.depth == 0 then true
    else
      var (next, kept, n) := Turn(m, s);
      g(m, s) == kept + g(next, s[n..])
  }

  ghost predicate TakesTurns(g: Reader) {
    forall m: Mode, s: string :: TakesTurn(g, m, s)
  }

  lemma RemainingTakesTurns(g: Reader)
    requires forall m, s :: g(m, s) == Remaining(m, s)
    ensures TakesTurns(g)
  {
    forall m: Mode, s: string ensures TakesTurn(g, m, s) {
      if s == [] {
        NothingRemains(m);
      } else if !(m.InBlock? && m.depth == 0) {
        TurnKeeps(m, s);
      }
    }
  }

  lemma {:induction false} NewlinesAre(t: string)
    ensures Newlines(t) == LineBreaks(t)
  {
    if t != [] {
      NewlinesAre(t[1..]);
      assert t == [t[0]] + t[1..];
      assert multiset(t) == multiset([t[0]]) + multiset(t[1..]);
      assert t[0] == '\n' ==> LineBreaks(t) == ['\n'] + LineBreaks(t[1..]);
    }
  }

  lemma PlainKept(g: Reader, c: char, b: string)
    requires TakesTurns(g) && c != '"' && !Opener([c] + b)
    ensures g(InCode, [c] + b) == [c] + g(InCode, b)
  {
    assert TakesTurn(g, InCode, [c] + b);
    assert ([c] + b)[1..] == b;
  }

  /** The character after the inside of the literal closes it. */
  lemma {:induction false} QuotedKept(g: Reader, t: string, b: string)
    requires TakesTurns(g) && Quoted(t) && b != [] && b[0] == '"'
    ensures g(InText, t + b) == t + g(InText, b)
  {
    if t == [] {
      assert t + b == b;
    } else {
      assert TakesTurn(g, InText, t + b);
      var n := if t[0] == '\\' then 2 else 1;
      QuotedKept(g, t[n..], b);
      TakeFront(t, b, n);
      FrontBack(t, n, g(InText, b));
    }
  }

  lemma TakeFront(t: string, b: string, n: nat)
    requires n <= |t|
    ensures (t + b)[n..] == t[n..] + b && (t + b)[..n] == t[..n]
  {
  }

  lemma FrontBack(t: string, n: nat, b: string)
    requires n <= |t|
    ensures t[..n] + (t[n..] + b) == t + b
  {
  }

  lemma LiteralKept(g: Reader, t: string, b: string)
    requires TakesTurns(g) && Quoted(t)
    ensures g(InCode, "\"" + t + "\"" + b) == "\"" + t + "\"" + g(InCode, b)
  {
    var s := "\"" + t + "\"" + b;
    assert TakesTurn(g, InCode, s) && TakesTurn(g, InText, ['"'] + b);
    assert s[1..] == t + (['"'] + b) && (['"'] + b)[1..] == b;
    QuotedKept(g, t, ['"'] + b);
    assert ['"'] + (t + (['"'] + g(InCode, b))) == "\"" + t + "\"" + g(InCode, b);
  }

  lemma {:induction false} HalfQuotedKept(g: Reader, t: string)
    requires TakesTurns(g) && HalfQuoted(t)
    ensures g(InText, t) == t
  {
    assert TakesTurn(g, InText, t);
    if t == ['\\'] {
      assert TakesTurn(g, InText, t[1..]);
    } else if t != [] {
      var n := if t[0] == '\\' then 2 else 1;
      HalfQuotedKept(g, t[n..]);
      assert t[..n] + t[n..] == t;
    }
  }

  lemma HalfLiteralKept(g: Reader, t: string)
    requires TakesTurns(g) && HalfQuoted(t)
    ensures g(InCode, "\"" + t) == "\"" + t
  {
    assert TakesTurn(g, InCode, "\"" + t);
    assert ("\"" + t)[1..] == t;
    HalfQuotedKept(g, t);
  }

  /** Up to a newline, or to the end of the text, a line comment keeps nothing. */
  lemma {:induction false} LineKept(g: Reader, t: string, b: string)
    requires TakesTurns(g) && '\n' !in t
    ensures g(InLine, t + b) == g(InLine, b)
  {
    if t == [] {
      assert t + b == b;
    } else {
      assert TakesTurn(g, InLine, t + b);
      TakeFront(t, b, 1);
      LineKept(g, t[1..], b);
    }
  }

  lemma LineCommentKept(g: Reader, t: string, b: string)
    requires TakesTurns(g) && '\n' !in t
    ensures g(InCode, "//" + t + "\n" + b) == "\n" + g(InCode, b)
  {
    var s := "//" + t + "\n" + b;
    assert TakesTurn(g, InCode, s) && TakesTurn(g, InLine, "\n" + b);
    assert s[2..] == t + ("\n" + b) && ("\n" + b)[1..] == b;
    LineKept(g, t, "\n" + b);
  }

  lemma LastCommentKept(g: Reader, t: string)
    requires TakesTurns(g) && '\n' !in t
    ensures g(InCode, "//" + t) == ""
  {
    assert TakesTurn(g, InCode, "//" + t) && TakesTurn(g, InLine, []);
    assert ("//" + t)[2..] == t + [];
    LineKept(g, t, []);
  }

  /** The newlines of a text that a turn in a comment begins. */
  lemma TurnNewlines(t: string, n: nat)
    requires n <= |t| && n <= 2 && (n == 2 ==> '\n' !in t[..2])
    ensures Newlines(t) == Newlines(t[..n]) + Newlines(t[n..])
    ensures n == 2 ==> Newlines(t) == Newlines(t[2..])
  {
    assert t == t[..n] + t[n..];
    NewlinesConcat(t[..n], t[n..]);
    if n == 2 { NewlinesNone(t[..2]); }
  }

  lemma OneNewline(t: string, b: string)
    requires t != []
    ensures (if t[0] == '\n' then ['\n'] else []) + (Newlines(t[1..]) + b) == Newlines(t) + b
  {
  }

  /** A turn in a block comment. */
  lemma BlockStep(g: Reader, t: string, b: string, depth: nat)
    requires TakesTurns(g) && depth > 0 && |t| > 1
    ensures g(InBlock(depth), t + b) ==
      if Begins(t, '*', '/') then g(if depth == 1 then InCode else InBlock(depth - 1), t[2..] + b)
      else if Begins(t, '/', '*') then g(InBlock(depth + 1), t[2..] + b)
      else (if t[0] == '\n' then ['\n'] else []) + g(InBlock(depth), t[1..] + b)
  {
    assert TakesTurn(g, InBlock(depth), t + b);
    TakeFront(t, b, 1);
    TakeFront(t, b, 2);
  }

  lemma {:induction false} ClosesKept(g: Reader, t: string, b: string, depth: nat)
    requires TakesTurns(g) && depth > 0 && Closes(t, depth)
    ensures g(InBlock(depth), t + b) == Newlines(t) + g(InCode, b)
    decreases |t|
  {
    BlockStep(g, t, b, depth);
    if Begins(t, '*', '/') && depth == 1 {
      TurnNewlines(t, 2);
      assert t[2..] == [] && t[2..] + b == b;
    } else if Begins(t, '*', '/') {
      TurnNewlines(t, 2);
      ClosesKept(g, t[2..], b, depth - 1);
    } else if Begins(t, '/', '*') {
      TurnNewlines(t, 2);
      ClosesKept(g, t[2..], b, depth + 1);
    } else {
      ClosesKept(g, t[1..], b, depth);
      OneNewline(t, g(InCode, b));
    }
  }

  lemma BlockCommentKept(g: Reader, t: string, b: string)
    requires TakesTurns(g) && Closes(t, 1)
    ensures g(InCode, "/*" + t + b) == LineBreaks(t) + g(InCode, b)
  {
    var s := "/*" + t + b;
    assert TakesTurn(g, InCode, s);
    assert s[2..] == t + b;
    ClosesKept(g, t, b, 1);
    NewlinesAre(t);
  }

  lemma {:induction false} InsideKept(g: Reader, t: string, depth: nat)
    requires TakesTurns(g) && depth > 0 && StaysInside(t, depth)
    ensures g(InBlock(depth), t) == Newlines(t)
    decreases |t|
  {
    assert TakesTurn(g, InBlock(depth), t);
    if t != [] {
      if Begins(t, '*', '/') {
        TurnNewlines(t, 2);
        InsideKept(g, t[2..], depth - 1);
      } else if Begins(t, '/', '*') {
        TurnNewlines(t, 2);
        InsideKept(g, t[2..], depth + 1);
      } else {
        InsideKept(g, t[1..], depth);
      }
    }
  }

  lemma OpenCommentKept(g: Reader, t: string)
    requires TakesTurns(g) && StaysInside(t, 1)
    ensures g(InCode, "/*" + t) == LineBreaks(t)
  {
    assert TakesTurn(g, InCode, "/*" + t);
    assert ("/*" + t)[2..] == t;
    InsideKept(g, t, 1);
    NewlinesAre(t);
  }

  /** A reader that takes turns obeys the laws. */
  lemma TurnsObey(g: Reader, f: string -> string)
    requires TakesTurns(g) && forall s :: f(s) == g(InCode, s)
    ensures Laws(f)
  {
    assert TakesTurn(g, InCode, "");
    forall c: char, b: string | c != '"' && !Opener([c] + b) ensures f([c] + b) == [c] + f(b) {
      PlainKept(g, c, b);
    }
    forall t: string, b: string | Quoted(t) ensures f("\"" + t + "\"" + b) == "\"" + t + "\"" + f(b) {
      LiteralKept(g, t, b);
    }
    forall t: string | HalfQuoted(t) ensures f("\"" + t) == "\"" + t { HalfLiteralKept(g, t); }
    forall t: string, b: string | '\n' !in t ensures f("//" + t + "\n" + b) == "\n" + f(b) {
      LineCommentKept(g, t, b);
    }
    forall t: string | '\n' !in t ensures f("//" + t) == "" { LastCommentKept(g, t); }
    forall t: string, b: string | Closes(t, 1) ensures f("/*" + t + b) == LineBreaks(t) + f(b) {
      BlockCommentKept(g, t, b);
    }
    forall t: string | StaysInside(t, 1) ensures f("/*" + t) == LineBreaks(t) { OpenCommentKept(g, t); }
  }

  /** The stripper obeys the laws. */
  lemma StripObeys(strip: string -> string)
    requires forall s :: strip(s) == Kept(Parse(s))
    ensures Laws(strip)
  {
    var g: Reader := (m, s) => Remaining(m, s);
    RemainingTakesTurns(g);
    TurnsObey(g, strip);
  }

  // -------------------------------------------------- and nothing else does

  /** Every text after a quote is the inside of a literal, closed or not. */
  lemma {:induction false} LiteralEnds(s: string) returns (n: nat)
    ensures n <= |s| && (n == |s| ==> HalfQuoted(s)) && (n < |s| ==> Quoted(s[..n]) && s[n] == '"')
  {
    if s == [] || s == ['\\'] {
      n := |s|;
    } else if s[0] == '\\' {
      var m := LiteralEnds(s[2..]);
      n := m + 2;
      if n < |s| { assert s[..n][2..] == s[2..][..m]; }
    } else if s[0] == '"' {
      n := 0;
    } else {
      var m := LiteralEnds(s[1..]);
      n := m + 1;
      if n < |s| { assert s[..n][1..] == s[1..][..m]; }
    }
  }

  /** Every text after a block comment's opener has the closer, or never leaves the comment. */
  lemma {:induction false} BlockEnds(s: string, depth: nat) returns (n: nat)
    requires depth > 0
    ensures n <= |s| && (Closes(s[..n], depth) || (n == |s| && StaysInside(s, depth)))
    decreases |s|
  {
    if s == [] {
      n := 0;
    } else if Begins(s, '*', '/') {
      if depth == 1 {
        n := 2;
      } else {
        var m := BlockEnds(s[2..], depth - 1);
        n := m + 2;
        assert s[..n][2..] == s[2..][..m];
      }
    } else if Begins(s, '/', '*') {
      var m := BlockEnds(s[2..], depth + 1);
      n := m + 2;
      assert s[..n][2..] == s[2..][..m];
    } else {
      var m := BlockEnds(s[1..], depth);
      n := m + 1;
      assert s[..n][1..] == s[1..][..m];
    }
  }

  lemma Cut(s: string, n: nat, open: string, close: string)
    requires |open| + n + |close| <= |s| && open <= s && s[|open| + n..][..|close|] == close
    ensures s == open + s[|open|..][..n] + close + s[|open| + n + |close|..]
  {
  }

  /** Two functions that obey the laws agree on every text. */
  lemma {:induction false} LawsDetermine(f: string -> string, g: string -> string, s: string)
    requires Laws(f) && Laws(g)
    ensures f(s) == g(s)
    decreases |s|
  {
    if s == [] {
    } else if s[0] == '"' {
      AgreeOnLiteral(f, g, s);
    } else if Begins(s, '/', '/') {
      AgreeOnLine(f, g, s);
    } else if Begins(s, '/', '*') {
      AgreeOnBlock(f, g, s);
    } else {
      assert s == [s[0]] + s[1..];
      LawsDetermine(f, g, s[1..]);
    }
  }

  lemma {:induction false} AgreeOnLiteral(f: string -> string, g: string -> string, s: string)
    requires Laws(f) && Laws(g) && s != [] && s[0] == '"'
    ensures f(s) == g(s)
    decreases |s|, 0
  {
    var n := LiteralEnds(s[1..]);
    if n == |s| - 1 {
      assert s == "\"" + s[1..];
    } else {
      Cut(s, n, "\"", "\"");
      LawsDetermine(f, g, s[n + 2..]);
    }
  }

  lemma LineLaw(f: string -> string, t: string, b: string)
    requires Laws(f) && '\n' !in t
    ensures f("//" + t + "\n" + b) == "\n" + f(b)
  {
  }

  lemma {:induction false} AgreeOnLine(f: string -> string, g: string -> string, s: string)
    requires Laws(f) && Laws(g) && Begins(s, '/', '/')
    ensures f(s) == g(s)
    decreases |s|, 0
  {
    var t := UpToNewline(s[2..]);
    var n := |t|;
    if n == |s| - 2 {
      assert s[2..] == t && f("//" + t) == g("//" + t);
      assert s == "//" + s[2..];
    } else {
      var b := s[n + 3..];
      assert s == "//" + t + "\n" + b;
      LawsDetermine(f, g, b);
      LineLaw(f, t, b);
      LineLaw(g, t, b);
    }
  }

  lemma {:induction false} AgreeOnBlock(f: string -> string, g: string -> string, s: string)
    requires Laws(f) && Laws(g) && Begins(s, '/', '*')
    ensures f(s) == g(s)
    decreases |s|, 0
  {
    var n := BlockEnds(s[2..], 1);
    if Closes(s[2..][..n], 1) {
      Cut(s, n, "/*", "");
      assert s == "/*" + s[2..][..n] + s[n + 2..];
      LawsDetermine(f, g, s[n + 2..]);
    } else {
      assert s == "/*" + s[2..];
    }
  }

  /** So the stripper is the one function that keeps code and literals, drops comments and keeps their
      newlines. */
  lemma OnlyStrip(f: string -> string)
    ensures Laws(f) <==> forall s :: f(s) == Kept(Parse(s))
  {
    var strip := (s: string) => Kept(Parse(s));
    StripObeys(strip);
    if Laws(f) {
      forall s ensures f(s) == Kept(Parse(s)) { LawsDetermine(f, strip, s); }
    } else if forall s :: f(s) == Kept(Parse(s)) {
      StripObeys(f);
    }
  }

  // ------------------------------------------------- code before what comes next

  /** Every literal of the text is closed. */
  predicate AllClosed(p: Source) {
    match p
    case Eof => true
    case Plain(_, rest) => AllClosed(rest)
    case Text(l, rest) => Closed(l) && AllClosed(rest)
    case LineComment(_, rest) => AllClosed(rest)
    case BlockComment(_, rest) => AllClosed(rest)
  }

  /** Code without a comment or an open literal stays as it is in front of anything its last character
      does not make an opener with. */
  lemma {:induction false} CodeStays(f: string -> string, a: string, b: string)
    requires Laws(f) && CommentFree(Parse(a)) && AllClosed(Parse(a))
    requires a != [] && b != [] ==> !Opener([a[|a| - 1], b[0]])
    ensures f(a + b) == a + f(b)
    decreases |a|
  {
    if a == [] {
      assert a + b == b;
    } else if a[0] == '"' {
      LiteralStays(f, a, b);
    } else {
      assert a == [a[0]] + a[1..];
      CodeStays(f, a[1..], b);
      if |a| == 1 && b != [] { assert [a[0], b[0]] == (a + b)[..2]; }
      assert a + b == [a[0]] + (a[1..] + b);
    }
  }

  lemma {:induction false} QuotedIsClosed(t: string, r: string)
    requires Quoted(t)
    ensures var (l, rest) := ParseLiteral(t + (['"'] + r)); rest == r
  {
    if t == [] {
      assert (t + (['"'] + r))[1..] == r;
    } else {
      var n := if t[0] == '\\' then 2 else 1;
      TakeFront(t, ['"'] + r, n);
      QuotedIsClosed(t[n..], r);
    }
  }

  lemma {:induction false} HalfQuotedIsOpen(t: string)
    requires HalfQuoted(t)
    ensures !Closed(ParseLiteral(t).0)
  {
    if t != [] && t != ['\\'] { HalfQuotedIsOpen(t[if t[0] == '\\' then 2 else 1..]); }
  }

  /** A text that begins with a literal, taken apart behind it. */
  lemma LiteralSplit(a: string) returns (t: string, r: string)
    requires a != [] && a[0] == '"' && CommentFree(Parse(a)) && AllClosed(Parse(a))
    ensures Quoted(t) && a == "\"" + t + "\"" + r
    ensures CommentFree(Parse(r)) && AllClosed(Parse(r))
  {
    var n := LiteralEnds(a[1..]);
    assert n < |a| - 1 by {
      if n == |a| - 1 { HalfQuotedIsOpen(a[1..]); }
    }
    t, r := a[1..][..n], a[n + 2..];
    assert ParseLiteral(a[1..]).1 == r by {
      assert a[1..] == t + (['"'] + r);
      QuotedIsClosed(t, r);
    }
  }

  lemma {:induction false} LiteralStays(f: string -> string, a: string, b: string)
    requires Laws(f) && a != [] && a[0] == '"' && CommentFree(Parse(a)) && AllClosed(Parse(a))
    requires b != [] ==> !Opener([a[|a| - 1], b[0]])
    ensures f(a + b) == a + f(b)
    decreases |a|, 0
  {
    var t, r := LiteralSplit(a);
    if r != [] { assert r[|r| - 1] == a[|a| - 1]; }
    CodeStays(f, r, b);
    InFront(f, t, r, b);
  }

  lemma InFront(f: string -> string, t: string, r: string, b: string)
    requires Laws(f) && Quoted(t) && f(r + b) == r + f(b)
    ensures f(("\"" + t + "\"" + r) + b) == ("\"" + t + "\"" + r) + f(b)
  {
    Behind(t, r, b);
    Behind(t, r, f(b));
    assert f("\"" + t + "\"" + (r + b)) == "\"" + t + "\"" + f(r + b);
  }

  lemma Behind(t: string, r: string, b: string)
    ensures ("\"" + t + "\"" + r) + b == "\"" + t + "\"" + (r + b)
  {
  }
}
