/** The comment stripper that source-scanning gates run before they look for forbidden text
    (crates/workshop-gates/src/lib.rs, `strip_comments`).

    The meaning of a text is given by a small syntax tree: plain characters, string literals, line
    comments, and block comments that nest.  `Print` writes a tree out, `Parse` reads any text, and
    `Kept` is what remains of a tree once its comments are gone.  The loop of the original is
    proved to compute exactly `Kept(Parse(src))`. */
module CommentStripper {

  /** What follows an opening quote. */
  datatype Literal =
    | Unclosed                          // the text ends inside the literal
    | Dangling                          // the text ends right after a backslash
    | Close
    | Escape(c: char, rest: Literal)    // a backslash and the character it protects
    | Char(c: char, rest: Literal)

  /** What follows the opener of a block comment. */
  datatype Block =
    | Unended
    | End
    | Nest(inner: Block, rest: Block)
    | Skip(c: char, rest: Block)

  datatype Source =
    | Eof
    | Plain(c: char, rest: Source)
    | Text(literal: Literal, rest: Source)
    | LineComment(body: string, rest: Source)
    | BlockComment(block: Block, rest: Source)

  predicate Begins(s: string, a: char, b: char) {
    |s| >= 2 && s[0] == a && s[1] == b
  }

  predicate Opener(s: string) {
    Begins(s, '/', '/') || Begins(s, '/', '*')
  }

  // ---------------------------------------------------------------- printing

  function PrintLiteral(l: Literal): string {
    match l
    case Unclosed => []
    case Dangling => ['\\']
    case Close => ['"']
    case Escape(c, rest) => ['\\', c] + PrintLiteral(rest)
    case Char(c, rest) => [c] + PrintLiteral(rest)
  }

  function PrintBlock(b: Block): string {
    match b
    case Unended => []
    case End => ['*', '/']
    case Nest(inner, rest) => ['/', '*'] + (PrintBlock(inner) + PrintBlock(rest))
    case Skip(c, rest) => [c] + PrintBlock(rest)
  }

  function Print(p: Source): string {
    match p
    case Eof => []
    case Plain(c, rest) => [c] + Print(rest)
    case Text(l, rest) => ['"'] + (PrintLiteral(l) + Print(rest))
    case LineComment(body, rest) => ['/', '/'] + (body + Print(rest))
    case BlockComment(b, rest) => ['/', '*'] + (PrintBlock(b) + Print(rest))
  }

  // ------------------------------------------- which trees stand for a text

  predicate Closed(l: Literal) {
    match l
    case Unclosed => false
    case Dangling => false
    case Close => true
    case Escape(_, rest) => Closed(rest)
    case Char(_, rest) => Closed(rest)
  }

  predicate Ended(b: Block) {
    match b
    case Unended => false
    case End => true
    case Nest(_, rest) => Ended(rest)
    case Skip(_, rest) => Ended(rest)
  }

  predicate LiteralOk(l: Literal) {
    match l
    case Unclosed => true
    case Dangling => true
    case Close => true
    case Escape(_, rest) => LiteralOk(rest)
    case Char(c, rest) => c != '"' && c != '\\' && LiteralOk(rest)
  }

  predicate BlockOk(b: Block) {
    match b
    case Unended => true
    case End => true
    case Nest(inner, rest) => BlockOk(inner) && BlockOk(rest) && (Ended(inner) || rest.Unended?)
    case Skip(c, rest) =>
      var s := [c] + PrintBlock(rest);
      BlockOk(rest) && !Begins(s, '/', '*') && !Begins(s, '*', '/')
  }

  /** A tree is canonical when printing it loses nothing: only the last construct may be cut off by
      the end of the text, and no two neighbours run together into a token. */
  predicate Canonical(p: Source) {
    match p
    case Eof => true
    case Plain(c, rest) => Canonical(rest) && c != '"' && !Opener([c] + Print(rest))
    case Text(l, rest) => Canonical(rest) && LiteralOk(l) && (Closed(l) || rest.Eof?)
    case LineComment(body, rest) =>
      Canonical(rest) && '\n' !in body && (Print(rest) != [] ==> Print(rest)[0] == '\n')
    case BlockComment(b, rest) => Canonical(rest) && BlockOk(b) && (Ended(b) || rest.Eof?)
  }

  // ---------------------------------------------------------------- parsing

  function ParseLiteral(s: string): (r: (Literal, string))
    ensures |r.1| <= |s|
  {
    if s == [] then (Unclosed, [])
    else if s[0] == '"' then (Close, s[1..])
    else if s[0] == '\\' then
      if |s| == 1 then (Dangling, [])
      else var (l, r) := ParseLiteral(s[2..]); (Escape(s[1], l), r)
    else var (l, r) := ParseLiteral(s[1..]); (Char(s[0], l), r)
  }

  function ParseBlock(s: string): (r: (Block, string))
    ensures |r.1| <= |s|
    decreases |s|
  {
    if s == [] then (Unended, [])
    else if Begins(s, '*', '/') then (End, s[2..])
    else if Begins(s, '/', '*') then
      var (inner, r1) := ParseBlock(s[2..]);
      var (rest, r2) := ParseBlock(r1);
      (Nest(inner, rest), r2)
    else var (b, r) := ParseBlock(s[1..]); (Skip(s[0], b), r)
  }

  /** The part of `s` before its first newline. */
  function UpToNewline(s: string): (r: string)
    ensures |r| <= |s| && r == s[..|r|] && '\n' !in r
    ensures |r| < |s| ==> s[|r|] == '\n'
  {
    if s == [] || s[0] == '\n' then [] else [s[0]] + UpToNewline(s[1..])
  }

  function Parse(s: string): Source
    decreases |s|
  {
    if s == [] then Eof
    else if s[0] == '"' then
      var (l, r) := ParseLiteral(s[1..]); Text(l, Parse(r))
    else if Begins(s, '/', '/') then
      var body := UpToNewline(s[2..]); LineComment(body, Parse(s[2 + |body|..]))
    else if Begins(s, '/', '*') then
      var (b, r) := ParseBlock(s[2..]); BlockComment(b, Parse(r))
    else Plain(s[0], Parse(s[1..]))
  }

  // ------------------------------------------------------- what is kept

  function Newlines(s: string): string {
    if s == [] then [] else (if s[0] == '\n' then ['\n'] else []) + Newlines(s[1..])
  }

  function Kept(p: Source): string {
    match p
    case Eof => []
    case Plain(c, rest) => [c] + Kept(rest)
    case Text(l, rest) => ['"'] + PrintLiteral(l) + Kept(rest)
    case LineComment(_, rest) => Kept(rest)
    case BlockComment(b, rest) => Newlines(PrintBlock(b)) + Kept(rest)
  }

  // ------------------------------- every text is one tree, and the only one

  lemma {:induction false} ParseLiteralPrints(s: string)
    ensures var (l, r) := ParseLiteral(s);
      PrintLiteral(l) + r == s && LiteralOk(l) && (Closed(l) || r == [])
  {
    if s != [] && s[0] != '"' {
      if s[0] == '\\' {
        if |s| > 1 { ParseLiteralPrints(s[2..]); }
      } else {
        ParseLiteralPrints(s[1..]);
      }
    }
  }

  /** What a parsed block comment says of the text it was parsed from. */
  predicate BlockOf(s: string, b: Block, r: string) {
    PrintBlock(b) + r == s && BlockOk(b) && (Ended(b) || r == []) && (b.Unended? <==> s == [])
  }

  lemma NestOf(s: string, inner: Block, r1: string, rest: Block, r2: string)
    requires Begins(s, '/', '*') && BlockOf(s[2..], inner, r1) && BlockOf(r1, rest, r2)
    ensures BlockOf(s, Nest(inner, rest), r2)
  {
    assert PrintBlock(Nest(inner, rest)) + r2 == ['/', '*'] + (PrintBlock(inner) + (PrintBlock(rest) + r2));
  }

  lemma SkipOf(s: string, b: Block, r: string)
    requires s != [] && !Begins(s, '*', '/') && !Begins(s, '/', '*') && BlockOf(s[1..], b, r)
    ensures BlockOf(s, Skip(s[0], b), r)
  {
    assert PrintBlock(Skip(s[0], b)) + r == [s[0]] + (PrintBlock(b) + r);
  }

  lemma {:induction false} ParseBlockPrints(s: string)
    ensures BlockOf(s, ParseBlock(s).0, ParseBlock(s).1)
    decreases |s|
  {
    if s == [] {
    } else if Begins(s, '*', '/') {
      assert PrintBlock(End) + s[2..] == s;
    } else if Begins(s, '/', '*') {
      var (inner, r1) := ParseBlock(s[2..]);
      var (rest, r2) := ParseBlock(r1);
      ParseBlockPrints(s[2..]);
      ParseBlockPrints(r1);
      NestOf(s, inner, r1, rest, r2);
    } else {
      var (b, r) := ParseBlock(s[1..]);
      ParseBlockPrints(s[1..]);
      SkipOf(s, b, r);
    }
  }

  /** Any text whatever is the print of its canonical parse: unterminated literals and comments
      included. */
  lemma {:induction false} ParsePrints(s: string)
    ensures Print(Parse(s)) == s && Canonical(Parse(s))
    decreases |s|
  {
    if s == [] {
    } else if s[0] == '"' {
      var (l, r) := ParseLiteral(s[1..]);
      ParseLiteralPrints(s[1..]);
      ParsePrints(r);
    } else if Begins(s, '/', '/') {
      var body := UpToNewline(s[2..]);
      ParsePrints(s[2 + |body|..]);
      assert s[2..][..|body|] + s[2 + |body|..] == s[2..];
    } else if Begins(s, '/', '*') {
      var (b, r) := ParseBlock(s[2..]);
      ParseBlockPrints(s[2..]);
      ParsePrints(r);
    } else {
      ParsePrints(s[1..]);
      assert [s[0]] + s[1..] == s;
    }
  }

  lemma {:induction false} LiteralReparses(l: Literal, tail: string)
    requires LiteralOk(l) && (Closed(l) || tail == [])
    ensures ParseLiteral(PrintLiteral(l) + tail) == (l, tail)
  {
    var s := PrintLiteral(l) + tail;
    match l
    case Unclosed =>
    case Dangling =>
    case Close => assert s[1..] == tail;
    case Escape(c, rest) =>
      LiteralReparses(rest, tail);
      assert s[2..] == PrintLiteral(rest) + tail;
    case Char(c, rest) =>
      LiteralReparses(rest, tail);
      assert s[1..] == PrintLiteral(rest) + tail;
  }

  lemma {:induction false} BlockReparses(b: Block, tail: string)
    requires BlockOk(b) && (Ended(b) || tail == [])
    ensures ParseBlock(PrintBlock(b) + tail) == (b, tail)
  {
    var s := PrintBlock(b) + tail;
    match b
    case Unended =>
    case End => assert s[2..] == tail;
    case Nest(inner, rest) =>
      assert s[2..] == PrintBlock(inner) + (PrintBlock(rest) + tail);
      BlockReparses(inner, PrintBlock(rest) + tail);
      BlockReparses(rest, tail);
    case Skip(c, rest) =>
      BlockReparses(rest, tail);
      assert s[1..] == PrintBlock(rest) + tail;
      assert Ended(rest) ==> |PrintBlock(rest)| > 0 by { if Ended(rest) { EndedPrints(rest); } }
      assert s[..|PrintBlock(b)|] == PrintBlock(b);
  }

  lemma {:induction false} EndedPrints(b: Block)
    requires Ended(b)
    ensures |PrintBlock(b)| >= 2
  {
    match b
    case End =>
    case Nest(_, _) =>
    case Skip(_, rest) => EndedPrints(rest);
  }

  /** Parsing is the left inverse of printing on canonical trees: a text has no second reading. */
  lemma {:induction false} PrintParses(p: Source)
    requires Canonical(p)
    ensures Parse(Print(p)) == p
  {
    match p
    case Eof =>
    case Plain(c, rest) =>
      PrintParses(rest);
      assert Print(p)[1..] == Print(rest);
    case Text(l, rest) =>
      PrintParses(rest);
      LiteralReparses(l, Print(rest));
      assert Print(p)[1..] == PrintLiteral(l) + Print(rest);
    case LineComment(body, rest) =>
      PrintParses(rest);
      assert Print(p)[2..] == body + Print(rest);
      UpToNewlineOf(body, Print(rest));
      assert Print(p)[2 + |body|..] == Print(rest);
    case BlockComment(b, rest) =>
      PrintParses(rest);
      BlockReparses(b, Print(rest));
      assert Print(p)[2..] == PrintBlock(b) + Print(rest);
  }

  lemma {:induction false} UpToNewlineOf(body: string, rest: string)
    requires '\n' !in body && (rest != [] ==> rest[0] == '\n')
    ensures UpToNewline(body + rest) == body
  {
    if body == [] {
      assert body + rest == rest;
    } else {
      UpToNewlineOf(body[1..], rest);
      assert (body + rest)[1..] == body[1..] + rest;
    }
  }

  // ---------------------------------------------------------------- the loop

  /** The loop state of the original, as one value. */
  datatype Mode = InCode | InText | InLine | InBlock(depth: nat)

  /** What is still to be kept of `s` when the reader is in mode `m`. */
  function Remaining(m: Mode, s: string): string
    decreases |s|, if m.InBlock? then m.depth else 0
  {
    match m
    case InCode => Kept(Parse(s))
    case InText => var (l, r) := ParseLiteral(s); PrintLiteral(l) + Kept(Parse(r))
    case InLine => Kept(Parse(s[|UpToNewline(s)|..]))
    case InBlock(d) =>
      if d == 0 then Kept(Parse(s))
      else var (b, r) := ParseBlock(s); Newlines(PrintBlock(b)) + Remaining(InBlock(d - 1), r)
  }

  lemma NewlinesConcat(a: string, b: string)
    ensures Newlines(a + b) == Newlines(a) + Newlines(b)
  {
    if a == [] {
      assert a + b == b;
    } else {
      assert (a + b)[1..] == a[1..] + b;
    }
  }

  /** One turn of the loop: the mode after it, what it keeps, how many characters it takes. */
  function Turn(m: Mode, s: string): (r: (Mode, string, nat))
    requires s != [] && (m.InBlock? ==> m.depth > 0)
    ensures 1 <= r.2 <= |s|
  {
    match m
    case InLine => if s[0] == '\n' then (InCode, ['\n'], 1) else (InLine, [], 1)
    case InBlock(d) =>
      if Begins(s, '*', '/') then (if d == 1 then InCode else InBlock(d - 1), [], 2)
      else if Begins(s, '/', '*') then (InBlock(d + 1), [], 2)
      else (m, if s[0] == '\n' then ['\n'] else [], 1)
    case InText =>
      if s[0] == '\\' && |s| > 1 then (InText, s[..2], 2)
      else (if s[0] == '"' then InCode else InText, [s[0]], 1)
    case InCode =>
      if s[0] == '"' then (InText, [s[0]], 1)
      else if Begins(s, '/', '/') then (InLine, [], 2)
      else if Begins(s, '/', '*') then (InBlock(1), [], 2)
      else (InCode, [s[0]], 1)
  }

  lemma NestNewlines(a: string, b: string)
    ensures Newlines(['/', '*'] + (a + b)) == Newlines(a) + Newlines(b)
  {
    NewlinesConcat(['/', '*'], a + b);
    NewlinesConcat(a, b);
    NewlinesNone(['/', '*']);
  }

  lemma {:induction false} NestTurn(d: nat, s: string)
    requires d > 0 && Begins(s, '/', '*')
    ensures Remaining(InBlock(d), s) == Remaining(InBlock(d + 1), s[2..])
  {
    var (inner, r1) := ParseBlock(s[2..]);
    var (rest, r2) := ParseBlock(r1);
    var a, b, tail := PrintBlock(inner), PrintBlock(rest), Remaining(InBlock(d - 1), r2);
    assert Newlines(PrintBlock(Nest(inner, rest))) == Newlines(a) + Newlines(b) by { NestNewlines(a, b); }
    assert Remaining(InBlock(d), s) == (Newlines(a) + Newlines(b)) + tail;
    assert Remaining(InBlock(d), r1) == Newlines(b) + tail;
    assert Remaining(InBlock(d + 1), s[2..]) == Newlines(a) + Remaining(InBlock(d), r1);
    assert (Newlines(a) + Newlines(b)) + tail == Newlines(a) + (Newlines(b) + tail);
  }

  lemma {:induction false} BlockTurn(d: nat, s: string)
    requires d > 0 && s != []
    ensures var (m', kept, n) := Turn(InBlock(d), s);
      Remaining(InBlock(d), s) == kept + Remaining(m', s[n..])
  {
    if Begins(s, '*', '/') {
      NewlinesNone(['*', '/']);
    } else if Begins(s, '/', '*') {
      NestTurn(d, s);
    } else {
      var (b, r) := ParseBlock(s[1..]);
      assert ([s[0]] + PrintBlock(b))[1..] == PrintBlock(b);
    }
  }

  lemma {:induction false} LineTurn(s: string)
    requires s != []
    ensures var (m', kept, n) := Turn(InLine, s);
      Remaining(InLine, s) == kept + Remaining(m', s[n..])
  {
    if s[0] != '\n' {
      assert s[1 + |UpToNewline(s[1..])|..] == s[1..][|UpToNewline(s[1..])|..];
    } else {
      assert s[0..] == s;
      assert Parse(s) == Plain('\n', Parse(s[1..]));
    }
  }

  lemma {:induction false} TurnKeeps(m: Mode, s: string)
    requires s != [] && (m.InBlock? ==> m.depth > 0)
    ensures var (m', kept, n) := Turn(m, s);
      Remaining(m, s) == kept + Remaining(m', s[n..])
  {
    match m
    case InBlock(d) => BlockTurn(d, s);
    case InLine => LineTurn(s);
    case InText =>
    case InCode =>
      if Begins(s, '/', '/') {
        assert s[2..][|UpToNewline(s[2..])|..] == s[2 + |UpToNewline(s[2..])|..];
      }
  }

  /** The loop invariant, carried over one turn. */
  lemma TurnCarries(out: string, m: Mode, s: string, whole: string)
    requires s != [] && (m.InBlock? ==> m.depth > 0)
    requires out + Remaining(m, s) == whole
    ensures var (m', kept, n) := Turn(m, s);
      out + kept + Remaining(m', s[n..]) == whole
  {
    TurnKeeps(m, s);
    var (m', kept, n) := Turn(m, s);
    assert out + kept + Remaining(m', s[n..]) == out + (kept + Remaining(m', s[n..]));
  }

  lemma {:induction false} NothingRemains(m: Mode)
    ensures Remaining(m, []) == []
    decreases if m.InBlock? then m.depth else 0
  {
    if m.InBlock? && m.depth > 0 { NothingRemains(InBlock(m.depth - 1)); }
  }

  method StripComments(src: string) returns (out: string)
    ensures out == Kept(Parse(src))
  {
    out := "";
    var i := 0;
    var inBlock, inStr, inLine := 0, false, false;
    ghost var mode := InCode;
    assert src[0..] == src;
    while i < |src|
      invariant 0 <= i <= |src|
      invariant inLine ==> inBlock == 0 && !inStr
      invariant inBlock >= 0 && (inBlock > 0 ==> !inStr)
      invariant mode == if inLine then InLine else if inBlock > 0 then InBlock(inBlock)
                        else if inStr then InText else InCode
      invariant out + Remaining(mode, src[i..]) == Kept(Parse(src))
    {
      var c := src[i];
      var peek := if i + 1 < |src| then [src[i + 1]] else [];
      ghost var s := src[i..];
      TurnCarries(out, mode, s, Kept(Parse(src)));
      ghost var (next, kept, n) := Turn(mode, s);
      assert src[i + n..] == s[n..];
      assert |s| > 1 ==> s[..2] == [c] + peek;
      ghost var i', out' := i + n, out + kept;
      i := i + 1;
      if inLine {
        if c == '\n' {
          inLine := false;
          out := out + ['\n'];
        }
      } else if inBlock > 0 {
        if c == '*' && peek == ['/'] {
          i := i + 1;
          inBlock := inBlock - 1;
        } else if c == '/' && peek == ['*'] {
          i := i + 1;
          inBlock := inBlock + 1;
        } else if c == '\n' {
          out := out + ['\n'];
        }
      } else if inStr {
        out := out + [c];
        if c == '\\' {
          if peek != [] {
            out := out + peek;
            i := i + 1;
          }
        } else if c == '"' {
          inStr := false;
        }
      } else if c == '"' {
        inStr := true;
        out := out + [c];
      } else if c == '/' && peek == ['/'] {
        i := i + 1;
        inLine := true;
      } else if c == '/' && peek == ['*'] {
        i := i + 1;
        inBlock := 1;
      } else {
        out := out + [c];
      }
      mode := next;
      assert i == i' && out == out';
    }
    assert src[i..] == [];
    NothingRemains(mode);
  }

  // ---------------------------------------------------------------- the laws

  /** No comment opener outside the string literals of the text. */
  predicate CommentFree(p: Source) {
    match p
    case Eof => true
    case Plain(_, rest) => CommentFree(rest)
    case Text(_, rest) => CommentFree(rest)
    case LineComment(_, _) => false
    case BlockComment(_, _) => false
  }

  /** The tree of the stripped text: comments gone, the newlines of block comments left in place. */
  function Stripped(p: Source): Source {
    match p
    case Eof => Eof
    case Plain(c, rest) => Plain(c, Stripped(rest))
    case Text(l, rest) => Text(l, Stripped(rest))
    case LineComment(_, rest) => Stripped(rest)
    case BlockComment(b, rest) => Prepend(Newlines(PrintBlock(b)), Stripped(rest))
  }

  function Prepend(s: string, p: Source): Source {
    if s == [] then p else Plain(s[0], Prepend(s[1..], p))
  }

  lemma {:induction false} OnlyNewlines(s: string)
    ensures forall c :: c in Newlines(s) ==> c == '\n'
  {
    if s != [] { OnlyNewlines(s[1..]); }
  }

  lemma {:induction false} PrependAll(t: string, p: Source)
    requires (forall i :: 0 <= i < |t| ==> t[i] == '\n') && Canonical(p) && CommentFree(p)
    ensures var q := Prepend(t, p); Canonical(q) && CommentFree(q) && Print(q) == t + Print(p)
  {
    if t == [] {
      assert t + Print(p) == Print(p);
    } else {
      var q := Prepend(t[1..], p);
      PrependAll(t[1..], p);
      NewlineBefore(q);
      assert ['\n'] + (t[1..] + Print(p)) == t + Print(p);
    }
  }

  lemma PrependNewlines(s: string, p: Source)
    requires Canonical(p) && CommentFree(p)
    ensures var q := Prepend(Newlines(s), p);
      Canonical(q) && CommentFree(q) && Print(q) == Newlines(s) + Print(p)
  {
    OnlyNewlines(s);
    forall i | 0 <= i < |Newlines(s)| ensures Newlines(s)[i] == '\n' { assert Newlines(s)[i] in Newlines(s); }
    PrependAll(Newlines(s), p);
  }

  lemma NewlineBefore(q: Source)
    requires Canonical(q) && CommentFree(q)
    ensures Canonical(Plain('\n', q)) && CommentFree(Plain('\n', q)) && Print(Plain('\n', q)) == ['\n'] + Print(q)
  {
  }

  lemma {:induction false} StrippedPrints(p: Source)
    requires Canonical(p)
    ensures Canonical(Stripped(p)) && CommentFree(Stripped(p)) && Print(Stripped(p)) == Kept(p)
    ensures Print(p) != [] && !p.LineComment? && !p.BlockComment? ==>
      Kept(p) != [] && Kept(p)[0] == Print(p)[0]
  {
    match p
    case Eof =>
    case Plain(c, rest) =>
      StrippedPrints(rest);
      if rest.LineComment? || rest.BlockComment? {
        assert Print(rest)[0] == '/';
        assert ([c] + Print(rest))[1] == '/';
        assert c != '/';
      }
    case Text(l, rest) => StrippedPrints(rest);
    case LineComment(body, rest) => StrippedPrints(rest);
    case BlockComment(b, rest) =>
      StrippedPrints(rest);
      PrependNewlines(PrintBlock(b), Stripped(rest));
  }

  /** The result never shows a comment opener outside its own string literals: stripping cannot
      glue two characters into a new one. */
  lemma NoOpenerLeft(src: string)
    ensures CommentFree(Parse(Kept(Parse(src))))
  {
    ParsePrints(src);
    StrippedPrints(Parse(src));
    PrintParses(Stripped(Parse(src)));
  }

  lemma {:induction false} KeptWhenFree(p: Source)
    requires CommentFree(p)
    ensures Kept(p) == Print(p)
  {
    match p
    case Eof =>
    case Plain(_, rest) => KeptWhenFree(rest);
    case Text(_, rest) => KeptWhenFree(rest);
  }

  /** A text comes back unchanged exactly when it has no comment opener outside its literals. */
  lemma UnchangedIff(src: string)
    ensures Kept(Parse(src)) == src <==> CommentFree(Parse(src))
  {
    ParsePrints(src);
    NoOpenerLeft(src);
    if CommentFree(Parse(src)) { KeptWhenFree(Parse(src)); }
  }

  lemma Idempotent(src: string)
    ensures Kept(Parse(Kept(Parse(src)))) == Kept(Parse(src))
  {
    NoOpenerLeft(src);
    UnchangedIff(Kept(Parse(src)));
  }

  lemma NewlinesIdempotent(s: string)
    ensures Newlines(Newlines(s)) == Newlines(s)
  {
    if s != [] {
      NewlinesConcat(if s[0] == '\n' then ['\n'] else [], Newlines(s[1..]));
    }
  }

  lemma NewlinesNone(s: string)
    requires '\n' !in s
    ensures Newlines(s) == []
  {
  }

  lemma BlockNewlines(t: string, rest: string, kept: string)
    requires Newlines(kept) == Newlines(rest)
    ensures Newlines(Newlines(t) + kept) == Newlines(['/', '*'] + (t + rest))
  {
    NewlinesConcat(['/', '*'], t + rest);
    NewlinesNone(['/', '*']);
    NewlinesConcat(t, rest);
    NewlinesConcat(Newlines(t), kept);
    NewlinesIdempotent(t);
  }

  lemma {:induction false} KeptNewlines(p: Source)
    requires Canonical(p)
    ensures Newlines(Kept(p)) == Newlines(Print(p))
  {
    match p
    case Eof =>
    case Plain(c, rest) =>
      KeptNewlines(rest);
      NewlinesConcat([c], Kept(rest));
      NewlinesConcat([c], Print(rest));
    case Text(l, rest) =>
      KeptNewlines(rest);
      assert Print(p) == ['"'] + PrintLiteral(l) + Print(rest);
      NewlinesConcat(['"'] + PrintLiteral(l), Kept(rest));
      NewlinesConcat(['"'] + PrintLiteral(l), Print(rest));
    case LineComment(body, rest) =>
      KeptNewlines(rest);
      assert Print(p) == ['/', '/'] + body + Print(rest);
      NewlinesConcat(['/', '/'] + body, Print(rest));
      NewlinesNone(['/', '/'] + body);
    case BlockComment(b, rest) =>
      KeptNewlines(rest);
      BlockNewlines(PrintBlock(b), Print(rest), Kept(rest));
  }

  /** Line numbers survive: the newlines of the text and of the result are the same. */
  lemma SameNewlines(src: string)
    ensures |Newlines(Kept(Parse(src)))| == |Newlines(src)|
  {
    ParsePrints(src);
    KeptNewlines(Parse(src));
  }
}
