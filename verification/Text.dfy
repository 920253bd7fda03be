/** Characters and strings as the components use them. */
module Text {

  datatype Option<+T> = None | Some(value: T)

  /** Unicode White_Space, which `trim`, `trim_end` and `split_whitespace` go by. */
  predicate IsSpace(c: char) {
    || '\t' <= c <= '\r' || c == ' ' || c == '\U{0085}' || c == '\U{00A0}' || c == '\U{1680}'
    || '\U{2000}' <= c <= '\U{200A}' || c == '\U{2028}' || c == '\U{2029}' || c == '\U{202F}'
    || c == '\U{205F}' || c == '\U{3000}'
  }

  predicate Blank(s: string) {
    forall i :: 0 <= i < |s| ==> IsSpace(s[i])
  }

  function TrimEnd(s: string): string {
    if s == [] || !IsSpace(s[|s| - 1]) then s else TrimEnd(s[..|s| - 1])
  }

  function TrimStart(s: string): string {
    if s == [] || !IsSpace(s[0]) then s else TrimStart(s[1..])
  }

  function Trim(s: string): string {
    TrimEnd(TrimStart(s))
  }

  /** `TrimEnd` is the longest prefix that does not end in white space. */
  lemma {:induction false} TrimEndFacts(s: string)
    ensures var r := TrimEnd(s); r <= s && Blank(s[|r|..]) && (r != [] ==> !IsSpace(r[|r| - 1]))
  {
    if s != [] && IsSpace(s[|s| - 1]) {
      TrimEndFacts(s[..|s| - 1]);
      var r := TrimEnd(s);
      assert s[|r|..] == s[..|s| - 1][|r|..] + [s[|s| - 1]];
    }
  }

  lemma {:induction false} TrimStartFacts(s: string)
    ensures var r := TrimStart(s); r != [] ==> !IsSpace(r[0])
  {
    if s != [] && IsSpace(s[0]) { TrimStartFacts(s[1..]); }
  }

  /** What is left has no white space at either end. */
  lemma TrimFacts(s: string)
    ensures var r := Trim(s); r != [] ==> !IsSpace(r[0]) && !IsSpace(r[|r| - 1])
  {
    TrimStartFacts(s);
    TrimEndFacts(TrimStart(s));
  }

  /** A string whose ends are not white space stays as it is. */
  lemma TrimmedAlready(s: string)
    requires s != [] && !IsSpace(s[0]) && !IsSpace(s[|s| - 1])
    ensures Trim(s) == s
  {
  }

  function Lower(s: string): (r: string)
    ensures r == [] <==> s == []
  {
    if s == [] then []
    else [if 'A' <= s[0] <= 'Z' then s[0] + 32 as char else s[0]] + Lower(s[1..])
  }

  predicate Contains(hay: string, word: string) {
    word <= hay || (hay != [] && Contains(hay[1..], word))
  }

  predicate ContainsAll(hay: string, words: seq<string>) {
    words == [] || (Contains(hay, words[0]) && ContainsAll(hay, words[1..]))
  }

  /** The maximal runs of non-space characters, `word` being the one already under way. */
  function Words(s: string, word: string := ""): seq<string> {
    var done := if word == "" then [] else [word];
    if s == "" then done
    else if IsSpace(s[0]) then done + Words(s[1..], "")
    else Words(s[1..], word + [s[0]])
  }

  /** Unicode category Cc. */
  predicate IsControl(c: char) {
    c < ' ' || '\U{007F}' <= c <= '\U{009F}'
  }
}
