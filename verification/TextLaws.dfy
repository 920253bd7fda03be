/** What trimming, lower case, words and containment mean, told of the characters. */
module TextLaws {
  import opened Text

  lemma {:induction false} TrimStartIs(s: string) returns (n: nat)
    ensures n <= |s| && Blank(s[..n]) && TrimStart(s) == s[n..]
  {
    if s != [] && IsSpace(s[0]) {
      var m := TrimStartIs(s[1..]);
      n := m + 1;
      assert s[1..][m..] == s[n..];
      assert forall i :: 1 <= i < n ==> s[..n][i] == s[1..][..m][i - 1];
    } else {
      n := 0;
    }
  }

  /** Trimming takes white space off both ends, all of it, and nothing else. */
  lemma TrimIs(s: string) returns (i: nat, j: nat)
    ensures i <= j <= |s| && Blank(s[..i]) && Blank(s[j..]) && Trim(s) == s[i..j]
    ensures i < j ==> !IsSpace(s[i]) && !IsSpace(s[j - 1])
  {
    i := TrimStartIs(s);
    var t := s[i..];
    TrimEndFacts(t);
    TrimFacts(s);
    j := i + |Trim(s)|;
    Slices(s, i, |Trim(s)|);
  }

  lemma Slices(s: string, i: nat, n: nat)
    requires i + n <= |s|
    ensures s[i..][n..] == s[i + n..] && s[i..][..n] == s[i..i + n]
  {
  }

  /** A text is blank exactly if nothing of it is left. */
  lemma BlankIff(s: string)
    ensures Trim(s) == "" <==> Blank(s)
  {
    var i, j := TrimIs(s);
    if Trim(s) == "" {
      assert i == j;
      forall k | 0 <= k < |s| ensures IsSpace(s[k]) {
        if k < i { assert s[..i][k] == s[k]; } else { assert s[j..][k - j] == s[k]; }
      }
    }
  }

  /** Upper-case letters of ASCII become lower-case ones, in place. */
  lemma {:induction false} LowerAt(s: string, i: nat)
    requires i < |s|
    ensures |Lower(s)| == |s|
    ensures Lower(s)[i] == if 'A' <= s[i] <= 'Z' then s[i] + 32 as char else s[i]
  {
    if |s| > 1 { LowerAt(s[1..], if i > 0 then i - 1 else 0); }
  }

  predicate IsAt(hay: string, word: string, i: nat) {
    i + |word| <= |hay| && hay[i..i + |word|] == word
  }

  ghost predicate StandsIn(hay: string, word: string) {
    exists i: nat :: IsAt(hay, word, i)
  }

  lemma PrefixIff(hay: string, word: string)
    ensures word <= hay <==> IsAt(hay, word, 0)
  {
    if |word| <= |hay| { assert hay[0..0 + |word|] == hay[..|word|]; }
  }

  lemma ShiftIff(hay: string, word: string, i: nat)
    requires hay != []
    ensures IsAt(hay[1..], word, i) <==> IsAt(hay, word, i + 1)
  {
    if i + 1 + |word| <= |hay| { assert hay[1..][i..i + |word|] == hay[i + 1..i + 1 + |word|]; }
  }

  /** One text holds another if the other stands somewhere in it. */
  lemma {:induction false} ContainsIff(hay: string, word: string)
    ensures Contains(hay, word) <==> StandsIn(hay, word)
  {
    PrefixIff(hay, word);
    if hay != [] {
      ContainsIff(hay[1..], word);
      forall i: nat ensures IsAt(hay[1..], word, i) <==> IsAt(hay, word, i + 1) { ShiftIff(hay, word, i); }
      if i: nat :| IsAt(hay, word, i) {
        if i > 0 { assert IsAt(hay[1..], word, i - 1); }
      }
      if i: nat :| IsAt(hay[1..], word, i) { assert IsAt(hay, word, i + 1); }
    }
  }

  lemma {:induction false} ContainsAllIff(hay: string, words: seq<string>)
    ensures ContainsAll(hay, words) <==> forall i :: 0 <= i < |words| ==> Contains(hay, words[i])
  {
    if words != [] {
      ContainsAllIff(hay, words[1..]);
      assert forall i :: 1 <= i < |words| ==> words[i] == words[1..][i - 1];
      assert forall i :: 0 <= i < |words[1..]| ==> words[1..][i] == words[i + 1];
    }
  }

  ghost predicate AllStand(hay: string, words: seq<string>) {
    forall i :: 0 <= i < |words| ==> StandsIn(hay, words[i])
  }

  lemma AllStandIff(hay: string, words: seq<string>)
    ensures ContainsAll(hay, words) <==> AllStand(hay, words)
  {
    ContainsAllIff(hay, words);
    forall i | 0 <= i < |words| ensures Contains(hay, words[i]) <==> StandsIn(hay, words[i]) {
      ContainsIff(hay, words[i]);
    }
  }

  /** A word: not empty, and no white space in it. */
  predicate IsWord(w: string) {
    w != "" && forall c :: c in w ==> !IsSpace(c)
  }

  /** White space separates words... */
  lemma WordsSkip(c: char, rest: string)
    requires IsSpace(c)
    ensures Words([c] + rest) == Words(rest)
  {
    assert ([c] + rest)[1..] == rest;
    assert [] + Words(rest) == Words(rest);
  }

  lemma {:induction false} WordsOn(w: string, rest: string, word: string)
    requires (forall c :: c in w ==> !IsSpace(c)) && (rest != "" ==> IsSpace(rest[0])) && word + w != ""
    ensures Words(w + rest, word) == [word + w] + Words(rest)
  {
    if w == "" {
      assert w + rest == rest && word + w == word;
      if rest != "" { assert [word] + Words(rest[1..], "") == [word] + ([] + Words(rest[1..], "")); }
    } else {
      assert (w + rest)[1..] == w[1..] + rest;
      assert (word + [w[0]]) + w[1..] == word + w;
      WordsOn(w[1..], rest, word + [w[0]]);
    }
  }

  /** ... and what it separates is each word whole. */
  lemma WordsTake(w: string, rest: string)
    requires IsWord(w) && (rest != "" ==> IsSpace(rest[0]))
    ensures Words(w + rest) == [w] + Words(rest)
  {
    assert "" + w == w;
    WordsOn(w, rest, "");
  }
}
