/** Tokenising of src/lib/string_view.cpp and include/qs/parser.hpp.

    `Tokens` is what the loop of parse_string emits; `Words` is what a reader expects, the
    maximal runs of non-delimiters.  They agree exactly on the texts described by `Parseable`. */
module Parsing {

  // The number of leading characters before the first delimiter.
  function Until(s: string, d: char): (i: nat)
    ensures i <= |s|
    ensures d !in s[..i]
    ensures i < |s| ==> s[i] == d
  {
    if s == [] || s[0] == d then 0 else 1 + Until(s[1..], d)
  }

  // What split and the loop around it make of a text: an empty token ends the loop, and a
  // delimiter in last place takes the token before it along.
  function Tokens(s: string, d: char): seq<string> {
    if s == [] then []
    else
      var i := Until(s, d);
      if i == |s| then [s]
      else if i == |s| - 1 || i == 0 then []
      else [s[..i]] + Tokens(s[i + 1..], d)
  }

  function Words(s: string, d: char): seq<string> {
    if s == [] then []
    else if s[0] == d then Words(s[1..], d)
    else var i := Until(s, d); [s[..i]] + Words(s[i..], d)
  }

  // `s[i..j]` is a run of non-delimiters that cannot be made longer.
  ghost predicate MaximalRun(s: string, d: char, i: nat, j: nat) {
    && i < j <= |s| && d !in s[i..j]
    && (i == 0 || s[i - 1] == d) && (j == |s| || s[j] == d)
  }

  lemma WordsUnfold(s: string, d: char, w: string)
    requires s != []
    ensures s[0] == d ==> (w in Words(s, d) <==> w in Words(s[1..], d))
    ensures s[0] != d ==>
              Until(s, d) > 0 && (w in Words(s, d) <==> w == s[..Until(s, d)] || w in Words(s[Until(s, d)..], d))
  {
  }

  // `Words` are the maximal runs: each run is a word and each word is a run.
  lemma {:induction false} RunsAreWords(s: string, d: char, i: nat, j: nat)
    requires MaximalRun(s, d, i, j)
    ensures s[i..j] in Words(s, d)
    decreases |s|
  {
    hide MaximalRun, Words, Until;
    RunBounds(s, d, i, j);
    WordsUnfold(s, d, s[i..j]);
    if s[0] == d {
      RunWithin(s, d, 1, i - 1, j - 1);
      RunsAreWords(s[1..], d, i - 1, j - 1);
    } else if i == 0 {
      RunEnds(s, d, j);
    } else {
      var u := Until(s, d);
      RunStarts(s, d, i, j);
      RunWithin(s, d, u, i - u, j - u);
      RunsAreWords(s[u..], d, i - u, j - u);
    }
  }

  lemma RunWithin(s: string, d: char, u: nat, i: nat, j: nat)
    requires u <= |s| && i <= j <= |s| - u && MaximalRun(s, d, u + i, u + j)
    ensures s[u..][i..j] == s[u + i..u + j] && MaximalRun(s[u..], d, i, j)
  {
    assert s[u..][i..j] == s[u + i..u + j];
    if i > 0 { assert s[u..][i - 1] == s[u + i - 1]; }
    if u + j < |s| { assert s[u..][j] == s[u + j]; }
  }

  // A run of the rest of a text is a run of the text, shifted.
  lemma RunAfter(s: string, d: char, u: nat, i: nat, j: nat)
    requires u <= |s| && i <= j <= |s| - u
    ensures s[u..][i..j] == s[u + i..u + j]
    ensures i > 0 && MaximalRun(s[u..], d, i, j) ==> MaximalRun(s, d, u + i, u + j)
    ensures u > 0 && s[u - 1] == d && MaximalRun(s[u..], d, i, j) ==> MaximalRun(s, d, u + i, u + j)
  {
    assert s[u..][i..j] == s[u + i..u + j];
    if i > 0 { assert s[u..][i - 1] == s[u + i - 1]; }
    if u + j < |s| { assert s[u..][j] == s[u + j]; }
  }

  lemma RunEnds(s: string, d: char, j: nat)
    requires MaximalRun(s, d, 0, j)
    ensures j == Until(s, d)
  {
    assert forall k :: 0 <= k < j ==> s[k] in s[0..j];
    assert forall k :: 0 <= k < Until(s, d) ==> s[k] in s[..Until(s, d)];
  }

  lemma RunStarts(s: string, d: char, i: nat, j: nat)
    requires 0 < i <= |s| && (s[i - 1] == d || MaximalRun(s, d, i, j))
    ensures Until(s, d) < i
  {
    assert forall k :: 0 <= k < Until(s, d) ==> s[k] in s[..Until(s, d)];
  }

  lemma {:induction false} WordsAreRuns(s: string, d: char, w: string) returns (i: nat, j: nat)
    requires w in Words(s, d)
    ensures MaximalRun(s, d, i, j) && s[i..j] == w
    decreases |s|
  {
    hide MaximalRun, Words, Until;
    if s == [] {
      NoWords(d);
      return;
    }
    WordsUnfold(s, d, w);
    var u := Until(s, d);
    if s[0] == d {
      i, j := WordsAreRuns(s[1..], d, w);
      RunBounds(s[1..], d, i, j);
      RunAfter(s, d, 1, i, j);
      i, j := i + 1, j + 1;
    } else if w == s[..u] {
      FirstRun(s, d);
      i, j := 0, u;
    } else {
      i, j := WordsAreRuns(s[u..], d, w);
      RunBounds(s[u..], d, i, j);
      RunNotFirst(s, d, u, i, j);
      RunAfter(s, d, u, i, j);
      i, j := u + i, u + j;
    }
  }

  lemma NoWords(d: char)
    ensures Words([], d) == []
  {
  }

  lemma RunBounds(s: string, d: char, i: nat, j: nat)
    requires MaximalRun(s, d, i, j)
    ensures i < j <= |s| && s[i] != d
  {
    assert s[i] in s[i..j];
  }

  lemma FirstRun(s: string, d: char)
    requires s != [] && s[0] != d
    ensures MaximalRun(s, d, 0, Until(s, d)) && s[0..Until(s, d)] == s[..Until(s, d)]
  {
  }

  lemma RunNotFirst(s: string, d: char, u: nat, i: nat, j: nat)
    requires u < |s| && s[u] == d && MaximalRun(s[u..], d, i, j)
    ensures i > 0
  {
    assert s[u..][i] in s[u..][i..j];
  }

  function Join(ws: seq<string>, d: char): string {
    if ws == [] then []
    else if |ws| == 1 then ws[0]
    else ws[0] + [d] + Join(ws[1..], d)
  }

  predicate IsWord(w: string, d: char) {
    w != [] && d !in w
  }

  // Parsing undoes joining.
  lemma {:induction false} TokensOfJoin(ws: seq<string>, d: char)
    requires forall w :: w in ws ==> IsWord(w, d)
    ensures Tokens(Join(ws, d), d) == ws
    ensures ws != [] ==> Join(ws, d) != []
  {
    if ws != [] {
      assert IsWord(ws[0], d);
      TokensOfJoin(ws[1..], d);
      assert ws == [ws[0]] + ws[1..];
      if |ws| == 1 {
        TokensOfLast(ws[0], d);
      } else {
        TokensOfMore(ws[0], Join(ws[1..], d), d);
      }
    }
  }

  lemma TokensOfLast(w: string, d: char)
    requires IsWord(w, d)
    ensures Tokens(w, d) == [w]
  {
    UntilOfWord(w, [], d);
    assert w + [] == w;
  }

  lemma TokensOfMore(w: string, rest: string, d: char)
    requires IsWord(w, d) && rest != []
    ensures Tokens(w + [d] + rest, d) == [w] + Tokens(rest, d)
  {
    var s := w + [d] + rest;
    assert s == w + ([d] + rest);
    UntilOfWord(w, [d] + rest, d);
    assert s[..|w|] == w && s[|w| + 1..] == rest;
  }

  lemma {:induction false} UntilOfWord(w: string, rest: string, d: char)
    requires d !in w && (rest == [] || rest[0] == d)
    ensures Until(w + rest, d) == |w|
  {
    if w == [] {
      assert w + rest == rest;
    } else {
      assert (w + rest)[1..] == w[1..] + rest;
      UntilOfWord(w[1..], rest, d);
    }
  }

  // The reader sees the joined words as well.
  lemma {:induction false} WordsOfJoin(ws: seq<string>, d: char)
    requires forall w :: w in ws ==> IsWord(w, d)
    ensures Words(Join(ws, d), d) == ws
  {
    if ws != [] {
      var w := ws[0];
      assert IsWord(w, d) && ws == [w] + ws[1..];
      if |ws| == 1 {
        WordThenMore(w, [], d);
        assert w + [] == w;
      } else {
        var rest := Join(ws[1..], d);
        WordsOfJoin(ws[1..], d);
        WordThenMore(w, [d] + rest, d);
        assert w + [d] + rest == w + ([d] + rest);
        assert ([d] + rest)[1..] == rest;
      }
    }
  }

  lemma WordThenMore(w: string, rest: string, d: char)
    requires IsWord(w, d) && (rest == [] || rest[0] == d)
    ensures Words(w + rest, d) == [w] + Words(rest, d)
  {
    var s := w + rest;
    UntilOfWord(w, rest, d);
    assert s[0] == w[0] && w[0] in w;
    assert s[..|w|] == w && s[|w|..] == rest;
  }

  // The text without its trailing delimiters.
  function Core(s: string, d: char): (c: string)
    ensures |c| <= |s| && s[..|c|] == c
    ensures c != [] ==> c[|c| - 1] != d
    ensures forall i :: |c| <= i < |s| ==> s[i] == d
  {
    if s != [] && s[|s| - 1] == d then Core(s[..|s| - 1], d) else s
  }

  // No two delimiters next to each other.
  predicate NoDouble(s: string, d: char) {
    forall j :: 0 <= j < |s| - 1 ==> !(s[j] == d && s[j + 1] == d)
  }

  // No leading and no doubled delimiter in front of text, and not exactly one trailing one.
  predicate Parseable(s: string, d: char) {
    var c := Core(s, d);
    c == [] || (|s| - |c| != 1 && c[0] != d && NoDouble(c, d))
  }

  lemma {:induction false} WordsEmpty(s: string, d: char)
    ensures Words(s, d) == [] <==> Core(s, d) == []
  {
    if s != [] {
      if s[0] == d {
        WordsEmpty(s[1..], d);
        CoreOfTail(s, d);
      }
    }
  }

  lemma {:induction false} CoreOfTail(s: string, d: char)
    requires s != [] && s[0] == d
    ensures Core(s, d) == [] <==> Core(s[1..], d) == []
  {
    var c, t := Core(s, d), Core(s[1..], d);
    assert forall i :: 1 <= i < |s| ==> s[i] == s[1..][i - 1];
    assert forall i :: 0 <= i < |c| ==> c[i] == s[i];
    assert forall i :: 0 <= i < |t| ==> t[i] == s[1..][i];
  }

  // The tokenizer returns the words of a text exactly when the text is `Parseable`.
  lemma {:induction false} TokensAreWordsIff(s: string, d: char)
    ensures Tokens(s, d) == Words(s, d) <==> Parseable(s, d)
    decreases |s|
  {
    hide Parseable, Core, Until, Tokens, Words;
    var i := Until(s, d);
    if s == [] {
      EmptyText(d);
    } else if i == |s| {
      WholeWord(s, d);
    } else if i == |s| - 1 || i == 0 {
      WordsEmpty(s, d);
      StopsEarly(s, d);
    } else {
      var t := s[i + 1..];
      TokensAreWordsIff(t, d);
      FirstWord(s, d);
      SameAfterFirst(s[..i], Tokens(t, d), Words(t, d));
      ParseableStep(s, d);
    }
  }

  lemma EmptyText(d: char)
    ensures Tokens([], d) == Words([], d) && Parseable([], d)
  {
  }

  lemma SameAfterFirst(w: string, a: seq<string>, b: seq<string>)
    ensures [w] + a == [w] + b <==> a == b
  {
    assert ([w] + a)[1..] == a && ([w] + b)[1..] == b;
  }

  lemma FirstWord(s: string, d: char)
    requires 0 < Until(s, d) < |s| - 1
    ensures Tokens(s, d) == [s[..Until(s, d)]] + Tokens(s[Until(s, d) + 1..], d)
    ensures Words(s, d) == [s[..Until(s, d)]] + Words(s[Until(s, d) + 1..], d)
  {
    var i := Until(s, d);
    assert s[i..][1..] == s[i + 1..];
  }

  lemma WholeWord(s: string, d: char)
    requires s != [] && Until(s, d) == |s|
    ensures Tokens(s, d) == [s] && Words(s, d) == [s] && Parseable(s, d)
  {
    assert s[..|s|] == s;
    assert d !in s;
    assert s[|s|..] == [];
    assert s[|s| - 1] != d && s[0] != d;
  }

  lemma StopsEarly(s: string, d: char)
    requires s != [] && Until(s, d) < |s| && (Until(s, d) == |s| - 1 || Until(s, d) == 0)
    ensures Tokens(s, d) == [] && (Parseable(s, d) <==> Core(s, d) == [])
  {
    var i, c := Until(s, d), Core(s, d);
    if c != [] {
      if i == 0 {
        assert c[0] == s[0];
      } else {
        assert s[i] == d && s[i - 1] in s[..i] && s[i - 1] != d;
        assert forall j :: 0 <= j < |c| ==> c[j] == s[j];
        assert |c| == |s| - 1;
      }
    }
  }

  lemma ParseableStep(s: string, d: char)
    requires 0 < Until(s, d) < |s| - 1
    ensures Parseable(s, d) <==> Parseable(s[Until(s, d) + 1..], d)
  {
    hide Core, NoDouble, Until;
    var i := Until(s, d);
    var u := Core(s[i + 1..], d);
    assert s[0] in s[..i];
    CoreStep(s, d);
    if u != [] {
      NoDoubleAfter(s[..i], u, d);
      assert s[..i + 1] == s[..i] + [d];
      assert s[..i] + [d] + u == Core(s, d);
    } else {
      NoDoubleIn(s[..i], d);
    }
  }

  lemma NoDoubleIn(w: string, d: char)
    requires d !in w
    ensures NoDouble(w, d)
  {
    assert forall j :: 0 <= j < |w| ==> w[j] in w;
  }

  // A word and a delimiter in front add no double, unless a delimiter follows.
  lemma NoDoubleAfter(w: string, u: string, d: char)
    requires d !in w && u != []
    ensures NoDouble(w + [d] + u, d) <==> u[0] != d && NoDouble(u, d)
  {
    var c, i := w + [d] + u, |w|;
    assert c[i] == d && c[i + 1] == u[0];
    assert forall j :: 0 <= j < i ==> c[j] == w[j] && w[j] in w;
    assert forall j :: 0 <= j < |u| ==> c[i + 1 + j] == u[j];
    if NoDouble(c, d) {
      forall j | 0 <= j < |u| - 1 ensures !(u[j] == d && u[j + 1] == d) {
        assert u[j] == c[i + 1 + j] && u[j + 1] == c[i + 2 + j];
      }
    }
  }

  lemma CoreStep(s: string, d: char)
    requires 0 < Until(s, d) < |s| - 1
    ensures var i, u := Until(s, d), Core(s[Until(s, d) + 1..], d);
            Core(s, d) == if u == [] then s[..i] else s[..i + 1] + u
  {
    hide Core, Until;
    var i := Until(s, d);
    var t := s[i + 1..];
    var u := Core(t, d);
    var expected := if u == [] then s[..i] else s[..i + 1] + u;
    assert s[i - 1] in s[..i];
    forall j | |expected| <= j < |s| ensures s[j] == d {
      if j > i { assert s[j] == t[j - i - 1]; }
    }
    CoreIsUnique(s, d, expected);
  }

  lemma CoreIsUnique(s: string, d: char, c: string)
    requires |c| <= |s| && s[..|c|] == c && (c != [] ==> c[|c| - 1] != d)
    requires forall i :: |c| <= i < |s| ==> s[i] == d
    ensures c == Core(s, d)
  {
    var e := Core(s, d);
    assert forall j :: 0 <= j < |e| ==> e[j] == s[j];
    assert forall j :: 0 <= j < |c| ==> c[j] == s[j];
    assert |c| == |e|;
  }

  // "abcd " loses its only word, and " abcd" as well.
  lemma DelimitersCanLoseWords()
    ensures Tokens("abcd ", ' ') == [] && Words("abcd ", ' ') == ["abcd"]
    ensures Tokens(" abcd", ' ') == [] && Words(" abcd", ' ') == ["abcd"]
  {
    UntilOfWord("abcd", " ", ' ');
    assert "abcd" + " " == "abcd ";
    UntilOfWord("abcd", "", ' ');
    assert "abcd" + "" == "abcd";
    assert "abcd "[..4] == "abcd" && "abcd "[4..] == " " && " abcd"[1..] == "abcd";
    assert " "[1..] == "" && "abcd"[..4] == "abcd" && "abcd"[4..] == "";
  }

  // ------------------------------------------------ string_view and parse_string

  // A view over the characters of `buf` from `startp` to `endp` inclusive, or `empty`, the view
  // with null pointers.
  class StringView {
    const buf: string
    var isNull: bool
    var startp: nat
    var endp: int

    ghost predicate Valid()
      reads this
    {
      !isNull ==> startp <= endp + 1 <= |buf|
    }

    function Text(): string
      requires Valid()
      reads this
    {
      if isNull then [] else buf[startp..endp + 1]
    }

    // string_view(const char *): up to the NUL, which is dropped by stepping `endp` back.
    constructor (memory: string)
      requires '\0' in memory
      ensures Valid() && Text() == memory[..Until(memory, '\0')]
    {
      buf := memory;
      isNull := false;
      startp := 0;
      var ss := 0;
      while memory[ss] != '\0'
        invariant ss <= Until(memory, '\0') < |memory|
        decreases |memory| - ss
      {
        assert memory[ss] in memory[..ss + 1];
        ss := ss + 1;
      }
      endp := ss - 1;
      new;
      assert forall j :: 0 <= j < Until(memory, '\0') ==> memory[j] in memory[..Until(memory, '\0')];
    }

    // Takes the first token off the view.
    method Split(needle: char) returns (token: string)
      requires Valid()
      modifies this`isNull, this`startp
      ensures Valid()
      ensures token == FirstToken(old(Text()), needle)
      ensures Text() == AfterToken(old(Text()), needle)
    {
      hide Until, FirstToken, AfterToken;
      if Text() == [] {
        NoToken(needle);
        return [];
      }
      var newStart := startp;
      var ss := newStart;
      ghost var s := Text();
      while buf[ss] != needle && ss != endp
        invariant startp <= ss <= endp
        invariant needle !in s[..ss - startp]
        decreases endp - ss
      {
        assert s[..ss + 1 - startp] == s[..ss - startp] + [buf[ss]];
        ss := ss + 1;
      }
      ghost var k := ss - startp;
      assert s[k] == buf[ss];
      TokenAt(s, needle, k);
      if ss == endp && buf[endp] != needle {
        isNull := true;
        return buf[newStart..endp + 1];
      } else if ss == endp {
        isNull := true;
        return [];
      } else {
        startp := ss + 1;
      }
      assert buf[newStart..ss] == s[..k] && buf[ss + 1..endp + 1] == s[k + 1..];
      return buf[newStart..ss];
    }
  }

  function FirstToken(s: string, d: char): string {
    var i := Until(s, d);
    if i == |s| then s else if i == |s| - 1 then [] else s[..i]
  }

  function AfterToken(s: string, d: char): string {
    var i := Until(s, d);
    if i >= |s| - 1 then [] else s[i + 1..]
  }

  lemma NoToken(d: char)
    ensures FirstToken([], d) == [] && AfterToken([], d) == []
  {
  }

  // Where a scan stops that passed no delimiter: at the first one, or on the last character.
  lemma TokenAt(s: string, d: char, k: nat)
    requires k < |s| && d !in s[..k] && (s[k] == d || k == |s| - 1)
    ensures FirstToken(s, d) == if s[k] != d then s else if k == |s| - 1 then [] else s[..k]
    ensures AfterToken(s, d) == if k == |s| - 1 then [] else s[k + 1..]
  {
    var i := Until(s, d);
    assert forall j :: 0 <= j < k ==> s[j] in s[..k];
    assert forall j :: 0 <= j < i ==> s[j] in s[..i];
    assert i == if s[k] == d then k else |s|;
  }

  lemma TokensUnfold(s: string, d: char)
    ensures Tokens(s, d) == if FirstToken(s, d) == [] then [] else [FirstToken(s, d)] + Tokens(AfterToken(s, d), d)
    ensures s != [] ==> |AfterToken(s, d)| < |s|
    ensures s == [] ==> FirstToken(s, d) == []
  {
  }

  lemma Reassociate(a: seq<string>, w: string, b: seq<string>)
    ensures a + ([w] + b) == (a + [w]) + b
  {
  }

  // parse_string: the tokens handed to the callback, in order.
  method ParseString(memory: string, del: char) returns (tokens: seq<string>)
    requires '\0' in memory
    ensures tokens == Tokens(memory[..Until(memory, '\0')], del)
  {
    hide Tokens, FirstToken, AfterToken, Until;
    var view := new StringView(memory);
    ghost var all := Tokens(view.Text(), del);
    tokens := [];
    TokensUnfold(view.Text(), del);
    ghost var rest := view.Text();
    var token := view.Split(del);
    while token != []
      invariant view.Valid() && fresh(view)
      invariant token == FirstToken(rest, del) && view.Text() == AfterToken(rest, del)
      invariant all == tokens + Tokens(rest, del)
      decreases |rest|
    {
      TokensUnfold(rest, del);
      Reassociate(tokens, token, Tokens(view.Text(), del));
      tokens := tokens + [token];
      rest := view.Text();
      token := view.Split(del);
    }
    TokensUnfold(rest, del);
  }
}
