/**
 * The word splitter of the ScrollReveal component: the component's text is cut
 * with `text.split(/(\s+)/)` into words and the whitespace runs between them,
 * and every word is wrapped as a separately animated element keyed by its
 * position while whitespace runs are emitted as they are.
 */
module ScrollReveal {
  import opened JsText

  /** The tokens concatenated in order. */
  function Concat(tokens: seq<string>): string {
    if tokens == [] then [] else tokens[0] + Concat(tokens[1..])
  }

  /** The shape of a split on `/(\s+)/`: an odd number of tokens, words (free
      of whitespace) at even indices and non-empty whitespace runs at odd
      indices; only the first and the last word may be empty, so that every
      run is maximal. */
  ghost predicate WellSplit(tokens: seq<string>) {
    && |tokens| % 2 == 1
    && (forall i :: 0 <= i < |tokens| && i % 2 == 0 ==> NoWhitespace(tokens[i]))
    && (forall i :: 0 <= i < |tokens| && i % 2 == 1 ==> tokens[i] != [] && AllWhitespace(tokens[i]))
    && (forall i :: 0 < i < |tokens| - 1 && i % 2 == 0 ==> tokens[i] != [])
  }

  /** Length of the longest prefix of `s` that holds no whitespace. */
  function WordLength(s: string): (n: nat)
    ensures n <= |s| && NoWhitespace(s[..n])
    ensures n == |s| || IsWhitespace(s[n])
  {
    if s == [] || IsWhitespace(s[0]) then 0
    else
      var n := WordLength(s[1..]);
      assert s[..n + 1] == [s[0]] + s[1..][..n];
      n + 1
  }

  /** Length of the longest prefix of `s` that is all whitespace. */
  function RunLength(s: string): (n: nat)
    ensures n <= |s| && AllWhitespace(s[..n])
    ensures n == |s| || !IsWhitespace(s[n])
  {
    if s == [] || !IsWhitespace(s[0]) then 0
    else
      var n := RunLength(s[1..]);
      assert s[..n + 1] == [s[0]] + s[1..][..n];
      n + 1
  }

  lemma ConcatCons2(a: string, b: string, rest: seq<string>)
    ensures Concat([a, b] + rest) == a + b + Concat(rest)
  {
    assert ([a, b] + rest)[1..] == [b] + rest;
    assert ([b] + rest)[1..] == rest;
  }

  /** A well-formed split that does not start with whitespace, once
      concatenated, has a non-empty first word unless it is that word alone. */
  lemma FirstWordNonEmpty(tail: seq<string>)
    requires WellSplit(tail) && |tail| > 1
    requires Concat(tail) == [] || !IsWhitespace(Concat(tail)[0])
    ensures tail[0] != []
  {
    var next := tail[1] + Concat(tail[2..]);
    assert tail[1..][1..] == tail[2..];
    assert Concat(tail) == tail[0] + next;
    assert IsWhitespace(next[0]);
  }

  /** A word and a whitespace run put in front of a well-formed split that
      does not itself start with whitespace give a well-formed split. */
  lemma WellSplitCons(w: string, r: string, tail: seq<string>)
    requires NoWhitespace(w) && r != [] && AllWhitespace(r)
    requires WellSplit(tail)
    requires Concat(tail) == [] || !IsWhitespace(Concat(tail)[0])
    ensures WellSplit([w, r] + tail)
  {
    var tokens := [w, r] + tail;
    if |tail| > 1 {
      FirstWordNonEmpty(tail);
    }
    forall i | 0 <= i < |tokens| && i % 2 == 0 ensures NoWhitespace(tokens[i]) {
      if i >= 2 { assert tokens[i] == tail[i - 2]; }
    }
    forall i | 0 <= i < |tokens| && i % 2 == 1 ensures tokens[i] != [] && AllWhitespace(tokens[i]) {
      if i >= 2 { assert tokens[i] == tail[i - 2]; }
    }
    forall i | 0 < i < |tokens| - 1 && i % 2 == 0 ensures tokens[i] != [] {
      assert tokens[i] == tail[i - 2];
    }
  }

  /** `text.split(/(\s+)/)`: the words of `s` with, between each two, the
      maximal whitespace run that separated them (kept because the pattern
      captures it). */
  function SplitWs(s: string): (tokens: seq<string>)
    ensures |tokens| % 2 == 1
    decreases |s|
  {
    var w := WordLength(s);
    if w == |s| then [s]
    else
      var rest := s[w..];
      var k := RunLength(rest);
      assert 0 < k by {
        assert rest[0] == s[w];
      }
      [s[..w], rest[..k]] + SplitWs(rest[k..])
  }

  /** One step of the split: the leading word and the run after it, put in
      front of a well-formed split of the rest, give a well-formed split of
      the whole. */
  lemma SplitCons(s: string, w: nat, k: nat, tail: seq<string>)
    requires w == WordLength(s) < |s| && k == RunLength(s[w..])
    requires Concat(tail) == s[w..][k..] && WellSplit(tail)
    ensures Concat([s[..w], s[w..][..k]] + tail) == s
    ensures WellSplit([s[..w], s[w..][..k]] + tail)
  {
    var rest := s[w..];
    assert rest[0] == s[w];
    ConcatCons2(s[..w], rest[..k], tail);
    assert s == s[..w] + rest[..k] + rest[k..] by {
      assert rest == rest[..k] + rest[k..];
      assert s == s[..w] + rest;
    }
    WellSplitCons(s[..w], rest[..k], tail);
  }

  /** The tokens give back `s` when concatenated and have the shape
      `WellSplit` describes. */
  lemma {:induction false} SplitWsShape(s: string)
    ensures Concat(SplitWs(s)) == s
    ensures WellSplit(SplitWs(s))
    decreases |s|
  {
    var w := WordLength(s);
    if w == |s| {
      assert Concat([s]) == s + Concat([]);
      assert s[..w] == s;
    } else {
      var rest := s[w..];
      var k := RunLength(rest);
      assert rest[0] == s[w];
      SplitWsShape(rest[k..]);
      SplitCons(s, w, k, SplitWs(rest[k..]));
    }
  }

  /** `WordLength` is the only cut point with a whitespace-free prefix that
      ends at whitespace or at the end. */
  lemma {:induction false} WordLengthUnique(s: string, n: nat)
    requires n <= |s| && NoWhitespace(s[..n]) && (n == |s| || IsWhitespace(s[n]))
    ensures WordLength(s) == n
  {
    if s != [] && !IsWhitespace(s[0]) {
      assert n > 0;
      assert s[1..][..n - 1] == s[..n][1..];
      WordLengthUnique(s[1..], n - 1);
    }
  }

  /** `RunLength` is the only cut point with an all-whitespace prefix that
      ends at a non-whitespace character or at the end. */
  lemma {:induction false} RunLengthUnique(s: string, n: nat)
    requires n <= |s| && AllWhitespace(s[..n]) && (n == |s| || !IsWhitespace(s[n]))
    ensures RunLength(s) == n
  {
    if s != [] && IsWhitespace(s[0]) {
      assert n > 0;
      assert s[1..][..n - 1] == s[..n][1..];
      RunLengthUnique(s[1..], n - 1);
    }
  }

  /** A well-formed split with more than one token after its first word and
      run starts, once concatenated, with a non-whitespace character. */
  lemma TailStart(tokens: seq<string>)
    requires WellSplit(tokens) && |tokens| > 1
    ensures var tail := tokens[2..];
      WellSplit(tail) && (Concat(tail) == [] || !IsWhitespace(Concat(tail)[0]))
  {
    var tail := tokens[2..];
    assert forall i :: 0 <= i < |tail| ==> tail[i] == tokens[i + 2];
    if Concat(tail) != [] {
      assert Concat(tail) == tail[0] + Concat(tail[1..]);
      if |tail| == 1 { assert Concat(tail[1..]) == []; }
      assert Concat(tail)[0] == tail[0][0];
    }
  }

  /** The split is the only token list of that shape that concatenates to
      `s`: `WellSplit` and `Concat` together characterise `SplitWs`. */
  lemma {:induction false} SplitWsUnique(s: string, tokens: seq<string>)
    requires WellSplit(tokens) && Concat(tokens) == s
    ensures tokens == SplitWs(s)
    decreases |tokens|
  {
    var w := tokens[0];
    if |tokens| == 1 {
      assert Concat(tokens) == w + Concat([]);
      assert s == w && s[..|s|] == s;
      WordLengthUnique(s, |s|);
    } else {
      var r, tail := tokens[1], tokens[2..];
      assert tokens == [w, r] + tail;
      ConcatCons2(w, r, tail);
      assert s[..|w|] == w && s[|w|] == r[0];
      WordLengthUnique(s, |w|);
      TailStart(tokens);
      var rest := s[|w|..];
      assert rest == r + Concat(tail);
      assert rest[..|r|] == r && rest[|r|..] == Concat(tail);
      RunLengthUnique(rest, |r|);
      SplitWsUnique(Concat(tail), tail);
    }
  }

  /** The `children` prop: only a string is split; anything else counts as
      the empty string. */
  datatype Children = Text(value: string) | NotText

  /** One rendered token: a whitespace run emitted as it is, or any other
      token wrapped in a `word` element keyed by its index in the split. */
  datatype Piece = Space(text: string) | Word(text: string, key: nat)

  /** The test `/^\s+$/` applied to a token: it holds exactly when the
      token is non-empty and its leading whitespace run is all of it. */
  predicate IsSpaceRun(token: string): (run: bool)
    ensures run <==> token != [] && RunLength(token) == |token|
  {
    token != [] && AllWhitespace(token)
  }

  /** The text the component splits. */
  function TextOf(children: Children): (text: string)
    ensures children.Text? ==> text == children.value
    ensures children.NotText? ==> text == ""
  {
    match children
    case Text(value) => value
    case NotText => ""
  }

  /** The per-token step of the `map`. */
  function Render(token: string, index: nat): (piece: Piece)
    ensures piece.text == token
    ensures piece.Space? <==> token != [] && AllWhitespace(token)
    ensures piece.Word? ==> piece.key == index
  {
    if IsSpaceRun(token) then Space(token) else Word(token, index)
  }

  /** The rendered texts concatenated in order. */
  function Texts(pieces: seq<Piece>): string {
    if pieces == [] then [] else pieces[0].text + Texts(pieces[1..])
  }

  /** Pieces that carry the tokens' texts in order concatenate like the tokens. */
  lemma {:induction false} TextsOfRendered(pieces: seq<Piece>, tokens: seq<string>)
    requires |pieces| == |tokens|
    requires forall i :: 0 <= i < |pieces| ==> pieces[i].text == tokens[i]
    ensures Texts(pieces) == Concat(tokens)
  {
    if pieces != [] {
      TextsOfRendered(pieces[1..], tokens[1..]);
    }
  }

  /** In a well-formed split the words render as words and the runs as
      whitespace: the content test of the `map` agrees with the position. */
  lemma RenderAlternates(tokens: seq<string>)
    requires WellSplit(tokens)
    ensures forall i :: 0 <= i < |tokens| ==> (Render(tokens[i], i).Space? <==> i % 2 == 1)
  {
    forall i | 0 <= i < |tokens| && i % 2 == 0 && tokens[i] != []
      ensures !IsSpaceRun(tokens[i])
    {
      assert !IsWhitespace(tokens[i][0]);
    }
  }

  /** The `splitText` memo of the component: one piece per token of
      `text.split(/(\s+)/)`, in order and with the token's text unchanged;
      words sit at the even positions and carry their index as key, whitespace
      runs sit at the odd positions. */
  function SplitText(children: Children): (pieces: seq<Piece>)
    ensures var tokens := SplitWs(TextOf(children));
      && |pieces| == |tokens|
      && (forall i :: 0 <= i < |pieces| ==> pieces[i].text == tokens[i])
      && (forall i :: 0 <= i < |pieces| ==> (pieces[i].Space? <==> i % 2 == 1))
      && (forall i :: 0 <= i < |pieces| && pieces[i].Word? ==> pieces[i].key == i)
  {
    var tokens := SplitWs(TextOf(children));
    SplitWsShape(TextOf(children));
    RenderAlternates(tokens);
    seq(|tokens|, i requires 0 <= i < |tokens| => Render(tokens[i], i))
  }

  /** The rendered texts, in order, give back the component's whole text. */
  lemma SplitTextRoundTrip(children: Children)
    ensures Texts(SplitText(children)) == TextOf(children)
  {
    SplitWsShape(TextOf(children));
    TextsOfRendered(SplitText(children), SplitWs(TextOf(children)));
  }

  /** A child that is not a string renders as a single empty word. */
  lemma SplitTextNotText()
    ensures SplitText(NotText) == [Word("", 0)]
  {
    assert WordLength("") == 0;
  }
}
