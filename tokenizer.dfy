/** The text-level rules of the indexator's `tokenize`: the whitespace
    split, the anchored shape `SPECIFIC_TERM` (a punctuation run, an
    alphanumeric run, a punctuation run) and the tokens a chunk yields. */
module Tokenizing {
  import opened Records

  /** The character class `[a-zA-Z0-9À-ÿ]` (U+00C0 to U+00FF, which
      includes × and ÷). */
  predicate IsAlphanumeric(c: char)
  {
    ('a' <= c <= 'z') || ('A' <= c <= 'Z') || ('0' <= c <= '9') || ('\U{C0}' <= c <= '\U{FF}')
  }

  /** `\d`: an ASCII digit. */
  predicate IsDigit(c: char)
  {
    '0' <= c <= '9'
  }

  /** `\s`: the JavaScript white-space and line-terminator characters. */
  predicate IsSpace(c: char)
  {
    c in SpaceCharacters || '\U{2000}' <= c <= '\U{200A}'
  }

  /** The white-space characters outside the range U+2000..U+200A. */
  const SpaceCharacters: set<char> := {
    '\t', '\n', '\U{B}', '\U{C}', '\r', ' ', '\U{A0}', '\U{1680}',
    '\U{2028}', '\U{2029}', '\U{202F}', '\U{205F}', '\U{3000}', '\U{FEFF}'}

  /** `SEPARATOR`, emitted for each punctuation run. */
  const Separator := "#"

  predicate NoSpace(s: string)
  {
    forall c :: c in s ==> !IsSpace(c)
  }

  predicate NoAlphanumeric(s: string)
  {
    forall c :: c in s ==> !IsAlphanumeric(c)
  }

  predicate AllAlphanumeric(s: string)
  {
    forall c :: c in s ==> IsAlphanumeric(c)
  }

  // ---------------------------------------------------------------------
  // `text.split(/\s/g)`

  /** The pieces between white-space characters; an empty text is one
      empty piece, and adjacent white space gives empty pieces. */
  function Chunks(text: string): (chunks: seq<string>)
    ensures |chunks| == |Separators(text)| + 1
  {
    if text == [] then [""]
    else
      var init := Chunks(text[..|text| - 1]);
      var c := text[|text| - 1];
      if IsSpace(c) then init + [""]
      else init[..|init| - 1] + [init[|init| - 1] + [c]]
  }

  /** The white-space characters of `text`, in order. */
  function Separators(text: string): (seps: string)
    ensures |seps| <= |text|
  {
    if text == [] then []
    else Separators(text[..|text| - 1]) + (if IsSpace(text[|text| - 1]) then [text[|text| - 1]] else [])
  }

  /** Reference inverse of the split: the pieces glued back together with
      the separators between them. */
  function Interleave(chunks: seq<string>, seps: string): string
    requires |chunks| == |seps| + 1
  {
    if seps == [] then chunks[0]
    else Interleave(chunks[..|chunks| - 1], seps[..|seps| - 1]) + [seps[|seps| - 1]] + chunks[|chunks| - 1]
  }

  lemma InterleaveExtendLast(chunks: seq<string>, seps: string, x: string)
    requires |chunks| == |seps| + 1
    ensures Interleave(chunks[..|chunks| - 1] + [chunks[|chunks| - 1] + x], seps) == Interleave(chunks, seps) + x
  {
    var extended := chunks[..|chunks| - 1] + [chunks[|chunks| - 1] + x];
    if seps != [] {
      assert extended[..|extended| - 1] == chunks[..|chunks| - 1];
    }
  }

  /** Splitting loses nothing: the pieces and the white space they were cut
      at give back the text. */
  lemma {:induction false} ChunksRoundTrip(text: string)
    ensures Interleave(Chunks(text), Separators(text)) == text
  {
    if text != [] {
      var init := text[..|text| - 1];
      var c := text[|text| - 1];
      ChunksRoundTrip(init);
      var chunks := Chunks(init);
      if IsSpace(c) {
        assert (chunks + [""])[..|chunks|] == chunks;
        assert (Separators(init) + [c])[..|Separators(init)|] == Separators(init);
      } else {
        InterleaveExtendLast(chunks, Separators(init), [c]);
        assert Separators(text) == Separators(init);
      }
      assert init + [c] == text;
    }
  }

  /** No piece contains white space. */
  lemma {:induction false} ChunksHaveNoSpace(text: string)
    ensures forall i :: 0 <= i < |Chunks(text)| ==> NoSpace(Chunks(text)[i])
  {
    if text != [] {
      var init := text[..|text| - 1];
      var c := text[|text| - 1];
      ChunksHaveNoSpace(init);
      var chunks := Chunks(init);
      if !IsSpace(c) {
        var last := chunks[|chunks| - 1];
        assert forall x :: x in last + [c] ==> x in last || x == c;
      }
    }
  }

  /** The separators are white space. */
  lemma {:induction false} SeparatorsAreSpace(text: string)
    ensures forall i :: 0 <= i < |Separators(text)| ==> IsSpace(Separators(text)[i])
  {
    if text != [] {
      SeparatorsAreSpace(text[..|text| - 1]);
    }
  }

  // ---------------------------------------------------------------------
  // `SPECIFIC_TERM`

  /** The three groups of a match. */
  datatype Shape = Shape(lead: string, word: string, trail: string)

  /** `s` is matched by the anchored pattern with these groups. The two
      alternatives of the outer groups coincide, since `[!\-;:,.?]*` only
      matches non-alphanumeric runs. */
  predicate SpecificTerm(s: string, sh: Shape)
  {
    && s == sh.lead + sh.word + sh.trail
    && NoAlphanumeric(sh.lead)
    && sh.word != [] && AllAlphanumeric(sh.word)
    && NoAlphanumeric(sh.trail)
  }

  /** Length of the non-alphanumeric run at the front of `s`. */
  function LeadLength(s: string): (n: nat)
    ensures n <= |s| && NoAlphanumeric(s[..n])
    ensures n < |s| ==> IsAlphanumeric(s[n])
  {
    if s != [] && !IsAlphanumeric(s[0]) then
      var n := 1 + LeadLength(s[1..]);
      assert s[..n] == [s[0]] + s[1..][..n - 1];
      n
    else 0
  }

  /** Length of the alphanumeric run at the front of `s`. */
  function WordLength(s: string): (n: nat)
    ensures n <= |s| && AllAlphanumeric(s[..n])
    ensures n < |s| ==> !IsAlphanumeric(s[n])
  {
    if s != [] && IsAlphanumeric(s[0]) then
      var n := 1 + WordLength(s[1..]);
      assert s[..n] == [s[0]] + s[1..][..n - 1];
      n
    else 0
  }

  /** One `exec` of `SPECIFIC_TERM` on a whole chunk: the greedy groups, or
      no match. */
  function MatchSpecificTerm(s: string): (r: Option<Shape>)
    ensures r.Some? ==> SpecificTerm(s, r.value)
  {
    var i := LeadLength(s);
    var j := i + WordLength(s[i..]);
    assert s[i..][..j - i] == s[i..j];
    if i < j && NoAlphanumeric(s[j..]) then
      assert s == s[..i] + s[i..j] + s[j..];
      Some(Shape(s[..i], s[i..j], s[j..]))
    else None
  }

  lemma {:induction false} LeadLengthOf(s: string, k: nat)
    requires k < |s| && NoAlphanumeric(s[..k]) && IsAlphanumeric(s[k])
    ensures LeadLength(s) == k
  {
    if k > 0 {
      assert s[0] in s[..k];
      assert s[1..][..k - 1] == s[1..k];
      assert forall c :: c in s[1..k] ==> c in s[..k];
      LeadLengthOf(s[1..], k - 1);
    }
  }

  lemma {:induction false} WordLengthOf(s: string, k: nat)
    requires k <= |s| && AllAlphanumeric(s[..k])
    requires k < |s| ==> !IsAlphanumeric(s[k])
    ensures WordLength(s) == k
  {
    if k > 0 {
      assert s[0] in s[..k];
      assert s[1..][..k - 1] == s[1..k];
      assert forall c :: c in s[1..k] ==> c in s[..k];
      WordLengthOf(s[1..], k - 1);
    }
  }

  /** The decomposition is unique, and the match finds it: a chunk has the
      shape exactly when `MatchSpecificTerm` returns it. */
  lemma SpecificTermMatches(s: string, sh: Shape)
    requires SpecificTerm(s, sh)
    ensures MatchSpecificTerm(s) == Some(sh)
  {
    var i := |sh.lead|;
    var j := i + |sh.word|;
    assert s[..i] == sh.lead && s[i..j] == sh.word && s[j..] == sh.trail;
    assert s[i] == sh.word[0];
    LeadLengthOf(s, i);
    assert s[i..][..j - i] == sh.word;
    if j < |s| {
      assert s[j] == sh.trail[0];
      assert s[i..][j - i] == s[j];
    }
    WordLengthOf(s[i..], j - i);
  }

  /** A chunk whose alphanumeric characters are split by punctuation has
      no match. */
  lemma InnerPunctuationNoMatch(s: string, p: nat, q: nat, r: nat)
    requires p < q < r < |s|
    requires IsAlphanumeric(s[p]) && !IsAlphanumeric(s[q]) && IsAlphanumeric(s[r])
    ensures MatchSpecificTerm(s).None?
  {
    var i := LeadLength(s);
    var j := i + WordLength(s[i..]);
    if i < j && NoAlphanumeric(s[j..]) {
      assert false;
    }
  }

  // ---------------------------------------------------------------------
  // Tokens.

  /** What the loop over the groups 1 to 3 of a match pushes for the
      first `j` groups: the word itself, or the separator for a non-empty
      punctuation run. */
  function GroupTokens(sh: Shape, j: nat): seq<string>
    requires j <= 3
  {
    if j == 0 then []
    else
      var g := [sh.lead, sh.word, sh.trail][j - 1];
      GroupTokens(sh, j - 1) + (if |g| > 0 then (if j == 2 then [g] else [Separator]) else [])
  }

  /** The tokens of one lowercased chunk. */
  function ChunkTokens(s: string): seq<string>
  {
    match MatchSpecificTerm(s)
    case None => []
    case Some(sh) => GroupTokens(sh, 3)
  }

  /** The tokens of the chunks, in order. */
  function TokensOf(chunks: seq<string>, lower: string -> string): seq<string>
  {
    if chunks == [] then []
    else TokensOf(chunks[..|chunks| - 1], lower) + ChunkTokens(lower(chunks[|chunks| - 1]))
  }

  lemma TokensOfPrefix(chunks: seq<string>, i: nat, lower: string -> string)
    requires i < |chunks|
    ensures TokensOf(chunks[..i + 1], lower) == TokensOf(chunks[..i], lower) + ChunkTokens(lower(chunks[i]))
  {
    assert chunks[..i + 1][..i] == chunks[..i];
  }

  /** `tokenize(text)`, with `toLowerCase` supplied as `lower`. */
  function Tokens(text: string, lower: string -> string): seq<string>
  {
    TokensOf(Chunks(text), lower)
  }

  /** A matched chunk yields a separator for a non-empty leading run, the
      word, and a separator for a non-empty trailing run; any other chunk
      yields nothing. */
  lemma ChunkTokensSpec(s: string)
    ensures MatchSpecificTerm(s).None? ==> ChunkTokens(s) == []
    ensures MatchSpecificTerm(s).Some? ==>
              var sh := MatchSpecificTerm(s).value;
              ChunkTokens(s) == (if sh.lead != [] then [Separator] else []) + [sh.word]
                                + (if sh.trail != [] then [Separator] else [])
  {
    if MatchSpecificTerm(s).Some? {
      var sh := MatchSpecificTerm(s).value;
      assert GroupTokens(sh, 1) == (if sh.lead != [] then [Separator] else []);
      assert GroupTokens(sh, 2) == GroupTokens(sh, 1) + [sh.word];
    }
  }

  predicate IsToken(t: string)
  {
    t == Separator || (t != [] && AllAlphanumeric(t))
  }

  lemma {:induction false} TokensOfAreTokens(chunks: seq<string>, lower: string -> string)
    ensures forall i :: 0 <= i < |TokensOf(chunks, lower)| ==> IsToken(TokensOf(chunks, lower)[i])
  {
    if chunks != [] {
      var init := chunks[..|chunks| - 1];
      TokensOfAreTokens(init, lower);
      var s := lower(chunks[|chunks| - 1]);
      ChunkTokensAreTokens(s);
      var before := TokensOf(init, lower);
      var added := ChunkTokens(s);
      assert TokensOf(chunks, lower) == before + added;
      forall i | 0 <= i < |before + added|
        ensures IsToken((before + added)[i])
      {
        if i < |before| {
          assert (before + added)[i] == before[i];
        } else {
          assert (before + added)[i] == added[i - |before|];
        }
      }
    }
  }

  lemma ChunkTokensAreTokens(s: string)
    ensures forall i :: 0 <= i < |ChunkTokens(s)| ==> IsToken(ChunkTokens(s)[i])
  {
    ChunkTokensSpec(s);
    var m := MatchSpecificTerm(s);
    if m.Some? {
      var sh := m.value;
      var lead := if sh.lead != [] then [Separator] else [];
      var trail := if sh.trail != [] then [Separator] else [];
      assert IsToken(sh.word);
      assert IsToken(Separator);
      var ts := lead + [sh.word] + trail;
      assert ChunkTokens(s) == ts;
      forall i | 0 <= i < |ts|
        ensures IsToken(ts[i])
      {
        assert ts[i] == sh.word || ts[i] == Separator;
      }
    }
  }

  /** Every token is the separator or a non-empty alphanumeric word. */
  lemma TokensAreWordsOrSeparators(text: string, lower: string -> string)
    ensures forall i :: 0 <= i < |Tokens(text, lower)| ==> IsToken(Tokens(text, lower)[i])
  {
    TokensOfAreTokens(Chunks(text), lower);
  }

  /** The empty text is a single empty chunk, which does not match. */
  lemma EmptyTextNoTokens(lower: string -> string)
    requires lower("") == ""
    ensures Tokens("", lower) == []
  {
    assert [""][..0] == [];
  }

  /** Words separated by single spaces are split back into those words. */
  lemma SpaceSeparatedChunks(a: string, b: string, c: string)
    requires NoSpace(a) && NoSpace(b) && NoSpace(c)
    ensures Chunks(a + " " + b + " " + c) == [a, b, c]
  {
    TwoWordsAndSpace(a, b);
    ChunksSnoc(a + " " + b + " ", c);
    assert [a, b, ""][..2] == [a, b] && "" + c == c;
  }

  lemma TwoWordsAndSpace(a: string, b: string)
    requires NoSpace(a) && NoSpace(b)
    ensures Chunks(a + " " + b + " ") == [a, b, ""]
  {
    OneWordAndSpace(a);
    ChunksSnoc(a + " ", b);
    assert [a, ""][..1] == [a] && "" + b == b;
    ChunksSpace(a + " " + b, ' ');
  }

  lemma OneWordAndSpace(a: string)
    requires NoSpace(a)
    ensures Chunks(a + " ") == [a, ""]
  {
    assert Chunks("") == [""];
    assert [""][..0] == [];
    ChunksSnoc("", a);
    assert "" + a == a;
    ChunksSpace(a, ' ');
  }

  /** Three alphanumeric words separated by single spaces are the tokens,
      whenever lowercasing leaves them as they are. */
  lemma ThreeWordTokens(a: string, b: string, c: string, lower: string -> string)
    requires a != [] && b != [] && c != []
    requires AllAlphanumeric(a) && AllAlphanumeric(b) && AllAlphanumeric(c)
    requires lower(a) == a && lower(b) == b && lower(c) == c
    ensures Tokens(a + " " + b + " " + c, lower) == [a, b, c]
  {
    AlphanumericNoSpace(a);
    AlphanumericNoSpace(b);
    AlphanumericNoSpace(c);
    SpaceSeparatedChunks(a, b, c);
    WordTokens(a);
    WordTokens(b);
    WordTokens(c);
    ThreeChunkTokens(a, b, c, lower);
  }

  lemma ThreeChunkTokens(a: string, b: string, c: string, lower: string -> string)
    requires ChunkTokens(lower(a)) == [a] && ChunkTokens(lower(b)) == [b] && ChunkTokens(lower(c)) == [c]
    ensures TokensOf([a, b, c], lower) == [a, b, c]
  {
    TokensOfSnoc([], a, lower);
    assert [] + [a] == [a];
    TokensOfSnoc([a], b, lower);
    assert [a] + [b] == [a, b];
    TokensOfSnoc([a, b], c, lower);
    assert [a, b] + [c] == [a, b, c];
  }

  lemma TokensOfSnoc(cs: seq<string>, c: string, lower: string -> string)
    ensures TokensOf(cs + [c], lower) == TokensOf(cs, lower) + ChunkTokens(lower(c))
  {
    assert (cs + [c])[..|cs|] == cs;
  }

  lemma AlphanumericNoSpace(s: string)
    requires AllAlphanumeric(s)
    ensures NoSpace(s)
  {
  }

  /** The documented example: 'my sample sentence' gives its three words. */
  lemma DocumentedTokens(text: string, lower: string -> string)
    requires text == "my sample sentence"
    requires lower("my") == "my" && lower("sample") == "sample" && lower("sentence") == "sentence"
    ensures Tokens(text, lower) == ["my", "sample", "sentence"]
  {
    ExampleWords();
    ExampleText();
    ThreeWordTokens("my", "sample", "sentence", lower);
  }

  lemma ExampleText()
    ensures "my" + " " + "sample" + " " + "sentence" == "my sample sentence"
  {
  }

  lemma ExampleWords()
    ensures AllAlphanumeric("my") && AllAlphanumeric("sample") && AllAlphanumeric("sentence")
  {
    Letters("my");
    Letters("sample");
    Letters("sentence");
  }

  /** A word of lower-case ASCII letters is alphanumeric. */
  lemma {:induction false} Letters(s: string)
    requires forall i :: 0 <= i < |s| ==> 'a' <= s[i] <= 'z'
    ensures AllAlphanumeric(s)
  {
    forall c | c in s
      ensures IsAlphanumeric(c)
    {
      var i :| 0 <= i < |s| && s[i] == c;
    }
  }

  /** Appending white-space-free text extends the last piece. */
  lemma {:induction false} ChunksSnoc(text: string, w: string)
    requires NoSpace(w)
    ensures Chunks(text + w)
         == Chunks(text)[..|Chunks(text)| - 1] + [Chunks(text)[|Chunks(text)| - 1] + w]
  {
    var cs := Chunks(text);
    var last := cs[|cs| - 1];
    if w == [] {
      assert text + w == text;
      assert last + w == last;
    } else {
      var v := w[..|w| - 1];
      var c := w[|w| - 1];
      NoSpaceInit(w);
      ChunksSnoc(text, v);
      AppendSnoc(text, w);
      ChunksLetter(text + v, c);
      AppendSnoc(last, w);
    }
  }

  lemma AppendSnoc(a: string, w: string)
    requires w != []
    ensures a + w == (a + w[..|w| - 1]) + [w[|w| - 1]]
  {
  }

  lemma NoSpaceInit(w: string)
    requires NoSpace(w) && w != []
    ensures NoSpace(w[..|w| - 1]) && !IsSpace(w[|w| - 1])
  {
    assert forall x :: x in w[..|w| - 1] ==> x in w;
    assert w[|w| - 1] in w;
  }

  /** Any other character extends the last piece. */
  lemma ChunksLetter(text: string, c: char)
    requires !IsSpace(c)
    ensures Chunks(text + [c])
         == Chunks(text)[..|Chunks(text)| - 1] + [Chunks(text)[|Chunks(text)| - 1] + [c]]
  {
    assert (text + [c])[..|text|] == text;
  }

  /** White space starts a new, empty piece. */
  lemma ChunksSpace(text: string, c: char)
    requires IsSpace(c)
    ensures Chunks(text + [c]) == Chunks(text) + [""]
  {
    assert (text + [c])[..|text|] == text;
  }

  /** A non-empty chunk of alphanumerics yields itself. */
  lemma WordTokens(s: string)
    requires s != [] && AllAlphanumeric(s)
    ensures ChunkTokens(s) == [s]
  {
    var sh := Shape("", s, "");
    assert s == sh.lead + sh.word + sh.trail;
    SpecificTermMatches(s, sh);
    ChunkTokensSpec(s);
  }
}
