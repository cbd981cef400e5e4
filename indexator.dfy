/** The indexator of src/indexator.js: tokenising, tag translation,
    lemmatising, sanitising, and `index`, which runs the whole pipeline and
    scores the extracted terms. */
module Indexation {
  import opened Records
  import opened Filters
  import opened Tagging
  import opened TermExtraction
  import opened Tokenizing
  import opened Scoring

  // ---------------------------------------------------------------------
  // `translateTag`

  /** The lemmatizer's word categories. */
  datatype Category = Adv | Adj | Noun | Verb

  predicate IsUpper(c: char)
  {
    'A' <= c <= 'Z'
  }

  /** `tag` contains `letter` followed by an upper-case letter: the test
      `N[A-Z]{1,3}` (or `V[A-Z]{1,3}`) makes on a tag, since the optional
      bars and the letters after the first never decide a match. */
  function HasFamily(tag: string, letter: char): (r: bool)
    ensures r <==> exists i :: 0 <= i < |tag| - 1 && tag[i] == letter && IsUpper(tag[i + 1])
  {
    if |tag| < 2 then false
    else if tag[0] == letter && IsUpper(tag[1]) then true
    else
      HasFamily(tag[1..], letter)
  }

  /** `translateTag(tag)`: `None` stands for `false`. */
  function TranslateTag(tag: string): (r: Option<Category>)
    ensures r == Some(Adv) <==> tag == "RB"
    ensures r == Some(Adj) <==> tag == "JJ"
    ensures r == Some(Category.Noun) <==> tag != "RB" && tag != "JJ" && HasFamily(tag, 'N')
    ensures r == Some(Verb) <==> tag != "RB" && tag != "JJ" && !HasFamily(tag, 'N') && HasFamily(tag, 'V')
    ensures r == None <==> tag != "RB" && tag != "JJ" && !HasFamily(tag, 'N') && !HasFamily(tag, 'V')
  {
    if tag == "RB" then Some(Adv)
    else if tag == "JJ" then Some(Adj)
    else if HasFamily(tag, 'N') then Some(Category.Noun)
    else if HasFamily(tag, 'V') then Some(Verb)
    else None
  }

  /** The documented translations. */
  lemma DocumentedTranslations()
    ensures TranslateTag("RB") == Some(Adv) && TranslateTag("JJ") == Some(Adj)
    ensures TranslateTag("NN") == Some(Category.Noun) && TranslateTag("NNP") == Some(Category.Noun)
    ensures TranslateTag("VBG") == Some(Verb) && TranslateTag("VBN") == Some(Verb)
    ensures TranslateTag("DT") == None
  {
    assert "NN"[0] == 'N' && "NN"[1] == 'N';
    assert "NNP"[0] == 'N' && "NNP"[1] == 'N';
    assert "VBG"[0] == 'V' && "VBG"[1] == 'B';
    assert "VBN"[0] == 'V' && "VBN"[1] == 'B';
    assert !HasFamily("VBG", 'N') && !HasFamily("VBN", 'N') by {
      assert "VBG"[1] == 'B' && "VBN"[1] == 'B';
    }
  }

  /** The noun test comes first: a tag of both families is a noun. */
  lemma NounBeforeVerb(tag: string)
    requires tag != "RB" && tag != "JJ" && HasFamily(tag, 'N') && HasFamily(tag, 'V')
    ensures TranslateTag(tag) == Some(Category.Noun)
  {
  }

  // ---------------------------------------------------------------------
  // `lemmatize`

  /** The lemma `lemmatize` gives a record: the last candidate the
      lemmatizer offers for its category, or the term itself when the tag
      has no category or there is no candidate. `lemmatizer(term, category)`
      is the list of the candidates' lemmas. */
  function LemmaOf(r: Record, lemmatizer: (string, Category) -> seq<string>): string
  {
    match TranslateTag(r.tag)
    case None => r.term
    case Some(category) =>
      var candidates := lemmatizer(r.term, category);
      if |candidates| > 0 then candidates[|candidates| - 1] else r.term
  }

  /** The record `lemmatize` builds from `r`. */
  function LemmatizedRecord(r: Record, lemmatizer: (string, Category) -> seq<string>,
                            stemmer: string -> string): Record
  {
    Record(r.term, r.tag, Some(LemmaOf(r, lemmatizer)), Some(stemmer(r.term)))
  }

  function Lemmatized(terms: seq<Record>, lemmatizer: (string, Category) -> seq<string>,
                      stemmer: string -> string): (rs: seq<Record>)
    ensures |rs| == |terms|
  {
    seq(|terms|, i requires 0 <= i < |terms| => LemmatizedRecord(terms[i], lemmatizer, stemmer))
  }

  /** `lemmatize` keeps every position's term and tag, adds the stem, and
      takes the lemma from the lemmatizer only when the tag translates and
      some candidate exists. */
  lemma LemmatizedSpec(terms: seq<Record>, lemmatizer: (string, Category) -> seq<string>,
                       stemmer: string -> string, i: nat)
    requires i < |terms|
    ensures var r := Lemmatized(terms, lemmatizer, stemmer)[i];
            && r.term == terms[i].term && r.tag == terms[i].tag
            && r.stem == Some(stemmer(terms[i].term))
            && r.norm.Some?
            && (TranslateTag(terms[i].tag).None? ==> r.norm.value == terms[i].term)
            && (TranslateTag(terms[i].tag).Some? ==>
                  var candidates := lemmatizer(terms[i].term, TranslateTag(terms[i].tag).value);
                  r.norm.value == (if |candidates| > 0 then candidates[|candidates| - 1] else terms[i].term))
  {
  }

  // ---------------------------------------------------------------------
  // `sanitize`

  const MinLength := 4
  const MaxNotAlphanumeric := 2
  const MaxDigit := 2

  /** Number of characters of `s` outside `[a-zA-Z0-9À-ÿ]`. */
  function NotAlphanumericCount(s: string): (n: nat)
    ensures n <= |s|
  {
    if s == [] then 0
    else NotAlphanumericCount(s[..|s| - 1]) + (if IsAlphanumeric(s[|s| - 1]) then 0 else 1)
  }

  /** Number of ASCII digits of `s`. */
  function DigitCount(s: string): (n: nat)
    ensures n <= |s|
  {
    if s == [] then 0
    else DigitCount(s[..|s| - 1]) + (if IsDigit(s[|s| - 1]) then 1 else 0)
  }

  /** The record survives `sanitize`. The stopwords are the names with a
      truthy value in the stopword object; a record without a lemma is
      looked up under "undefined". */
  predicate Keep(r: Record, stopwords: set<string>)
  {
    && |r.term| >= MinLength
    && NotAlphanumericCount(r.term) <= MaxNotAlphanumeric
    && DigitCount(r.term) < MaxDigit
    && PropertyName(r.norm) !in stopwords
  }

  /** The tagger's record for the separator, which replaces rejected terms. */
  function Marker(lexicon: map<string, string>): Record
  {
    Record(Separator, TagFor(lexicon, Separator), None, None)
  }

  function Sanitized(terms: seq<Record>, stopwords: set<string>, marker: Record): (rs: seq<Record>)
    ensures |rs| == |terms|
  {
    seq(|terms|, i requires 0 <= i < |terms| => if Keep(terms[i], stopwords) then terms[i] else marker)
  }

  /** `sanitize` keeps every position: it holds the input record when
      that record is kept, and the marker otherwise. */
  lemma SanitizedSpec(terms: seq<Record>, stopwords: set<string>, marker: Record, i: nat)
    requires i < |terms|
    ensures Keep(terms[i], stopwords) ==> Sanitized(terms, stopwords, marker)[i] == terms[i]
    ensures !Keep(terms[i], stopwords) ==> Sanitized(terms, stopwords, marker)[i] == marker
    ensures Sanitized(terms, stopwords, marker)[i] == terms[i] || Sanitized(terms, stopwords, marker)[i] == marker
  {
  }

  /** Three-letter terms never survive. */
  lemma ShortTermsRejected(r: Record, stopwords: set<string>)
    requires |r.term| < MinLength
    ensures !Keep(r, stopwords)
  {
  }

  /** The positions of `s` outside `[a-zA-Z0-9À-ÿ]`. */
  ghost function NotAlphanumericPositions(s: string): set<nat>
  {
    set i: nat | i < |s| && !IsAlphanumeric(s[i])
  }

  ghost function DigitPositions(s: string): set<nat>
  {
    set i: nat | i < |s| && IsDigit(s[i])
  }

  /** `term.match(NOT_ALPHANUMERIC)` with the global flag returns one
      element per matching position, so its length is the count. */
  lemma {:induction false} NotAlphanumericMatchLength(s: string)
    ensures NotAlphanumericCount(s) == |NotAlphanumericPositions(s)|
  {
    if s != [] {
      var n := |s| - 1;
      NotAlphanumericMatchLength(s[..n]);
      var before := NotAlphanumericPositions(s[..n]);
      assert n !in before;
      if IsAlphanumeric(s[n]) {
        assert NotAlphanumericPositions(s) == before;
      } else {
        assert NotAlphanumericPositions(s) == before + {n};
      }
    }
  }

  /** `term.match(DIGIT)` with the global flag returns one element per
      digit. */
  lemma {:induction false} DigitMatchLength(s: string)
    ensures DigitCount(s) == |DigitPositions(s)|
  {
    if s != [] {
      var n := |s| - 1;
      DigitMatchLength(s[..n]);
      var before := DigitPositions(s[..n]);
      assert n !in before;
      if IsDigit(s[n]) {
        assert DigitPositions(s) == before + {n};
      } else {
        assert DigitPositions(s) == before;
      }
    }
  }

  lemma {:induction false} NotAlphanumericCountAppend(s: string, t: string)
    ensures NotAlphanumericCount(s + t) == NotAlphanumericCount(s) + NotAlphanumericCount(t)
  {
    if t == [] {
      assert s + t == s;
    } else {
      assert (s + t)[..|s + t| - 1] == s + t[..|t| - 1];
      NotAlphanumericCountAppend(s, t[..|t| - 1]);
    }
  }

  lemma {:induction false} DigitCountAppend(s: string, t: string)
    ensures DigitCount(s + t) == DigitCount(s) + DigitCount(t)
  {
    if t == [] {
      assert s + t == s;
    } else {
      assert (s + t)[..|s + t| - 1] == s + t[..|t| - 1];
      DigitCountAppend(s, t[..|t| - 1]);
    }
  }

  /** A term holding two digits is rejected, wherever they are. */
  lemma TwoDigitsRejected(r: Record, stopwords: set<string>, a: string, b: string, c: string, x: char, y: char)
    requires r.term == a + [x] + b + [y] + c && IsDigit(x) && IsDigit(y)
    ensures !Keep(r, stopwords)
  {
    DigitCountAppend(a + [x] + b + [y], c);
    DigitCountAppend(a + [x] + b, [y]);
    DigitCountAppend(a + [x], b);
    DigitCountAppend(a, [x]);
    assert DigitCount([x]) == 1 && DigitCount([y]) == 1 by {
      assert [x][..0] == [] && [y][..0] == [];
    }
  }

  /** A term with three characters outside the class is rejected. */
  lemma ThreeSymbolsRejected(r: Record, stopwords: set<string>, a: string, b: string, c: string, d: string,
                             x: char, y: char, z: char)
    requires r.term == a + [x] + b + [y] + c + [z] + d
    requires !IsAlphanumeric(x) && !IsAlphanumeric(y) && !IsAlphanumeric(z)
    ensures !Keep(r, stopwords)
  {
    NotAlphanumericCountAppend(a + [x] + b + [y] + c + [z], d);
    NotAlphanumericCountAppend(a + [x] + b + [y] + c, [z]);
    NotAlphanumericCountAppend(a + [x] + b + [y], c);
    NotAlphanumericCountAppend(a + [x] + b, [y]);
    NotAlphanumericCountAppend(a + [x], b);
    NotAlphanumericCountAppend(a, [x]);
    assert NotAlphanumericCount([x]) == 1 && NotAlphanumericCount([y]) == 1 && NotAlphanumericCount([z]) == 1 by {
      assert [x][..0] == [] && [y][..0] == [] && [z][..0] == [];
    }
  }

  /** The stopword test as written: the stopwords are a plain object, so a
      lemma naming an inherited property (such as "constructor") counts as
      a stopword too. */
  predicate KeepAsWritten(r: Record, stopwords: set<string>)
  {
    && |r.term| >= MinLength
    && NotAlphanumericCount(r.term) <= MaxNotAlphanumeric
    && DigitCount(r.term) < MaxDigit
    && PropertyName(r.norm) !in stopwords + ObjectPrototypeNames
  }

  /** With no stopwords at all, the noun "constructor" is still dropped as
      written, while the intended test keeps it. */
  lemma InheritedStopword()
    ensures var r := Record("constructor", "NN", Some("constructor"), Some("constructor"));
            Keep(r, {}) && !KeepAsWritten(r, {})
  {
    var s := "constructor";
    assert forall i :: 0 <= i < |s| ==> 'a' <= s[i] <= 'z';
    NoSymbols(s);
  }

  lemma {:induction false} NoSymbols(s: string)
    requires forall i :: 0 <= i < |s| ==> 'a' <= s[i] <= 'z'
    ensures NotAlphanumericCount(s) == 0 && DigitCount(s) == 0
  {
    if s != [] {
      NoSymbols(s[..|s| - 1]);
    }
  }

  /** The two tests differ only on inherited names. */
  lemma KeepAsWrittenAgrees(r: Record, stopwords: set<string>)
    requires PropertyName(r.norm) !in ObjectPrototypeNames
    ensures KeepAsWritten(r, stopwords) <==> Keep(r, stopwords)
  {
  }

  // ---------------------------------------------------------------------
  // Scoring the extracted terms.

  /** Dictionary weights are frequencies of words in a vocabulary. */
  predicate WeightsNonNegative(dictionary: map<string, real>)
  {
    forall k :: k in dictionary ==> dictionary[k] >= 0.0
  }

  /** The weighting used when the dictionary has no (truthy) weight. */
  const DefaultWeighting: real := 0.00001

  function Weighting(dictionary: map<string, real>, key: string): (w: real)
    requires WeightsNonNegative(dictionary)
    ensures w > 0.0
    ensures key in dictionary && dictionary[key] != 0.0 ==> w == dictionary[key]
    ensures key !in dictionary || dictionary[key] == 0.0 ==> w == DefaultWeighting
  {
    if key in dictionary && dictionary[key] != 0.0 then dictionary[key] else DefaultWeighting
  }

  /** Every key has an entry, and every entry was counted at least once. */
  predicate Scorable(e: Extraction)
  {
    && e.keys != []
    && forall k :: k in e.keys ==> k in e.terms && e.terms[k].frequency >= 1
  }

  /** The frequencies, in key order. */
  function Frequencies(e: Extraction): (fs: seq<nat>)
    requires forall k :: k in e.keys ==> k in e.terms
    ensures |fs| == |e.keys|
  {
    seq(|e.keys|, i requires 0 <= i < |e.keys| => e.terms[e.keys[i]].frequency)
  }

  /** The keyword for key `k`, before normalisation: probability is
      frequency over total, specificity is probability over weighting. */
  function RawScore(e: Extraction, dictionary: map<string, real>, total: nat, k: string): Keyword
    requires k in e.terms && total > 0 && WeightsNonNegative(dictionary)
  {
    var f := e.terms[k].frequency as real;
    Keyword(k, e.terms[k].frequency, e.terms[k].strength,
            f / total as real / Weighting(dictionary, k), f / total as real)
  }

  function RawScores(e: Extraction, dictionary: map<string, real>, total: nat): (ks: seq<Keyword>)
    requires forall k :: k in e.keys ==> k in e.terms
    requires total > 0 && WeightsNonNegative(dictionary)
    ensures |ks| == |e.keys|
  {
    seq(|e.keys|, i requires 0 <= i < |e.keys| => RawScore(e, dictionary, total, e.keys[i]))
  }

  lemma PositiveQuotient(a: real, b: real)
    requires a > 0.0 && b > 0.0
    ensures a / b > 0.0
  {
  }

  /** Counted terms have a positive raw specificity. */
  lemma RawScoresPositive(e: Extraction, dictionary: map<string, real>, total: nat)
    requires Scorable(e) && total > 0 && WeightsNonNegative(dictionary)
    ensures AllPositive(RawScores(e, dictionary, total))
  {
    var ks := RawScores(e, dictionary, total);
    forall i | 0 <= i < |ks|
      ensures ks[i].specificity > 0.0
    {
      var k := e.keys[i];
      var f := e.terms[k].frequency as real;
      PositiveQuotient(f, total as real);
      PositiveQuotient(f / total as real, Weighting(dictionary, k));
    }
  }

  datatype Statistics = Statistics(maxFrequency: nat, totalFrequency: nat,
                                   avgSpecificity: real, maxSpecificity: real)

  const ZeroStatistics := Statistics(0, 0, 0.0, 0.0)

  /** The keywords of an index and the statistics behind them. */
  datatype Ranking = Ranking(keywords: seq<Keyword>, statistics: Statistics)

  lemma TotalPositive(e: Extraction)
    requires Scorable(e)
    ensures Total(Frequencies(e)) > 0
  {
    var fs := Frequencies(e);
    assert forall i :: 0 <= i < |fs| ==> fs[i] >= 1 by {
      forall i | 0 <= i < |fs|
        ensures fs[i] >= 1
      {
        assert e.keys[i] in e.keys;
      }
    }
    TotalAtLeastCount(fs);
  }

  /** Scores normalised by the largest raw specificity. */
  function Normalized(e: Extraction, dictionary: map<string, real>): (ks: seq<Keyword>)
    requires Scorable(e) && WeightsNonNegative(dictionary)
    ensures |ks| == |e.keys|
  {
    TotalPositive(e);
    var raw := RawScores(e, dictionary, Total(Frequencies(e)));
    RawScoresPositive(e, dictionary, Total(Frequencies(e)));
    MaxSpecificityIsMaximum(raw);
    Normalize(raw, MaxSpecificity(raw))
  }

  /** The scoring part of `index`, for a non-empty extraction. */
  function Scored(e: Extraction, dictionary: map<string, real>, sort: bool, truncate: bool): Ranking
    requires Scorable(e) && WeightsNonNegative(dictionary)
  {
    TotalPositive(e);
    var fs := Frequencies(e);
    var raw := RawScores(e, dictionary, Total(fs));
    var normalized := Normalized(e, dictionary);
    var avg := Average(normalized);
    var selected := Truncated(normalized, truncate, avg);
    Ranking(if sort then Sort(selected) else selected,
            Statistics(MaxFrequency(fs), Total(fs), avg, MaxSpecificity(raw)))
  }

  function Terms(ks: seq<Keyword>): (ts: seq<string>)
    ensures |ts| == |ks|
  {
    seq(|ks|, i requires 0 <= i < |ks| => ks[i].term)
  }

  /** The normalised scores lie in (0, 1], keep their key, frequency and
      strength, and one of them is 1. */
  lemma NormalizedSpec(e: Extraction, dictionary: map<string, real>)
    requires Scorable(e) && WeightsNonNegative(dictionary)
    ensures var ns := Normalized(e, dictionary);
            && InUnitInterval(ns)
            && (exists i :: 0 <= i < |ns| && ns[i].specificity == 1.0)
            && Terms(ns) == e.keys
            && forall i :: 0 <= i < |ns| ==>
                 ns[i].frequency == e.terms[e.keys[i]].frequency && ns[i].strength == e.terms[e.keys[i]].strength
  {
    TotalPositive(e);
    var raw := RawScores(e, dictionary, Total(Frequencies(e)));
    RawScoresPositive(e, dictionary, Total(Frequencies(e)));
    NormalizeBounds(raw);
  }

  /** The statistics: `total` sums the frequencies, `max` is the largest,
      the average normalised specificity lies in (0, 1], and the maximal
      raw specificity is positive. */
  lemma ScoredStatistics(e: Extraction, dictionary: map<string, real>, sort: bool, truncate: bool)
    requires Scorable(e) && WeightsNonNegative(dictionary)
    ensures var st := Scored(e, dictionary, sort, truncate).statistics;
            && st.totalFrequency == Total(Frequencies(e))
            && st.maxFrequency in Frequencies(e)
            && (forall k :: k in e.keys ==> e.terms[k].frequency <= st.maxFrequency)
            && st.maxFrequency <= st.totalFrequency
            && 0.0 < st.avgSpecificity <= 1.0
            && st.maxSpecificity > 0.0
  {
    var fs := Frequencies(e);
    MaxFrequencyIsMaximum(fs);
    TotalBoundsMaximum(fs);
    forall k | k in e.keys
      ensures e.terms[k].frequency <= MaxFrequency(fs)
    {
      var i :| 0 <= i < |e.keys| && e.keys[i] == k;
      assert fs[i] == e.terms[k].frequency;
    }
    NormalizedSpec(e, dictionary);
    AverageBounds(Normalized(e, dictionary));
    TotalPositive(e);
    var raw := RawScores(e, dictionary, Total(fs));
    RawScoresPositive(e, dictionary, Total(fs));
    MaxSpecificityIsMaximum(raw);
  }

  /** Without truncation or sort, the keywords are all extracted terms in
      key order, each named by its key. */
  lemma ScoredAllKeys(e: Extraction, dictionary: map<string, real>)
    requires Scorable(e) && WeightsNonNegative(dictionary)
    ensures var ks := Scored(e, dictionary, false, false).keywords;
            && Terms(ks) == e.keys
            && forall i :: 0 <= i < |ks| ==> ks[i].frequency == e.terms[e.keys[i]].frequency
  {
    var ns := Normalized(e, dictionary);
    NotTruncated(ns, Average(ns));
    NormalizedSpec(e, dictionary);
  }

  /** With truncation the keywords are the scores at or above the average,
      in key order, and there is at least one. */
  lemma ScoredTruncated(e: Extraction, dictionary: map<string, real>)
    requires Scorable(e) && WeightsNonNegative(dictionary)
    ensures var r := Scored(e, dictionary, false, true);
            var ns := Normalized(e, dictionary);
            && r.keywords == Truncated(ns, true, r.statistics.avgSpecificity)
            && r.keywords != []
            && forall k :: k in r.keywords <==> k in ns && k.specificity >= r.statistics.avgSpecificity
  {
    var ns := Normalized(e, dictionary);
    NormalizedSpec(e, dictionary);
    TruncatedNotEmpty(ns);
    TruncatedMembers(ns, Average(ns));
  }

  /** With sort, the keywords are the unsorted ones, reordered by
      non-increasing specificity, ties kept in order. */
  lemma ScoredSorted(e: Extraction, dictionary: map<string, real>, truncate: bool, v: real)
    requires Scorable(e) && WeightsNonNegative(dictionary)
    ensures var sorted := Scored(e, dictionary, true, truncate).keywords;
            var unsorted := Scored(e, dictionary, false, truncate).keywords;
            && multiset(sorted) == multiset(unsorted)
            && Ordered(sorted)
            && WithSpecificity(sorted, v) == WithSpecificity(unsorted, v)
  {
    var unsorted := Scored(e, dictionary, false, truncate).keywords;
    SortPermutes(unsorted);
    SortOrdered(unsorted);
    SortStable(unsorted, v);
  }

  // ---------------------------------------------------------------------
  // `index`

  /** What an index returns: the keywords, the extraction and each stage's
      output, and the statistics. */
  datatype Document = Document(
    keywords: seq<Keyword>,
    extraction: Extraction,
    tagged: seq<Record>,
    sanitized: seq<Record>,
    lemmatized: seq<Record>,
    tokens: seq<string>,
    statistics: Statistics)

  /** The collaborators and word lists an indexator is built with.
      `lower` is `String.prototype.toLowerCase`. */
  datatype Settings = Settings(
    lexicon: map<string, string>,
    lemmatizer: (string, Category) -> seq<string>,
    stemmer: string -> string,
    stopwords: set<string>,
    dictionary: map<string, real>,
    lower: string -> string)

  /** The document `index(data, {sort, truncate})` returns, for a filter with
      these length steps and `noLimitStrength`. */
  function DocumentOf(data: string, s: Settings, steps: LengthSteps, noLimitStrength: int,
                      sort: bool, truncate: bool): Document
    requires WeightsNonNegative(s.dictionary)
  {
    var tokens := Tokens(data, s.lower);
    if tokens == [] then Document([], Extraction([], map[]), [], [], [], tokens, ZeroStatistics)
    else
      var tagged := Tagged(s.lexicon, tokens);
      var lemmatized := Lemmatized(tagged, s.lemmatizer, s.stemmer);
      var sanitized := Sanitized(lemmatized, s.stopwords, Marker(s.lexicon));
      var e := ExtractionOf(sanitized, Threshold(steps, |sanitized|), noLimitStrength);
      if e.keys == [] then Document([], e, tagged, sanitized, lemmatized, tokens, ZeroStatistics)
      else
        ExtractionSpec(sanitized, Threshold(steps, |sanitized|), noLimitStrength);
        var r := Scored(e, s.dictionary, sort, truncate);
        Document(r.keywords, e, tagged, sanitized, lemmatized, tokens, r.statistics)
  }

  /** Every stage keeps one record per token, so the pipeline only stops
      early for a text without tokens or without extracted terms; then the
      keywords are empty and the statistics zero. */
  lemma DocumentStages(data: string, s: Settings, steps: LengthSteps, noLimitStrength: int,
                       sort: bool, truncate: bool)
    requires WeightsNonNegative(s.dictionary)
    ensures var d := DocumentOf(data, s, steps, noLimitStrength, sort, truncate);
            && d.tokens == Tokens(data, s.lower)
            && |d.tagged| == |d.lemmatized| == |d.sanitized| == (if d.tokens == [] then 0 else |d.tokens|)
            && (d.extraction.keys == [] <==> d.keywords == [] && d.statistics == ZeroStatistics)
            && (forall k :: k in d.extraction.keys <==> k in d.extraction.terms)
  {
    var d := DocumentOf(data, s, steps, noLimitStrength, sort, truncate);
    var tokens := Tokens(data, s.lower);
    if tokens != [] {
      var sanitized := d.sanitized;
      ExtractionSpec(sanitized, Threshold(steps, |sanitized|), noLimitStrength);
      if d.extraction.keys != [] {
        ScoredStatistics(d.extraction, s.dictionary, sort, truncate);
        if truncate {
          ScoredTruncated(d.extraction, s.dictionary);
          if sort {
            ScoredSorted(d.extraction, s.dictionary, truncate, 0.0);
            assert |Scored(d.extraction, s.dictionary, true, truncate).keywords| > 0 by {
              assert multiset(d.keywords) == multiset(Scored(d.extraction, s.dictionary, false, truncate).keywords);
            }
          }
        } else {
          ScoredAllKeys(d.extraction, s.dictionary);
          if sort {
            ScoredSorted(d.extraction, s.dictionary, truncate, 0.0);
            assert |Scored(d.extraction, s.dictionary, true, truncate).keywords| > 0 by {
              assert multiset(d.keywords) == multiset(Scored(d.extraction, s.dictionary, false, truncate).keywords);
            }
          }
        }
      }
    }
  }

  /** The constructor's options; `None` is an absent (or falsy) option. */
  datatype IndexatorOptions = IndexatorOptions(
    filter: Option<FilterOptions>,
    lexicon: Option<map<string, string>>,
    stopwords: Option<set<string>>,
    lemmatizer: Option<(string, Category) -> seq<string>>,
    stemmer: Option<string -> string>,
    dictionary: Option<map<string, real>>)

  class Indexator {
    const tagger: Tagger
    const extractor: TermExtractor
    const lemmatizer: (string, Category) -> seq<string>
    const stemmer: string -> string
    const stopwords: set<string>
    const dictionary: map<string, real>
    const lower: string -> string

    /** Absent options fall back to the given defaults (the bundled
        lexicon, lemmatizer and English stemmer), to no stopwords and to an
        empty dictionary; a filter option builds the extractor's filter. */
    constructor (options: IndexatorOptions, lexicon: map<string, string>,
                 lemmatizer: (string, Category) -> seq<string>, stemmer: string -> string,
                 lower: string -> string)
      ensures fresh(tagger) && fresh(extractor) && fresh(extractor.filter)
      ensures tagger.lexicon == (if options.lexicon.Some? then options.lexicon.value else lexicon)
      ensures this.lemmatizer == (if options.lemmatizer.Some? then options.lemmatizer.value else lemmatizer)
      ensures this.stemmer == (if options.stemmer.Some? then options.stemmer.value else stemmer)
      ensures stopwords == (if options.stopwords.Some? then options.stopwords.value else {})
      ensures dictionary == (if options.dictionary.Some? then options.dictionary.value else map[])
      ensures this.lower == lower
      ensures var f := if options.filter.Some? then options.filter.value else NoOptions;
              && extractor.filter.minOccur == (if Truthy(f.minOccur) then f.minOccur.value else DefaultMinOccur)
              && extractor.filter.noLimitStrength
                 == (if Truthy(f.noLimitStrength) then f.noLimitStrength.value else DefaultNoLimitStrength)
              && extractor.filter.lengthSteps
                 == (if f.lengthSteps.Some? then f.lengthSteps.value else DefaultLengthSteps)
    {
      var filter: Option<Filter> := None;
      if options.filter.Some? {
        var f := new Filter(options.filter.value);
        filter := Some(f);
      }
      tagger := new Tagger(if options.lexicon.Some? then options.lexicon.value else lexicon);
      extractor := new TermExtractor(None, filter);
      var lemmas: (string, Category) -> seq<string> := lemmatizer;
      if options.lemmatizer.Some? {
        lemmas := options.lemmatizer.value;
      }
      var stem: string -> string := stemmer;
      if options.stemmer.Some? {
        stem := options.stemmer.value;
      }
      this.lemmatizer := lemmas;
      this.stemmer := stem;
      stopwords := if options.stopwords.Some? then options.stopwords.value else {};
      dictionary := if options.dictionary.Some? then options.dictionary.value else map[];
      this.lower := lower;
    }

    /** `tokenize(text)`: each white-space chunk, lowercased, yields the
        tokens of its one `SPECIFIC_TERM` match. */
    method Tokenize(text: string) returns (result: seq<string>)
      ensures result == Tokens(text, lower)
    {
      var words := Chunks(text);
      result := [];
      for i := 0 to |words|
        invariant result == TokensOf(words[..i], lower)
      {
        var term := lower(words[i]);
        var match_ := MatchSpecificTerm(term);
        TokensOfPrefix(words, i, lower);
        if match_.Some? {
          var tokens := GroupsOf(match_.value);
          result := result + tokens;
        }
      }
      assert words[..|words|] == words;
    }

    /** The loop over the groups 1 to 3 of one match. */
    method GroupsOf(sh: Shape) returns (tokens: seq<string>)
      ensures tokens == GroupTokens(sh, 3)
    {
      var groups := [sh.lead, sh.word, sh.trail];
      tokens := [];
      for j := 1 to 4
        invariant tokens == GroupTokens(sh, j - 1)
      {
        if |groups[j - 1]| > 0 {
          if j == 2 {
            tokens := tokens + [groups[j - 1]];
          } else {
            tokens := tokens + [Separator];
          }
        }
      }
    }

    /** `lemmatize(terms)`. */
    method Lemmatize(terms: seq<Record>) returns (result: seq<Record>)
      ensures result == Lemmatized(terms, lemmatizer, stemmer)
    {
      result := [];
      for i := 0 to |terms|
        invariant result == Lemmatized(terms[..i], lemmatizer, stemmer)
      {
        var trslTag := TranslateTag(terms[i].tag);
        var norm := terms[i].term;
        if trslTag.Some? {
          var candidates := lemmatizer(terms[i].term, trslTag.value);
          if |candidates| > 0 {
            norm := candidates[|candidates| - 1];
          }
        }
        result := result + [Record(terms[i].term, terms[i].tag, Some(norm), Some(stemmer(terms[i].term)))];
      }
      assert terms[..|terms|] == terms;
    }

    /** `sanitize(terms)`: the marker is the tagger's record for the
        separator, read as a one-character string. */
    method Sanitize(terms: seq<Record>) returns (result: seq<Record>)
      ensures result == Sanitized(terms, stopwords, Marker(tagger.lexicon))
    {
      var tagged := tagger.Tag(Characters(Separator));
      SeparatorTagsOnce(tagger.lexicon);
      var invalid := tagged[0];
      result := [];
      for i := 0 to |terms|
        invariant result == Sanitized(terms[..i], stopwords, invalid)
      {
        var value := invalid;
        var term := terms[i].term;
        if |term| >= MinLength {
          var na := NotAlphanumericCount(term);
          var d := DigitCount(term);
          if na <= MaxNotAlphanumeric && d < MaxDigit && PropertyName(terms[i].norm) !in stopwords {
            value := terms[i];
          }
        }
        result := result + [value];
      }
      assert terms[..|terms|] == terms;
    }

    /** The statistics and keyword selection of `index`, once terms have
        been extracted. */
    method Rank(e: Extraction, sort: bool, truncate: bool) returns (r: Ranking)
      requires Scorable(e) && WeightsNonNegative(dictionary)
      ensures r == Scored(e, dictionary, sort, truncate)
    {
      var maxFrequency, total := FrequencyStatistics(e);
      TotalPositive(e);
      var scores, maxSpecificity := ScoreTerms(e, total);
      RawScoresPositive(e, dictionary, total);
      MaxSpecificityIsMaximum(scores);
      var normalized, sum := NormalizeScores(scores, maxSpecificity);
      var avg := sum / |e.keys| as real;
      var keywords: seq<Keyword> := [];
      for i := 0 to |normalized|
        invariant keywords == Truncated(normalized[..i], truncate, avg)
      {
        if !truncate || normalized[i].specificity >= avg {
          keywords := keywords + [normalized[i]];
        }
        assert normalized[..i + 1][..i] == normalized[..i];
      }
      assert normalized[..|normalized|] == normalized;
      if sort {
        keywords := Sort(keywords);
      }
      r := Ranking(keywords, Statistics(maxFrequency, total, avg, maxSpecificity));
    }

    /** The first loop of the scoring: the largest and the total frequency. */
    method FrequencyStatistics(e: Extraction) returns (maxFrequency: nat, total: nat)
      requires forall k :: k in e.keys ==> k in e.terms
      ensures maxFrequency == MaxFrequency(Frequencies(e)) && total == Total(Frequencies(e))
    {
      ghost var fs := Frequencies(e);
      maxFrequency, total := 0, 0;
      for i := 0 to |e.keys|
        invariant maxFrequency == MaxFrequency(fs[..i]) && total == Total(fs[..i])
      {
        var key := e.keys[i];
        assert fs[..i + 1][..i] == fs[..i];
        if maxFrequency < e.terms[key].frequency {
          maxFrequency := e.terms[key].frequency;
        }
        total := total + e.terms[key].frequency;
      }
      assert fs[..|e.keys|] == fs;
    }

    /** The second loop: each term's raw specificity and probability, and
        the largest specificity. */
    method ScoreTerms(e: Extraction, total: nat) returns (scores: seq<Keyword>, maxSpecificity: real)
      requires forall k :: k in e.keys ==> k in e.terms
      requires total > 0 && WeightsNonNegative(dictionary)
      ensures scores == RawScores(e, dictionary, total) && maxSpecificity == MaxSpecificity(scores)
    {
      ghost var raw := RawScores(e, dictionary, total);
      scores, maxSpecificity := [], 0.0;
      for i := 0 to |e.keys|
        invariant scores == raw[..i] && maxSpecificity == MaxSpecificity(scores)
      {
        var key := e.keys[i];
        var weighting := if key in dictionary && dictionary[key] != 0.0 then dictionary[key] else DefaultWeighting;
        var frequency := e.terms[key].frequency;
        var specificity := frequency as real / total as real / weighting;
        var probability := frequency as real / total as real;
        var scored := Keyword(key, frequency, e.terms[key].strength, specificity, probability);
        assert scored == raw[i];
        scores := scores + [scored];
        assert scores[..i] == raw[..i];
        if maxSpecificity < specificity {
          maxSpecificity := specificity;
        }
      }
      assert raw[..|e.keys|] == raw;
    }

    /** The third loop: each specificity divided by the largest, and their
        sum. */
    method NormalizeScores(scores: seq<Keyword>, maxSpecificity: real) returns (normalized: seq<Keyword>, sum: real)
      requires maxSpecificity != 0.0
      ensures normalized == Normalize(scores, maxSpecificity) && sum == SumSpecificity(normalized)
    {
      ghost var all := Normalize(scores, maxSpecificity);
      normalized, sum := [], 0.0;
      for i := 0 to |scores|
        invariant normalized == all[..i] && sum == SumSpecificity(normalized)
      {
        var k := scores[i].(specificity := scores[i].specificity / maxSpecificity);
        normalized := normalized + [k];
        assert normalized[..i] == all[..i];
        sum := sum + k.specificity;
      }
      assert all[..|scores|] == all;
    }

    /** `index(data, {sort, truncate})`. `configure` is called by the
        extractor, with the number of sanitized records. */
    method Index(data: string, sort: bool, truncate: bool) returns (doc: Document)
      requires WeightsNonNegative(dictionary)
      modifies extractor.filter`minOccur
      ensures extractor.filter.noLimitStrength == old(extractor.filter.noLimitStrength)
      ensures extractor.filter.lengthSteps == old(extractor.filter.lengthSteps)
      ensures Tokens(data, lower) == [] ==> extractor.filter.minOccur == old(extractor.filter.minOccur)
      ensures Tokens(data, lower) != [] ==>
                extractor.filter.minOccur == Threshold(extractor.filter.lengthSteps, |Tokens(data, lower)|)
      ensures doc == DocumentOf(data, Settings(tagger.lexicon, lemmatizer, stemmer, stopwords, dictionary, lower),
                                extractor.filter.lengthSteps, extractor.filter.noLimitStrength, sort, truncate)
    {
      doc := Document([], Extraction([], map[]), [], [], [], [], ZeroStatistics);
      var tokens := Tokenize(data);
      doc := doc.(tokens := tokens);
      if |tokens| == 0 {
        return;
      }
      var tagged := tagger.Tag(tokens);
      doc := doc.(tagged := tagged);
      // The check of an empty tagging cannot fire: one record per token.
      assert |tagged| == |tokens| > 0;
      var lemmatized := Lemmatize(tagged);
      doc := doc.(lemmatized := lemmatized);
      assert |lemmatized| > 0;
      var sanitized := Sanitize(lemmatized);
      doc := doc.(sanitized := sanitized);
      assert |sanitized| > 0;
      var extraction := extractor.Extract(sanitized);
      doc := doc.(extraction := extraction);
      if |extraction.keys| == 0 {
        return;
      }
      ExtractionSpec(sanitized, extractor.filter.minOccur, extractor.filter.noLimitStrength);
      var ranking := Rank(extraction, sort, truncate);
      doc := doc.(keywords := ranking.keywords, statistics := ranking.statistics);
    }
  }
}
