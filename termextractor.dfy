/** The composite-term extractor of src/termextractor.js: a two-state
    machine over the sanitized records (phase 1) followed by the filter's
    acceptance test on every counted surface form (phase 2). */
module TermExtraction {
  import opened Records
  import opened Tagging
  import opened Filters

  /** `SEARCH` (0) and `NOUN` (1). */
  datatype State = Search | Noun

  /** One call of the accumulator's `_add`: a single lemma, or the buffered
      lemmas of a composite term. */
  datatype Occurrence = Single(norm: Option<string>) | Phrase(norms: seq<Option<string>>)

  /** The machine's variables after some prefix of the input: `state`, the
      `multiterm` buffer, and the `_add` calls made so far. */
  datatype Machine = Machine(state: State, multiterm: seq<Option<string>>, occurrences: seq<Occurrence>)

  /** The counts of phase 1, in key insertion order. */
  datatype Tally = Tally(keys: seq<string>, frequency: map<string, nat>)

  /** An entry of the result: `{frequency, strength}`. */
  datatype Entry = Entry(frequency: nat, strength: nat)

  /** The result of `extract`, keys in insertion order. */
  datatype Extraction = Extraction(keys: seq<string>, terms: map<string, Entry>)

  /** `_startsWith(str, prefix)`: `substring` clamps to the string's length. */
  function StartsWith(s: string, prefix: string): (r: bool)
    ensures r <==> prefix <= s
  {
    s[..if |prefix| <= |s| then |prefix| else |s|] == prefix
  }

  /** Tags of the noun and adjective families start with 'N' or 'J'. */
  predicate NounOrAdjective(tag: string)
  {
    StartsWith(tag, "N") || StartsWith(tag, "J")
  }

  /** A buffer of two or more lemmas is recorded as one composite. */
  function Close(multiterm: seq<Option<string>>): seq<Occurrence>
  {
    if |multiterm| > 1 then [Phrase(multiterm)] else []
  }

  /** One iteration of the phase-1 loop. */
  function Transition(m: Machine, t: Record): Machine
  {
    var nounLike := NounOrAdjective(t.tag);
    if m.state == Search && nounLike then
      Machine(Noun, m.multiterm + [t.norm], m.occurrences + [Single(t.norm)])
    else if m.state == Noun && nounLike then
      Machine(Noun, m.multiterm + [t.norm], m.occurrences + [Single(t.norm)])
    else if m.state == Noun && !nounLike then
      Machine(Search, [], m.occurrences + Close(m.multiterm))
    else
      m
  }

  /** The phase-1 loop over the remaining records, first record first. */
  function Run(m: Machine, ts: seq<Record>): Machine
    decreases |ts|
  {
    if ts == [] then m else Run(Transition(m, ts[0]), ts[1..])
  }

  const Start := Machine(Search, [], [])

  /** All `_add` calls of phase 1, including the final flush. */
  function Occurrences(ts: seq<Record>): seq<Occurrence>
  {
    var m := Run(Start, ts);
    m.occurrences + Close(m.multiterm)
  }

  /** `multiterm.join(' ')`. */
  function Join(norms: seq<Option<string>>): string
  {
    if norms == [] then ""
    else if |norms| == 1 then JoinText(norms[0])
    else Join(norms[..|norms| - 1]) + " " + JoinText(norms[|norms| - 1])
  }

  /** The accumulator key of an occurrence. */
  function Key(o: Occurrence): string
  {
    match o
    case Single(n) => PropertyName(n)
    case Phrase(ns) => Join(ns)
  }

  function Keys(os: seq<Occurrence>): (ws: seq<string>)
    ensures |ws| == |os|
    ensures forall i :: 0 <= i < |os| ==> ws[i] == Key(os[i])
  {
    seq(|os|, i requires 0 <= i < |os| => Key(os[i]))
  }

  /** `word.split(' ').length`. */
  function Strength(word: string): nat
  {
    CountChar(word, ' ') + 1
  }

  /** `terms._add(word)`: a new key starts at 1, a known key is incremented. */
  function Add(t: Tally, word: string): Tally
  {
    if word in t.frequency then Tally(t.keys, t.frequency[word := t.frequency[word] + 1])
    else Tally(t.keys + [word], t.frequency[word := 1])
  }

  /** The accumulator after `_add` has been called on each word in turn. */
  function Count(words: seq<string>): Tally
  {
    if words == [] then Tally([], map[])
    else Add(Count(words[..|words| - 1]), words[|words| - 1])
  }

  function Frequency(t: Tally, w: string): nat
  {
    if w in t.frequency then t.frequency[w] else 0
  }

  /** The keys phase 2 keeps, in order. */
  function SelectKeys(keys: seq<string>, t: Tally, minOccur: int, noLimitStrength: int): seq<string>
  {
    if keys == [] then []
    else
      var rest := SelectKeys(keys[..|keys| - 1], t, minOccur, noLimitStrength);
      var k := keys[|keys| - 1];
      if Accepts(minOccur, noLimitStrength, Frequency(t, k), Strength(k)) then rest + [k] else rest
  }

  /** The entries phase 2 writes for the keys `keys`. */
  function SelectEntries(keys: seq<string>, t: Tally, minOccur: int, noLimitStrength: int): map<string, Entry>
  {
    map k | k in keys && Accepts(minOccur, noLimitStrength, Frequency(t, k), Strength(k))
          :: Entry(Frequency(t, k), Strength(k))
  }

  lemma SelectEntriesSnoc(keys: seq<string>, k: string, t: Tally, minOccur: int, noLimitStrength: int)
    ensures SelectEntries(keys + [k], t, minOccur, noLimitStrength)
         == if Accepts(minOccur, noLimitStrength, Frequency(t, k), Strength(k))
            then SelectEntries(keys, t, minOccur, noLimitStrength)[k := Entry(Frequency(t, k), Strength(k))]
            else SelectEntries(keys, t, minOccur, noLimitStrength)
  {
  }

  /** Phase 2 over the counts `t`, with the filter's current settings. */
  function Select(t: Tally, minOccur: int, noLimitStrength: int): Extraction
  {
    Extraction(SelectKeys(t.keys, t, minOccur, noLimitStrength), SelectEntries(t.keys, t, minOccur, noLimitStrength))
  }

  /** What `extract` returns once the filter holds `minOccur` and
      `noLimitStrength`. */
  function ExtractionOf(ts: seq<Record>, minOccur: int, noLimitStrength: int): Extraction
  {
    Select(Count(Keys(Occurrences(ts))), minOccur, noLimitStrength)
  }

  class TermExtractor {
    const tagger: Tagger
    const filter: Filter

    /** Absent collaborators are replaced by a default tagger and filter. */
    constructor (tagger: Option<Tagger>, filter: Option<Filter>)
      ensures tagger.Some? ==> this.tagger == tagger.value
      ensures tagger.None? ==> fresh(this.tagger) && this.tagger.lexicon == map[]
      ensures filter.Some? ==> this.filter == filter.value
      ensures filter.None? ==> fresh(this.filter)
      ensures filter.None? ==> (this.filter.minOccur == DefaultMinOccur
                                && this.filter.noLimitStrength == DefaultNoLimitStrength
                                && this.filter.lengthSteps == DefaultLengthSteps)
    {
      if tagger.Some? {
        this.tagger := tagger.value;
      } else {
        this.tagger := new Tagger(map[]);
      }
      if filter.Some? {
        this.filter := filter.value;
      } else {
        this.filter := new Filter(NoOptions);
      }
    }

    /** `extract(taggedTerms)`: configures the filter with the number of
        records, then counts (phase 1) and filters (phase 2) simple and
        composite terms. The input is a value and is left as it is. */
    method Extract(taggedTerms: seq<Record>) returns (result: Extraction)
      modifies filter`minOccur
      ensures filter.minOccur == Threshold(filter.lengthSteps, |taggedTerms|)
      ensures filter.noLimitStrength == old(filter.noLimitStrength)
      ensures filter.lengthSteps == old(filter.lengthSteps)
      ensures result == ExtractionOf(taggedTerms, filter.minOccur, filter.noLimitStrength)
    {
      var configured := filter.Configure(Number(|taggedTerms|));
      var terms := CountTerms(taggedTerms);
      CountSpec(Keys(Occurrences(taggedTerms)));
      result := SelectTerms(terms);
    }

    /** Phase 1 of `extract`: a little state machine builds simple and
        composite terms and counts them. */
    method CountTerms(taggedTerms: seq<Record>) returns (terms: Tally)
      ensures terms == Count(Keys(Occurrences(taggedTerms)))
    {
      var cp := taggedTerms;
      var multiterm: seq<Option<string>> := [];
      var state := Search;
      terms := Tally([], map[]);
      ghost var occurrences: seq<Occurrence> := [];
      while |cp| > 0
        invariant Run(Machine(state, multiterm, occurrences), cp) == Run(Start, taggedTerms)
        invariant terms == Count(Keys(occurrences))
        decreases |cp|
      {
        var taggedTerm := cp[0];
        assert cp == [taggedTerm] + cp[1..];
        cp := cp[1..];
        var norm := taggedTerm.norm;
        var startsWithN := StartsWith(taggedTerm.tag, "N");
        var startsWithJ := StartsWith(taggedTerm.tag, "J");
        ghost var m := Machine(state, multiterm, occurrences);
        assert Run(m, [taggedTerm] + cp) == Run(Transition(m, taggedTerm), cp);
        if state == Search && (startsWithN || startsWithJ) {
          state := Noun;
          multiterm := multiterm + [norm];
          terms := Add(terms, PropertyName(norm));
          occurrences := occurrences + [Single(norm)];
        } else if state == Noun && (startsWithN || startsWithJ) {
          multiterm := multiterm + [norm];
          terms := Add(terms, PropertyName(norm));
          occurrences := occurrences + [Single(norm)];
        } else if state == Noun && !startsWithN && !startsWithJ {
          state := Search;
          if |multiterm| > 1 {
            terms := Add(terms, Join(multiterm));
            occurrences := occurrences + [Phrase(multiterm)];
          }
          multiterm := [];
        }
        assert Machine(state, multiterm, occurrences) == Transition(m, taggedTerm);
        CountKeysSnoc(m.occurrences, occurrences);
      }
      // A composite still in progress is saved.
      ghost var before := occurrences;
      if |multiterm| > 1 {
        terms := Add(terms, Join(multiterm));
        occurrences := occurrences + [Phrase(multiterm)];
      }
      CountKeysSnoc(before, occurrences);
      assert occurrences == Occurrences(taggedTerms);
    }

    /** Phase 2 of `extract`: only the terms that fulfil the filter's
        criteria are kept, each with its strength. */
    method SelectTerms(terms: Tally) returns (result: Extraction)
      requires forall k :: k in terms.keys ==> k in terms.frequency
      ensures result == Select(terms, filter.minOccur, filter.noLimitStrength)
    {
      var keys: seq<string> := [];
      var entries: map<string, Entry> := map[];
      for i := 0 to |terms.keys|
        invariant keys == SelectKeys(terms.keys[..i], terms, filter.minOccur, filter.noLimitStrength)
        invariant entries == SelectEntries(terms.keys[..i], terms, filter.minOccur, filter.noLimitStrength)
      {
        var word := terms.keys[i];
        var occur := terms.frequency[word];
        var strength := Strength(word);
        assert terms.keys[..i + 1][..i] == terms.keys[..i];
        assert terms.keys[..i + 1] == terms.keys[..i] + [word];
        SelectEntriesSnoc(terms.keys[..i], word, terms, filter.minOccur, filter.noLimitStrength);
        if filter.Call(occur, strength) {
          keys := keys + [word];
          entries := entries[word := Entry(occur, strength)];
        }
      }
      assert terms.keys[..|terms.keys|] == terms.keys;
      result := Extraction(keys, entries);
    }
  }

  /** Appending occurrences to the accumulator's history is one `_add` per
      occurrence (here: none or one). */
  lemma CountKeysSnoc(before: seq<Occurrence>, after: seq<Occurrence>)
    requires after == before || (|after| == |before| + 1 && after[..|before|] == before)
    ensures after != before ==> Count(Keys(after)) == Add(Count(Keys(before)), Key(after[|before|]))
  {
    if after != before {
      assert Keys(after)[..|Keys(after)| - 1] == Keys(before);
    }
  }

  // ---------------------------------------------------------------------
  // Properties of single steps.

  /** In `SEARCH` state a record outside the noun and adjective families
      changes nothing. */
  lemma SearchSkips(m: Machine, t: Record)
    requires m.state == Search && !NounOrAdjective(t.tag)
    ensures Transition(m, t) == m
  {
  }

  /** In `NOUN` state such a record closes the phrase: back to `SEARCH`, an
      empty buffer, and a composite only for two or more buffered lemmas;
      the closing record itself is not counted. */
  lemma NounCloses(m: Machine, t: Record)
    requires m.state == Noun && !NounOrAdjective(t.tag)
    ensures Transition(m, t).state == Search && Transition(m, t).multiterm == []
    ensures |m.multiterm| > 1 ==> Transition(m, t).occurrences == m.occurrences + [Phrase(m.multiterm)]
    ensures |m.multiterm| <= 1 ==> Transition(m, t).occurrences == m.occurrences
  {
  }

  // ---------------------------------------------------------------------
  // Unigrams: every noun or adjective record adds one occurrence of its lemma.

  /** The lemmas of the single-lemma occurrences, in order. */
  function Singles(os: seq<Occurrence>): seq<Option<string>>
  {
    if os == [] then []
    else Singles(os[..|os| - 1]) + (if os[|os| - 1].Single? then [os[|os| - 1].norm] else [])
  }

  /** The lemmas of the records in the noun and adjective families, in order. */
  function NounNorms(ts: seq<Record>): seq<Option<string>>
  {
    if ts == [] then []
    else (if NounOrAdjective(ts[0].tag) then [ts[0].norm] else []) + NounNorms(ts[1..])
  }

  lemma SinglesSnoc(os: seq<Occurrence>, o: Occurrence)
    ensures Singles(os + [o]) == Singles(os) + (if o.Single? then [o.norm] else [])
  {
    assert (os + [o])[..|os|] == os;
  }

  lemma SinglesClose(os: seq<Occurrence>, b: seq<Option<string>>)
    ensures Singles(os + Close(b)) == Singles(os)
  {
    if |b| > 1 {
      SinglesSnoc(os, Phrase(b));
    } else {
      assert os + Close(b) == os;
    }
  }

  lemma {:induction false} SinglesRun(m: Machine, ts: seq<Record>)
    ensures Singles(Run(m, ts).occurrences) == Singles(m.occurrences) + NounNorms(ts)
    decreases |ts|
  {
    if ts != [] {
      var t := ts[0];
      var next := Transition(m, t);
      SinglesRun(next, ts[1..]);
      if NounOrAdjective(t.tag) {
        SinglesSnoc(m.occurrences, Single(t.norm));
      } else if m.state == Noun {
        SinglesClose(m.occurrences, m.multiterm);
      }
    }
  }

  /** Phase 1 records exactly one single-lemma occurrence per noun or
      adjective record, in input order, whatever the state. */
  lemma UnigramsAreNounLemmas(ts: seq<Record>)
    ensures Singles(Occurrences(ts)) == NounNorms(ts)
  {
    var m := Run(Start, ts);
    SinglesRun(Start, ts);
    SinglesClose(m.occurrences, m.multiterm);
  }

  // ---------------------------------------------------------------------
  // Composites: the maximal runs of two or more noun or adjective records.

  /** The buffers of the composite occurrences, in order. */
  function Phrases(os: seq<Occurrence>): seq<seq<Option<string>>>
  {
    if os == [] then []
    else Phrases(os[..|os| - 1]) + (if os[|os| - 1].Phrase? then [os[|os| - 1].norms] else [])
  }

  /** Length of the run of noun or adjective records at the front of `ts`. */
  function LeadingRun(ts: seq<Record>): (n: nat)
    ensures n <= |ts|
    ensures forall i :: 0 <= i < n ==> NounOrAdjective(ts[i].tag)
    ensures n < |ts| ==> !NounOrAdjective(ts[n].tag)
  {
    if ts != [] && NounOrAdjective(ts[0].tag) then 1 + LeadingRun(ts[1..]) else 0
  }

  function Norms(ts: seq<Record>): (ns: seq<Option<string>>)
    ensures |ns| == |ts|
    ensures forall i :: 0 <= i < |ts| ==> ns[i] == ts[i].norm
  {
    seq(|ts|, i requires 0 <= i < |ts| => ts[i].norm)
  }

  function AtLeastTwo(b: seq<Option<string>>): seq<seq<Option<string>>>
  {
    if |b| > 1 then [b] else []
  }

  /** Reference definition: the lemmas of every maximal run of two or more
      consecutive noun or adjective records, left to right. */
  function Composites(ts: seq<Record>): seq<seq<Option<string>>>
    decreases |ts|
  {
    if ts == [] then []
    else if !NounOrAdjective(ts[0].tag) then Composites(ts[1..])
    else
      var n := LeadingRun(ts);
      AtLeastTwo(Norms(ts[..n])) + Composites(ts[n..])
  }

  lemma PhrasesSnoc(os: seq<Occurrence>, o: Occurrence)
    ensures Phrases(os + [o]) == Phrases(os) + (if o.Phrase? then [o.norms] else [])
  {
    assert (os + [o])[..|os|] == os;
  }

  lemma PhrasesClose(os: seq<Occurrence>, b: seq<Option<string>>)
    ensures Phrases(os + Close(b)) == Phrases(os) + AtLeastTwo(b)
  {
    if |b| > 1 {
      PhrasesSnoc(os, Phrase(b));
    } else {
      assert os + Close(b) == os;
    }
  }

  lemma CompositesSplit(ts: seq<Record>)
    ensures AtLeastTwo(Norms(ts[..LeadingRun(ts)])) + Composites(ts[LeadingRun(ts)..]) == Composites(ts)
  {
    if LeadingRun(ts) == 0 {
      assert ts[0..] == ts;
    }
  }

  /** The machine's state invariant: in `SEARCH` the buffer is empty. */
  ghost predicate Consistent(m: Machine)
  {
    m.state == Search ==> m.multiterm == []
  }

  /** The composites still to come from machine `m` on input `ts`. */
  function Pending(m: Machine, ts: seq<Record>): seq<seq<Option<string>>>
  {
    AtLeastTwo(m.multiterm + Norms(ts[..LeadingRun(ts)])) + Composites(ts[LeadingRun(ts)..])
  }

  function Flushed(m: Machine): seq<Occurrence>
  {
    m.occurrences + Close(m.multiterm)
  }

  lemma {:induction false} PhrasesRun(m: Machine, ts: seq<Record>)
    requires Consistent(m)
    ensures Phrases(Flushed(Run(m, ts))) == Phrases(m.occurrences) + Pending(m, ts)
    decreases |ts|
  {
    if ts == [] {
      PhrasesClose(m.occurrences, m.multiterm);
      assert m.multiterm + Norms(ts[..0]) == m.multiterm;
    } else {
      var next := Transition(m, ts[0]);
      PhrasesRun(next, ts[1..]);
      if NounOrAdjective(ts[0].tag) {
        PendingNoun(m, ts);
      } else {
        PendingOther(m, ts);
      }
    }
  }

  lemma PendingNoun(m: Machine, ts: seq<Record>)
    requires ts != [] && NounOrAdjective(ts[0].tag)
    ensures Phrases(Transition(m, ts[0]).occurrences) == Phrases(m.occurrences)
    ensures Pending(Transition(m, ts[0]), ts[1..]) == Pending(m, ts)
  {
    var t := ts[0];
    var rest := ts[1..];
    var n := LeadingRun(ts);
    var next := Transition(m, t);
    PhrasesSnoc(m.occurrences, Single(t.norm));
    assert n == 1 + LeadingRun(rest);
    assert Norms(ts[..n]) == [t.norm] + Norms(rest[..LeadingRun(rest)]);
    assert next.multiterm + Norms(rest[..LeadingRun(rest)]) == m.multiterm + Norms(ts[..n]);
    assert rest[LeadingRun(rest)..] == ts[n..];
  }

  lemma PendingOther(m: Machine, ts: seq<Record>)
    requires Consistent(m)
    requires ts != [] && !NounOrAdjective(ts[0].tag)
    ensures Phrases(Transition(m, ts[0]).occurrences) + Pending(Transition(m, ts[0]), ts[1..])
         == Phrases(m.occurrences) + Pending(m, ts)
  {
    PendingAtBreak(m, ts);
    if m.state == Noun {
      ClosingPhrase(m, ts[0], ts[1..]);
    } else {
      assert Transition(m, ts[0]) == m;
      PendingEmpty(m, ts[1..]);
    }
  }

  /** In `NOUN`, a record that is neither noun nor adjective flushes the
      buffer and returns to `SEARCH`. */
  lemma ClosingPhrase(m: Machine, t: Record, rest: seq<Record>)
    requires m.state == Noun && !NounOrAdjective(t.tag)
    ensures Phrases(Transition(m, t).occurrences) + Pending(Transition(m, t), rest)
         == Phrases(m.occurrences) + (AtLeastTwo(m.multiterm) + Composites(rest))
  {
    var next := Machine(Search, [], m.occurrences + Close(m.multiterm));
    assert Transition(m, t) == next;
    PendingEmpty(next, rest);
    PhrasesClose(m.occurrences, m.multiterm);
    AppendAssociative(Phrases(m.occurrences), AtLeastTwo(m.multiterm), Composites(rest));
  }

  lemma AppendAssociative<T>(a: seq<T>, b: seq<T>, c: seq<T>)
    ensures (a + b) + c == a + (b + c)
  {
  }

  /** A record that is neither noun nor adjective ends the open run. */
  lemma PendingAtBreak(m: Machine, ts: seq<Record>)
    requires ts != [] && !NounOrAdjective(ts[0].tag)
    ensures Pending(m, ts) == AtLeastTwo(m.multiterm) + Composites(ts[1..])
  {
    assert LeadingRun(ts) == 0;
    assert m.multiterm + Norms(ts[..0]) == m.multiterm;
    assert ts[0..] == ts;
  }

  /** With an empty buffer, what is pending is the reference definition. */
  lemma PendingEmpty(m: Machine, ts: seq<Record>)
    requires m.multiterm == []
    ensures Pending(m, ts) == Composites(ts)
  {
    CompositesSplit(ts);
    assert [] + Norms(ts[..LeadingRun(ts)]) == Norms(ts[..LeadingRun(ts)]);
  }

  /** Phase 1 records a composite for exactly the maximal runs of two or
      more noun or adjective records, including one still open at the end
      of the input, and for nothing else. */
  lemma CompositesAreMaximalRuns(ts: seq<Record>)
    ensures Phrases(Occurrences(ts)) == Composites(ts)
  {
    PhrasesRun(Start, ts);
    assert Occurrences(ts) == Flushed(Run(Start, ts));
    CompositesSplit(ts);
    assert [] + Norms(ts[..LeadingRun(ts)]) == Norms(ts[..LeadingRun(ts)]);
  }

  lemma {:induction false} CompositesHaveTwoLemmas(ts: seq<Record>)
    ensures forall c :: c in Composites(ts) ==> |c| >= 2
    decreases |ts|
  {
    if ts != [] {
      if !NounOrAdjective(ts[0].tag) {
        CompositesHaveTwoLemmas(ts[1..]);
      } else {
        CompositesHaveTwoLemmas(ts[LeadingRun(ts)..]);
      }
    }
  }

  lemma {:induction false} PhrasesMembers(os: seq<Occurrence>, i: nat)
    requires i < |os| && os[i].Phrase?
    ensures os[i].norms in Phrases(os)
  {
    var last := |os| - 1;
    PhrasesSnoc(os[..last], os[last]);
    assert os[..last] + [os[last]] == os;
    if i < last {
      PhrasesMembers(os[..last], i);
    }
  }

  /** No composite is ever recorded from fewer than two lemmas. */
  lemma NoShortComposite(ts: seq<Record>, i: nat)
    requires i < |Occurrences(ts)| && Occurrences(ts)[i].Phrase?
    ensures |Occurrences(ts)[i].norms| >= 2
  {
    PhrasesMembers(Occurrences(ts), i);
    CompositesAreMaximalRuns(ts);
    CompositesHaveTwoLemmas(ts);
  }

  lemma {:induction false} CompositeLemmasAreNouns(ts: seq<Record>)
    ensures forall c, x :: c in Composites(ts) && x in c ==> x in NounNorms(ts)
    decreases |ts|
  {
    if ts != [] {
      if !NounOrAdjective(ts[0].tag) {
        CompositeLemmasAreNouns(ts[1..]);
      } else {
        var n := LeadingRun(ts);
        CompositeLemmasAreNouns(ts[n..]);
        NounNormsSplit(ts, n);
      }
    }
  }

  /** `NounNorms` of a leading run of nouns is the run's lemmas. */
  lemma {:induction false} NounNormsSplit(ts: seq<Record>, n: nat)
    requires n <= |ts|
    requires forall i :: 0 <= i < n ==> NounOrAdjective(ts[i].tag)
    ensures NounNorms(ts) == Norms(ts[..n]) + NounNorms(ts[n..])
  {
    if n > 0 {
      NounNormsSplit(ts[1..], n - 1);
      assert ts[1..][n - 1..] == ts[n..];
      assert Norms(ts[..n]) == [ts[0].norm] + Norms(ts[1..][..n - 1]);
    } else {
      assert ts[0..] == ts;
    }
  }

  // ---------------------------------------------------------------------
  // Counting.

  lemma {:induction false} CountSpec(words: seq<string>)
    ensures forall i, j :: 0 <= i < j < |Count(words).keys| ==> Count(words).keys[i] != Count(words).keys[j]
    ensures forall w :: w in Count(words).keys <==> w in Count(words).frequency
    ensures forall w :: w in Count(words).frequency <==> w in words
    ensures forall w :: Frequency(Count(words), w) == multiset(words)[w]
  {
    if words != [] {
      var init := words[..|words| - 1];
      var last := words[|words| - 1];
      CountSpec(init);
      assert words == init + [last];
      assert multiset(words) == multiset(init) + multiset{last};
      var t0 := Count(init);
      if last !in t0.frequency {
        assert last !in t0.keys;
        assert Count(words).keys == t0.keys + [last];
      }
    }
  }

  function NounKeys(ts: seq<Record>): seq<string>
  {
    if ts == [] then []
    else (if NounOrAdjective(ts[0].tag) then [PropertyName(ts[0].norm)] else []) + NounKeys(ts[1..])
  }

  lemma {:induction false} NounKeysOfNorms(ts: seq<Record>)
    ensures |NounKeys(ts)| == |NounNorms(ts)|
    ensures forall i :: 0 <= i < |NounKeys(ts)| ==> NounKeys(ts)[i] == PropertyName(NounNorms(ts)[i])
  {
    if ts != [] {
      NounKeysOfNorms(ts[1..]);
    }
  }

  /** A composite's key always contains a space. */
  lemma {:induction false} JoinHasSpace(ns: seq<Option<string>>)
    requires |ns| >= 2
    ensures ' ' in Join(ns)
  {
    var s := Join(ns[..|ns| - 1]) + " " + JoinText(ns[|ns| - 1]);
    assert s[|Join(ns[..|ns| - 1])|] == ' ';
  }

  function MapKeys(ns: seq<Option<string>>): (ws: seq<string>)
    ensures |ws| == |ns|
    ensures forall i :: 0 <= i < |ns| ==> ws[i] == PropertyName(ns[i])
  {
    seq(|ns|, i requires 0 <= i < |ns| => PropertyName(ns[i]))
  }

  lemma {:induction false} SpacelessKeys(os: seq<Occurrence>, w: string)
    requires ' ' !in w
    requires forall o :: o in os && o.Phrase? ==> |o.norms| >= 2
    ensures multiset(Keys(os))[w] == multiset(MapKeys(Singles(os)))[w]
  {
    if os != [] {
      var init := os[..|os| - 1];
      var last := os[|os| - 1];
      SpacelessKeys(init, w);
      assert os == init + [last];
      assert Keys(os) == Keys(init) + [Key(last)];
      SinglesSnoc(init, last);
      if last.Single? {
        assert MapKeys(Singles(os)) == MapKeys(Singles(init)) + [PropertyName(last.norm)];
      } else {
        JoinHasSpace(last.norms);
        assert MapKeys(Singles(os)) == MapKeys(Singles(init));
      }
    }
  }

  /** The counted frequency of a space-free word is the number of noun or
      adjective records whose lemma is that word. */
  lemma UnigramFrequency(ts: seq<Record>, w: string)
    requires ' ' !in w
    ensures Frequency(Count(Keys(Occurrences(ts))), w) == multiset(NounKeys(ts))[w]
  {
    var os := Occurrences(ts);
    forall o | o in os && o.Phrase?
      ensures |o.norms| >= 2
    {
      var i :| 0 <= i < |os| && os[i] == o;
      NoShortComposite(ts, i);
    }
    SpacelessKeys(os, w);
    CountSpec(Keys(os));
    UnigramsAreNounLemmas(ts);
    NounKeysOfNorms(ts);
    assert MapKeys(Singles(os)) == NounKeys(ts);
  }

  /** Every lemma inside a composite was also counted on its own. */
  lemma CompositeWordsCounted(ts: seq<Record>, c: seq<Option<string>>, x: Option<string>)
    requires c in Phrases(Occurrences(ts)) && x in c
    ensures PropertyName(x) in Count(Keys(Occurrences(ts))).frequency
  {
    CompositesAreMaximalRuns(ts);
    CompositeLemmasAreNouns(ts);
    UnigramsAreNounLemmas(ts);
    var os := Occurrences(ts);
    SinglesHaveKeys(os, x);
    CountSpec(Keys(os));
  }

  lemma {:induction false} SinglesHaveKeys(os: seq<Occurrence>, x: Option<string>)
    requires x in Singles(os)
    ensures PropertyName(x) in Keys(os)
  {
    var init := os[..|os| - 1];
    var last := os[|os| - 1];
    assert os == init + [last];
    SinglesSnoc(init, last);
    if x in Singles(init) {
      SinglesHaveKeys(init, x);
      assert Keys(os) == Keys(init) + [Key(last)];
    } else {
      assert Key(last) == PropertyName(x);
      assert Keys(os)[|os| - 1] == Key(last);
    }
  }

  // ---------------------------------------------------------------------
  // A composite is never counted more often than any of its words.

  /** A lemma that `join(' ')` renders unambiguously: no space inside it,
      and not the empty string, which would render like `undefined`. */
  predicate PlainNorm(x: Option<string>)
  {
    x != Some("") && ' ' !in JoinText(x)
  }

  predicate PlainNouns(ts: seq<Record>)
  {
    forall j :: 0 <= j < |ts| && NounOrAdjective(ts[j].tag) ==> PlainNorm(ts[j].norm)
  }

  /** The keys of the composites, in order. */
  function JoinKeys(ps: seq<seq<Option<string>>>): (ks: seq<string>)
    ensures |ks| == |ps|
    ensures forall i :: 0 <= i < |ps| ==> ks[i] == Join(ps[i])
  {
    seq(|ps|, i requires 0 <= i < |ps| => Join(ps[i]))
  }

  /** The text after the last space determines both halves. */
  lemma LastWord(a: string, v: string, b: string, u: string)
    requires ' ' !in v && ' ' !in u
    requires a + " " + v == b + " " + u
    ensures v == u && a == b
  {
    var s := a + " " + v;
    if |v| < |u| {
      SpaceInside(a, v, b, u);
      assert false;
    } else if |u| < |v| {
      SpaceInside(b, u, a, v);
      assert false;
    }
    assert v == s[|s| - |v|..];
    assert a == s[..|a|];
  }

  /** The space after the longer head falls inside the shorter one's tail. */
  lemma SpaceInside(a: string, v: string, b: string, u: string)
    requires a + " " + v == b + " " + u && |v| < |u|
    ensures ' ' in u
  {
    var k := |a| - |b| - 1;
    assert (a + " " + v)[|a|] == ' ';
    assert (b + " " + u)[|a|] == u[k];
  }

  lemma {:induction false} PlainJoinHasNoSpace(x: Option<string>)
    requires PlainNorm(x)
    ensures Join([x]) == JoinText(x) && ' ' !in Join([x])
  {
  }

  /** On plain lemmas `join(' ')` loses nothing. */
  lemma {:induction false} JoinInjective(ns: seq<Option<string>>, ms: seq<Option<string>>)
    requires |ns| >= 1 && |ms| >= 1
    requires forall x :: x in ns ==> PlainNorm(x)
    requires forall x :: x in ms ==> PlainNorm(x)
    requires Join(ns) == Join(ms)
    ensures ns == ms
    decreases |ns| + |ms|
  {
    var x := ns[|ns| - 1];
    var y := ms[|ms| - 1];
    assert x in ns && y in ms;
    if |ns| == 1 && |ms| == 1 {
      assert JoinText(x) == JoinText(y);
      if JoinText(x) == "" {
        assert x == None && y == None;
      }
    } else if |ns| == 1 {
      JoinHasSpace(ms);
      PlainJoinHasNoSpace(x);
    } else if |ms| == 1 {
      JoinHasSpace(ns);
      PlainJoinHasNoSpace(y);
    } else {
      var ni := ns[..|ns| - 1];
      var mi := ms[..|ms| - 1];
      LastWord(Join(ni), JoinText(x), Join(mi), JoinText(y));
      assert JoinText(x) == JoinText(y);
      if JoinText(x) == "" {
        assert x == None && y == None;
      }
      JoinInjective(ni, mi);
      assert ns == ni + [x] && ms == mi + [y];
    }
  }

  lemma KeysSnoc(os: seq<Occurrence>, o: Occurrence)
    ensures Keys(os + [o]) == Keys(os) + [Key(o)]
  {
  }

  lemma MapKeysAppend(a: seq<Option<string>>, b: seq<Option<string>>)
    ensures MapKeys(a + b) == MapKeys(a) + MapKeys(b)
  {
  }

  lemma JoinKeysAppend(a: seq<seq<Option<string>>>, b: seq<seq<Option<string>>>)
    ensures JoinKeys(a + b) == JoinKeys(a) + JoinKeys(b)
  {
  }

  /** Every key is the key of a single lemma or of a composite. */
  lemma {:induction false} KeysSplit(os: seq<Occurrence>)
    ensures multiset(Keys(os)) == multiset(MapKeys(Singles(os))) + multiset(JoinKeys(Phrases(os)))
  {
    if os != [] {
      var init := os[..|os| - 1];
      var last := os[|os| - 1];
      KeysSplit(init);
      assert os == init + [last];
      KeysSplitSnoc(init, last);
    }
  }

  lemma KeysSplitSnoc(os: seq<Occurrence>, o: Occurrence)
    requires multiset(Keys(os)) == multiset(MapKeys(Singles(os))) + multiset(JoinKeys(Phrases(os)))
    ensures multiset(Keys(os + [o])) == multiset(MapKeys(Singles(os + [o]))) + multiset(JoinKeys(Phrases(os + [o])))
  {
    KeysSnoc(os, o);
    SinglesSnoc(os, o);
    PhrasesSnoc(os, o);
    if o.Single? {
      assert Singles(os + [o]) == Singles(os) + [o.norm];
      assert Phrases(os + [o]) == Phrases(os);
      MapKeysAppend(Singles(os), [o.norm]);
      assert MapKeys([o.norm]) == [Key(o)];
      assert MapKeys(Singles(os + [o])) == MapKeys(Singles(os)) + [Key(o)];
      SplitSnoc(Keys(os), MapKeys(Singles(os)), JoinKeys(Phrases(os)), Key(o), true);
    } else {
      assert Singles(os + [o]) == Singles(os);
      assert Phrases(os + [o]) == Phrases(os) + [o.norms];
      JoinKeysAppend(Phrases(os), [o.norms]);
      assert JoinKeys([o.norms]) == [Key(o)];
      assert JoinKeys(Phrases(os + [o])) == JoinKeys(Phrases(os)) + [Key(o)];
      SplitSnoc(Keys(os), MapKeys(Singles(os)), JoinKeys(Phrases(os)), Key(o), false);
    }
  }

  lemma SplitSnoc(ks: seq<string>, ss: seq<string>, ps: seq<string>, k: string, single: bool)
    requires multiset(ks) == multiset(ss) + multiset(ps)
    ensures single ==> multiset(ks + [k]) == multiset(ss + [k]) + multiset(ps)
    ensures !single ==> multiset(ks + [k]) == multiset(ss) + multiset(ps + [k])
  {
  }

  lemma {:induction false} NounKeysAppend(a: seq<Record>, b: seq<Record>)
    ensures NounKeys(a + b) == NounKeys(a) + NounKeys(b)
  {
    if a != [] {
      NounKeysAppend(a[1..], b);
      assert (a + b)[1..] == a[1..] + b;
    } else {
      assert a + b == b;
    }
  }

  lemma {:induction false} NounKeysMember(ts: seq<Record>, j: nat)
    requires j < |ts| && NounOrAdjective(ts[j].tag)
    ensures PropertyName(ts[j].norm) in NounKeys(ts)
  {
    if j > 0 {
      NounKeysMember(ts[1..], j - 1);
    }
  }

  lemma PlainNounsSuffix(ts: seq<Record>, k: nat)
    requires PlainNouns(ts) && k <= |ts|
    ensures PlainNouns(ts[k..])
  {
    forall j | 0 <= j < |ts[k..]| && NounOrAdjective(ts[k..][j].tag)
      ensures PlainNorm(ts[k..][j].norm)
    {
      assert ts[k..][j] == ts[k + j];
    }
  }

  /** Against the reference run definition: the maximal runs that render as
      `Join(c)` are no more than the noun records carrying `c[i]`. */
  lemma {:induction false} RunsBounded(ts: seq<Record>, c: seq<Option<string>>, i: nat)
    requires PlainNouns(ts)
    requires i < |c| && forall x :: x in c ==> PlainNorm(x)
    ensures multiset(JoinKeys(Composites(ts)))[Join(c)] <= multiset(NounKeys(ts))[PropertyName(c[i])]
    decreases |ts|
  {
    if ts != [] {
      if !NounOrAdjective(ts[0].tag) {
        PlainNounsSuffix(ts, 1);
        RunsBounded(ts[1..], c, i);
        assert NounKeys(ts) == NounKeys(ts[1..]);
      } else {
        var n := LeadingRun(ts);
        PlainNounsSuffix(ts, n);
        RunsBounded(ts[n..], c, i);
        LeadingRunBounded(ts, c, i);
      }
    }
  }

  /** The leading run adds at most as many keys `Join(c)` as records with
      lemma `c[i]`. */
  lemma LeadingRunBounded(ts: seq<Record>, c: seq<Option<string>>, i: nat)
    requires ts != [] && NounOrAdjective(ts[0].tag)
    requires PlainNouns(ts)
    requires i < |c| && forall x :: x in c ==> PlainNorm(x)
    ensures multiset(JoinKeys(Composites(ts)))[Join(c)]
         <= multiset(NounKeys(ts[..LeadingRun(ts)]))[PropertyName(c[i])]
          + multiset(JoinKeys(Composites(ts[LeadingRun(ts)..])))[Join(c)]
    ensures multiset(NounKeys(ts))[PropertyName(c[i])]
         == multiset(NounKeys(ts[..LeadingRun(ts)]))[PropertyName(c[i])]
          + multiset(NounKeys(ts[LeadingRun(ts)..]))[PropertyName(c[i])]
  {
    var n := LeadingRun(ts);
    var r := Norms(ts[..n]);
    assert ts == ts[..n] + ts[n..];
    NounKeysAppend(ts[..n], ts[n..]);
    CompositesSplit(ts);
    JoinKeysAppend(AtLeastTwo(r), Composites(ts[n..]));
    LeadingRunKeys(ts[..n], c, i);
  }

  /** One run adds the key `Join(c)` at most once, and only when it holds
      a record with lemma `c[i]`. */
  lemma LeadingRunKeys(run: seq<Record>, c: seq<Option<string>>, i: nat)
    requires forall j :: 0 <= j < |run| ==> NounOrAdjective(run[j].tag)
    requires PlainNouns(run)
    requires i < |c| && forall x :: x in c ==> PlainNorm(x)
    ensures multiset(JoinKeys(AtLeastTwo(Norms(run))))[Join(c)] <= multiset(NounKeys(run))[PropertyName(c[i])]
  {
    var r := Norms(run);
    if |r| > 1 && Join(r) == Join(c) {
      RunRendersAs(run, c, i);
      assert JoinKeys(AtLeastTwo(r)) == [Join(c)];
    } else if |r| > 1 {
      assert JoinKeys(AtLeastTwo(r)) == [Join(r)];
    } else {
      assert JoinKeys(AtLeastTwo(r)) == [];
    }
  }

  /** A run of noun records that renders as `Join(c)` holds `c[i]`. */
  lemma RunRendersAs(run: seq<Record>, c: seq<Option<string>>, i: nat)
    requires forall j :: 0 <= j < |run| ==> NounOrAdjective(run[j].tag)
    requires PlainNouns(run) && run != []
    requires i < |c| && forall x :: x in c ==> PlainNorm(x)
    requires Join(Norms(run)) == Join(c)
    ensures PropertyName(c[i]) in NounKeys(run)
  {
    var r := Norms(run);
    JoinInjective(r, c);
    NounKeysMember(run, i);
  }

  /** A composite of plain lemmas is counted at most as often as each of its
      lemmas is counted on its own. */
  lemma CompositeBoundedByWords(ts: seq<Record>, c: seq<Option<string>>, i: nat)
    requires PlainNouns(ts)
    requires c in Phrases(Occurrences(ts)) && i < |c|
    ensures Frequency(Count(Keys(Occurrences(ts))), Join(c))
         <= Frequency(Count(Keys(Occurrences(ts))), PropertyName(c[i]))
  {
    CompositesAreMaximalRuns(ts);
    CompositeLemmasAreNouns(ts);
    PlainNounNorms(ts);
    assert c[i] in c;
    UnigramFrequency(ts, PropertyName(c[i]));
    CompositeFrequency(ts, c);
    RunsBounded(ts, c, i);
  }

  /** The count of a composite's key is the number of maximal runs that
      render as that key. */
  lemma CompositeFrequency(ts: seq<Record>, c: seq<Option<string>>)
    requires PlainNouns(ts)
    requires c in Composites(ts)
    ensures Frequency(Count(Keys(Occurrences(ts))), Join(c)) == multiset(JoinKeys(Composites(ts)))[Join(c)]
  {
    var os := Occurrences(ts);
    CompositesAreMaximalRuns(ts);
    UnigramsAreNounLemmas(ts);
    CompositesHaveTwoLemmas(ts);
    JoinHasSpace(c);
    FrequencySplit(os, Join(c));
    NoUnigramHasSpace(ts, Join(c));
  }

  lemma FrequencySplit(os: seq<Occurrence>, k: string)
    ensures Frequency(Count(Keys(os)), k)
         == multiset(MapKeys(Singles(os)))[k] + multiset(JoinKeys(Phrases(os)))[k]
  {
    CountSpec(Keys(os));
    KeysSplit(os);
  }

  lemma NoUnigramHasSpace(ts: seq<Record>, k: string)
    requires PlainNouns(ts) && ' ' in k
    ensures multiset(MapKeys(NounNorms(ts)))[k] == 0
  {
    PlainNounNorms(ts);
    var ks := MapKeys(NounNorms(ts));
    forall j | 0 <= j < |ks|
      ensures ks[j] != k
    {
      assert NounNorms(ts)[j] in NounNorms(ts);
    }
  }

  lemma {:induction false} PlainNounNorms(ts: seq<Record>)
    requires PlainNouns(ts)
    ensures forall x :: x in NounNorms(ts) ==> PlainNorm(x)
    decreases |ts|
  {
    if ts != [] {
      PlainNounNorms(ts[1..]);
    }
  }

  // ---------------------------------------------------------------------
  // Strength.

  /** A composite of space-free lemmas has as many words as lemmas. */
  lemma {:induction false} StrengthOfJoin(ns: seq<Option<string>>)
    requires |ns| >= 1
    requires forall x :: x in ns ==> ' ' !in JoinText(x)
    ensures Strength(Join(ns)) == |ns|
  {
    if |ns| > 1 {
      var init := ns[..|ns| - 1];
      StrengthOfJoin(init);
      CountCharAppend(Join(init), " ", ' ');
      CountCharAppend(Join(init) + " ", JoinText(ns[|ns| - 1]), ' ');
      SpaceFreeCount(JoinText(ns[|ns| - 1]));
    } else {
      SpaceFreeCount(JoinText(ns[0]));
    }
  }

  lemma {:induction false} SpaceFreeCount(s: string)
    requires ' ' !in s
    ensures CountChar(s, ' ') == 0
  {
    if s != [] {
      SpaceFreeCount(s[..|s| - 1]);
    }
  }

  // ---------------------------------------------------------------------
  // Phase 2.

  lemma {:induction false} SelectKeysSpec(keys: seq<string>, t: Tally, minOccur: int, noLimitStrength: int)
    requires forall i, j :: 0 <= i < j < |keys| ==> keys[i] != keys[j]
    ensures var s := SelectKeys(keys, t, minOccur, noLimitStrength);
            && (forall k :: k in s <==> k in keys && Accepts(minOccur, noLimitStrength, Frequency(t, k), Strength(k)))
            && (forall i, j :: 0 <= i < j < |s| ==> s[i] != s[j])
  {
    if keys != [] {
      SelectKeysSpec(keys[..|keys| - 1], t, minOccur, noLimitStrength);
      assert keys == keys[..|keys| - 1] + [keys[|keys| - 1]];
    }
  }

  /** Every entry of the result carries its phase-1 count and its number of
      space-separated words, and a counted term is present iff the filter
      accepts it; keys are distinct and are exactly the result's entries. */
  lemma ExtractionSpec(ts: seq<Record>, minOccur: int, noLimitStrength: int)
    ensures var t := Count(Keys(Occurrences(ts)));
            var e := ExtractionOf(ts, minOccur, noLimitStrength);
            && (forall w :: w in e.terms <==>
                  w in t.frequency && Accepts(minOccur, noLimitStrength, t.frequency[w], Strength(w)))
            && (forall w :: w in e.terms ==>
                  e.terms[w] == Entry(t.frequency[w], Strength(w)) && e.terms[w].frequency >= 1)
            && (forall w :: w in e.keys <==> w in e.terms)
            && (forall i, j :: 0 <= i < j < |e.keys| ==> e.keys[i] != e.keys[j])
  {
    var words := Keys(Occurrences(ts));
    var t := Count(words);
    CountSpec(words);
    SelectKeysSpec(t.keys, t, minOccur, noLimitStrength);
    forall w | w in t.frequency
      ensures t.frequency[w] >= 1
    {
      assert Frequency(t, w) == multiset(words)[w];
    }
  }

  /** Empty input yields an empty result. */
  lemma ExtractEmpty(minOccur: int, noLimitStrength: int)
    ensures ExtractionOf([], minOccur, noLimitStrength) == Extraction([], map[])
  {
    assert Occurrences([]) == [];
    assert Keys([]) == [];
  }

  // ---------------------------------------------------------------------
  // The accumulator as written: `terms` is a plain object that also holds
  // `_add`, and `!this[norm]` is false for every name it inherits.

  /** The names `_add` finds already present, so that it never creates an
      entry for them. */
  const AccumulatorNames: set<string> := ObjectPrototypeNames + {"_add"}

  /** `_add` as written: for an inherited name it increments a property of
      the inherited value, which phase 2 never enumerates. */
  function AddAsWritten(t: Tally, word: string): (t': Tally)
    ensures word in AccumulatorNames ==> t' == t
    ensures word !in AccumulatorNames ==> t' == Add(t, word)
  {
    if word in AccumulatorNames then t else Add(t, word)
  }

  function CountAsWritten(words: seq<string>): Tally
  {
    if words == [] then Tally([], map[])
    else AddAsWritten(CountAsWritten(words[..|words| - 1]), words[|words| - 1])
  }

  function ExtractionAsWritten(ts: seq<Record>, minOccur: int, noLimitStrength: int): Extraction
  {
    Select(CountAsWritten(Keys(Occurrences(ts))), minOccur, noLimitStrength)
  }

  /** A single noun whose lemma is "constructor" is accepted with the
      thresholds of a short document, yet the code as written drops it;
      the corrected accumulator keeps it. */
  lemma InheritedLemmaDropped()
    ensures var ts := [Record("constructor", "NN", Some("constructor"), Some("constructor"))];
            && ExtractionAsWritten(ts, 1, 2) == Extraction([], map[])
            && ExtractionOf(ts, 1, 2) == Extraction(["constructor"], map["constructor" := Entry(1, 1)])
  {
    var ts := [Record("constructor", "NN", Some("constructor"), Some("constructor"))];
    SingleNounKeys(ts, "constructor");
    DroppedAsWritten("constructor");
    KeptWhenCorrected("constructor");
  }

  /** One noun record gives one key, its lemma. */
  lemma SingleNounKeys(ts: seq<Record>, w: string)
    requires ts == [Record(w, "NN", Some(w), Some(w))]
    ensures Keys(Occurrences(ts)) == [w]
  {
    assert NounOrAdjective("NN") by {
      assert "NN"[..1] == "N";
    }
    assert Run(Start, ts) == Run(Transition(Start, ts[0]), []) by {
      assert ts[1..] == [];
    }
    assert Occurrences(ts) == [Single(Some(w))];
  }

  lemma DroppedAsWritten(w: string)
    requires w in AccumulatorNames
    ensures Select(CountAsWritten([w]), 1, 2) == Extraction([], map[])
  {
    assert [w][..0] == [];
    assert CountAsWritten([w]) == Tally([], map[]);
  }

  lemma KeptWhenCorrected(w: string)
    requires ' ' !in w
    ensures Select(Count([w]), 1, 2) == Extraction([w], map[w := Entry(1, 1)])
  {
    assert [w][..0] == [];
    var t := Count([w]);
    assert Count([]) == Tally([], map[]);
    assert [] + [w] == [w];
    assert t == Tally([w], map[w := 1]);
    SpaceFreeCount(w);
    assert SelectKeys([w], t, 1, 2) == [w] by {
      assert [w][..0] == [];
    }
    var e := Select(t, 1, 2);
    assert e.terms.Keys == {w};
  }

  /** Away from the inherited names the two accumulators agree. */
  lemma {:induction false} CountAsWrittenAgrees(words: seq<string>)
    requires forall i :: 0 <= i < |words| ==> words[i] !in AccumulatorNames
    ensures CountAsWritten(words) == Count(words)
  {
    if words != [] {
      CountAsWrittenAgrees(words[..|words| - 1]);
    }
  }

  // ---------------------------------------------------------------------
  // The documented example.

  /** The sanitizer's marker, under a lexicon that tags '#' as "#" (the
      bundled lexicon is not part of this model, so this is assumed). */
  const Hash := Record("#", "#", None, None)

  function Word(w: string, tag: string): Record
  {
    Record(w, tag, Some(w), Some(w))
  }

  /** A reconstruction of what `tokenize`, `tag`, `lemmatize` and `sanitize`
      would make of 'This is a sample test for this module. It index any
      fulltext. It is a sample test.', assuming a lexicon that tags "this"
      as "DT", "sample", "test", "module" and "index" as "NN", has no entry
      for "fulltext", and tags the marker '#' as "#", and a lemmatizer that
      returns every word unchanged. */
  const ExampleRecords := [
    Word("this", "DT"), Hash, Hash, Word("sample", "NN"), Word("test", "NN"), Hash,
    Word("this", "DT"), Word("module", "NN"), Hash, Hash, Word("index", "NN"), Hash,
    Word("fulltext", "NND"), Hash, Hash, Hash, Hash, Word("sample", "NN"), Word("test", "NN"), Hash]

  /** The phase-1 loop over `a + b` is the loop over `a`, then over `b`. */
  lemma {:induction false} RunConcat(m: Machine, a: seq<Record>, b: seq<Record>)
    ensures Run(m, a + b) == Run(Run(m, a), b)
    decreases |a|
  {
    if a == [] {
      assert a + b == b;
    } else {
      assert (a + b)[1..] == a[1..] + b;
      RunConcat(Transition(m, a[0]), a[1..], b);
    }
  }

  const SampleTest := [Some("sample"), Some("test")]

  lemma RunStep(m: Machine, ts: seq<Record>, k: nat)
    requires k < |ts|
    ensures Run(m, ts[k..]) == Run(Transition(m, ts[k]), ts[k + 1..])
  {
    assert ts[k..][1..] == ts[k + 1..];
  }

  // The example is run sentence by sentence, each from `SEARCH` state.

  const ExampleA := [Word("this", "DT"), Hash, Hash, Word("sample", "NN"), Word("test", "NN"), Hash]
  const ExampleB := [Word("this", "DT"), Word("module", "NN"), Hash, Hash, Word("index", "NN"), Hash]
  const ExampleC := [Word("fulltext", "NND"), Hash, Hash, Hash, Hash]
  const ExampleD := [Word("sample", "NN"), Word("test", "NN"), Hash]

  lemma TagFamilies()
    ensures NounOrAdjective("NN") && NounOrAdjective("NND")
    ensures !NounOrAdjective("DT") && !NounOrAdjective("#")
  {
    assert "DT"[..1] == "D" && "#"[..1] == "#";
  }

  lemma ExampleRunA(m: Machine)
    requires m.state == Search && m.multiterm == []
    ensures Run(m, ExampleA) == Machine(Search, [], m.occurrences + [Single(Some("sample")), Single(Some("test")), Phrase([Some("sample"), Some("test")])])
  {
    TagFamilies();
    ghost var m0 := m;
    assert ExampleA[0..] == ExampleA;
    ghost var m1 := Transition(m0, ExampleA[0]);
    RunStep(m0, ExampleA, 0);
    assert m1 == Machine(Search, [], m.occurrences);
    ghost var m2 := Transition(m1, ExampleA[1]);
    RunStep(m1, ExampleA, 1);
    assert m2 == Machine(Search, [], m.occurrences);
    ghost var m3 := Transition(m2, ExampleA[2]);
    RunStep(m2, ExampleA, 2);
    assert m3 == Machine(Search, [], m.occurrences);
    ghost var m4 := Transition(m3, ExampleA[3]);
    RunStep(m3, ExampleA, 3);
    assert m4 == Machine(Noun, [Some("sample")], m.occurrences + [Single(Some("sample"))]);
    ghost var m5 := Transition(m4, ExampleA[4]);
    RunStep(m4, ExampleA, 4);
    assert m5 == Machine(Noun, [Some("sample"), Some("test")], m.occurrences + [Single(Some("sample")), Single(Some("test"))]);
    ghost var m6 := Transition(m5, ExampleA[5]);
    RunStep(m5, ExampleA, 5);
    assert m6 == Machine(Search, [], m.occurrences + [Single(Some("sample")), Single(Some("test")), Phrase([Some("sample"), Some("test")])]);
    assert ExampleA[6..] == [];
  }

  lemma ExampleRunB(m: Machine)
    requires m.state == Search && m.multiterm == []
    ensures Run(m, ExampleB) == Machine(Search, [], m.occurrences + [Single(Some("module")), Single(Some("index"))])
  {
    TagFamilies();
    ghost var m0 := m;
    assert ExampleB[0..] == ExampleB;
    ghost var m1 := Transition(m0, ExampleB[0]);
    RunStep(m0, ExampleB, 0);
    assert m1 == Machine(Search, [], m.occurrences);
    ghost var m2 := Transition(m1, ExampleB[1]);
    RunStep(m1, ExampleB, 1);
    assert m2 == Machine(Noun, [Some("module")], m.occurrences + [Single(Some("module"))]);
    ghost var m3 := Transition(m2, ExampleB[2]);
    RunStep(m2, ExampleB, 2);
    assert m3 == Machine(Search, [], m.occurrences + [Single(Some("module"))]);
    ghost var m4 := Transition(m3, ExampleB[3]);
    RunStep(m3, ExampleB, 3);
    assert m4 == Machine(Search, [], m.occurrences + [Single(Some("module"))]);
    ghost var m5 := Transition(m4, ExampleB[4]);
    RunStep(m4, ExampleB, 4);
    assert m5 == Machine(Noun, [Some("index")], m.occurrences + [Single(Some("module")), Single(Some("index"))]);
    ghost var m6 := Transition(m5, ExampleB[5]);
    RunStep(m5, ExampleB, 5);
    assert m6 == Machine(Search, [], m.occurrences + [Single(Some("module")), Single(Some("index"))]);
    assert ExampleB[6..] == [];
  }

  lemma ExampleRunC(m: Machine)
    requires m.state == Search && m.multiterm == []
    ensures Run(m, ExampleC) == Machine(Search, [], m.occurrences + [Single(Some("fulltext"))])
  {
    TagFamilies();
    ghost var m0 := m;
    assert ExampleC[0..] == ExampleC;
    ghost var m1 := Transition(m0, ExampleC[0]);
    RunStep(m0, ExampleC, 0);
    assert m1 == Machine(Noun, [Some("fulltext")], m.occurrences + [Single(Some("fulltext"))]);
    ghost var m2 := Transition(m1, ExampleC[1]);
    RunStep(m1, ExampleC, 1);
    assert m2 == Machine(Search, [], m.occurrences + [Single(Some("fulltext"))]);
    ghost var m3 := Transition(m2, ExampleC[2]);
    RunStep(m2, ExampleC, 2);
    assert m3 == Machine(Search, [], m.occurrences + [Single(Some("fulltext"))]);
    ghost var m4 := Transition(m3, ExampleC[3]);
    RunStep(m3, ExampleC, 3);
    assert m4 == Machine(Search, [], m.occurrences + [Single(Some("fulltext"))]);
    ghost var m5 := Transition(m4, ExampleC[4]);
    RunStep(m4, ExampleC, 4);
    assert m5 == Machine(Search, [], m.occurrences + [Single(Some("fulltext"))]);
    assert ExampleC[5..] == [];
  }

  lemma ExampleRunD(m: Machine)
    requires m.state == Search && m.multiterm == []
    ensures Run(m, ExampleD) == Machine(Search, [], m.occurrences + [Single(Some("sample")), Single(Some("test")), Phrase([Some("sample"), Some("test")])])
  {
    TagFamilies();
    ghost var m0 := m;
    assert ExampleD[0..] == ExampleD;
    ghost var m1 := Transition(m0, ExampleD[0]);
    RunStep(m0, ExampleD, 0);
    assert m1 == Machine(Noun, [Some("sample")], m.occurrences + [Single(Some("sample"))]);
    ghost var m2 := Transition(m1, ExampleD[1]);
    RunStep(m1, ExampleD, 1);
    assert m2 == Machine(Noun, [Some("sample"), Some("test")], m.occurrences + [Single(Some("sample")), Single(Some("test"))]);
    ghost var m3 := Transition(m2, ExampleD[2]);
    RunStep(m2, ExampleD, 2);
    assert m3 == Machine(Search, [], m.occurrences + [Single(Some("sample")), Single(Some("test")), Phrase([Some("sample"), Some("test")])]);
    assert ExampleD[3..] == [];
  }

  lemma ExampleOccurrences()
    ensures Occurrences(ExampleRecords)
         == [Single(Some("sample")), Single(Some("test")), Phrase(SampleTest),
             Single(Some("module")), Single(Some("index")), Single(Some("fulltext")),
             Single(Some("sample")), Single(Some("test")), Phrase(SampleTest)]
  {
    ExampleSegments();
    ExampleRunsABC();
    RunConcat(Start, ExampleA + ExampleB + ExampleC, ExampleD);
    ExampleRunD(Run(Start, ExampleA + ExampleB + ExampleC));
  }

  lemma ExampleSegments()
    ensures ExampleRecords == ExampleA + ExampleB + ExampleC + ExampleD
  {
  }

  lemma ExampleRunsABC()
    ensures Run(Start, ExampleA + ExampleB + ExampleC)
         == Machine(Search, [], [Single(Some("sample")), Single(Some("test")), Phrase(SampleTest),
                                 Single(Some("module")), Single(Some("index")), Single(Some("fulltext"))])
  {
    ExampleRunsAB();
    RunConcat(Start, ExampleA + ExampleB, ExampleC);
    ExampleRunC(Run(Start, ExampleA + ExampleB));
  }

  lemma ExampleRunsAB()
    ensures Run(Start, ExampleA + ExampleB)
         == Machine(Search, [], [Single(Some("sample")), Single(Some("test")), Phrase(SampleTest),
                                 Single(Some("module")), Single(Some("index"))])
  {
    RunConcat(Start, ExampleA, ExampleB);
    ExampleRunA(Start);
    ExampleRunB(Run(Start, ExampleA));
  }

  lemma CountSnoc(words: seq<string>, w: string, t: Tally)
    requires Count(words) == t
    ensures Count(words + [w]) == Add(t, w)
  {
    assert (words + [w])[..|words|] == words;
  }

  /** Counting the example's nine keys: six distinct words, the first
      three of them twice. */
  lemma ExampleCountsFirst(a: string, b: string, c: string, d: string, e: string, f: string)
      requires a != b && a != c && a != d && a != e && a != f
      requires b != c && b != d && b != e && b != f
      requires c != d && c != e && c != f
      requires d != e && d != f && e != f
      ensures Count([a, b, c, d, e, f]) == Tally([a, b, c, d, e, f], map[a := 1, b := 1, c := 1, d := 1, e := 1, f := 1])
  {
      ExampleCountsFive(a, b, c, d, e);
      ghost var t5 := Tally([a, b, c, d, e], map[a := 1, b := 1, c := 1, d := 1, e := 1]);
      CountSnoc([a, b, c, d, e], f, t5);
      assert [a, b, c, d, e] + [f] == [a, b, c, d, e, f];
      assert f !in t5.frequency;
  }

  lemma ExampleCountsFive(a: string, b: string, c: string, d: string, e: string)
      requires a != b && a != c && a != d && a != e
      requires b != c && b != d && b != e
      requires c != d && c != e
      requires d != e
      ensures Count([a, b, c, d, e]) == Tally([a, b, c, d, e], map[a := 1, b := 1, c := 1, d := 1, e := 1])
  {
      ExampleCountsThree(a, b, c);
      ghost var t3 := Tally([a, b, c], map[a := 1, b := 1, c := 1]);
      CountSnoc([a, b, c], d, t3);
      assert [a, b, c] + [d] == [a, b, c, d];
      ghost var t4 := Tally([a, b, c, d], map[a := 1, b := 1, c := 1, d := 1]);
      assert Add(t3, d) == t4;
      CountSnoc([a, b, c, d], e, t4);
      assert [a, b, c, d] + [e] == [a, b, c, d, e];
  }

  lemma ExampleCountsThree(a: string, b: string, c: string)
      requires a != b && a != c && b != c
      ensures Count([a, b, c]) == Tally([a, b, c], map[a := 1, b := 1, c := 1])
  {
      ghost var t0 := Tally([], map[]);
      ghost var t1 := Add(t0, a);
      CountSnoc([], a, t0);
      assert [] + [a] == [a];
      ghost var t2 := Add(t1, b);
      CountSnoc([a], b, t1);
      assert [a] + [b] == [a, b];
      CountSnoc([a, b], c, t2);
      assert [a, b] + [c] == [a, b, c];
  }

  lemma ExampleCounts(a: string, b: string, c: string, d: string, e: string, f: string)
      requires a != b && a != c && a != d && a != e && a != f
      requires b != c && b != d && b != e && b != f
      requires c != d && c != e && c != f
      requires d != e && d != f && e != f
      ensures Count([a, b, c, d, e, f, a, b, c]) == Tally([a, b, c, d, e, f], map[a := 2, b := 2, c := 2, d := 1, e := 1, f := 1])
  {
      ExampleCountsSecondB(a, b, c, d, e, f);
      CountSnoc([a, b, c, d, e, f, a, b], c, Tally([a, b, c, d, e, f], map[a := 2, b := 2, c := 1, d := 1, e := 1, f := 1]));
      assert [a, b, c, d, e, f, a, b] + [c] == [a, b, c, d, e, f, a, b, c];
  }

  lemma ExampleCountsSecondB(a: string, b: string, c: string, d: string, e: string, f: string)
      requires a != b && a != c && a != d && a != e && a != f
      requires b != c && b != d && b != e && b != f
      requires c != d && c != e && c != f
      requires d != e && d != f && e != f
      ensures Count([a, b, c, d, e, f, a, b]) == Tally([a, b, c, d, e, f], map[a := 2, b := 2, c := 1, d := 1, e := 1, f := 1])
  {
      ExampleCountsSecondA(a, b, c, d, e, f);
      CountSnoc([a, b, c, d, e, f, a], b, Tally([a, b, c, d, e, f], map[a := 2, b := 1, c := 1, d := 1, e := 1, f := 1]));
      assert [a, b, c, d, e, f, a] + [b] == [a, b, c, d, e, f, a, b];
  }

  lemma ExampleCountsSecondA(a: string, b: string, c: string, d: string, e: string, f: string)
      requires a != b && a != c && a != d && a != e && a != f
      requires b != c && b != d && b != e && b != f
      requires c != d && c != e && c != f
      requires d != e && d != f && e != f
      ensures Count([a, b, c, d, e, f, a]) == Tally([a, b, c, d, e, f], map[a := 2, b := 1, c := 1, d := 1, e := 1, f := 1])
  {
      ExampleCountsFirst(a, b, c, d, e, f);
      CountSnoc([a, b, c, d, e, f], a, Tally([a, b, c, d, e, f], map[a := 1, b := 1, c := 1, d := 1, e := 1, f := 1]));
      assert [a, b, c, d, e, f] + [a] == [a, b, c, d, e, f, a];
  }

  /** When the filter accepts every counted key, phase 2 keeps them all, in
      order. */
  lemma {:induction false} SelectAll(keys: seq<string>, t: Tally, minOccur: int, noLimitStrength: int)
    requires forall k :: k in keys ==> Accepts(minOccur, noLimitStrength, Frequency(t, k), Strength(k))
    ensures SelectKeys(keys, t, minOccur, noLimitStrength) == keys
  {
    if keys != [] {
      SelectAll(keys[..|keys| - 1], t, minOccur, noLimitStrength);
    }
  }

  const ExampleTally := Tally(["sample", "test", "sample test", "module", "index", "fulltext"],
                              map["sample" := 2, "test" := 2, "sample test" := 2,
                                  "module" := 1, "index" := 1, "fulltext" := 1])

  lemma ExampleCountsAll()
    ensures Count(Keys(Occurrences(ExampleRecords))) == ExampleTally
  {
    ExampleOccurrences();
    assert Join(SampleTest) == "sample test" by {
      assert SampleTest[..1] == [Some("sample")];
    }
    var words := Keys(Occurrences(ExampleRecords));
    assert words == ["sample", "test", "sample test", "module", "index", "fulltext", "sample", "test", "sample test"];
    ExampleCounts("sample", "test", "sample test", "module", "index", "fulltext");
  }

  /** Phase 2 on the example's counts with `minOccur` 1 keeps every key. */
  lemma ExampleSelectKeys(t: Tally, a: string, b: string, c: string, d: string, e: string, f: string)
    requires t == Tally([a, b, c, d, e, f], map[a := 2, b := 2, c := 2, d := 1, e := 1, f := 1])
    ensures Select(t, 1, 2).keys == [a, b, c, d, e, f]
    ensures Select(t, 1, 2).terms.Keys == {a, b, c, d, e, f}
  {
    assert forall k :: k in t.keys ==> Frequency(t, k) >= 1;
    SelectCounted(t, 2);
    assert (set k | k in t.keys) == {a, b, c, d, e, f};
  }

  /** With `minOccur` 1, phase 2 keeps every key counted at least once. */
  lemma SelectCounted(t: Tally, noLimitStrength: int)
    requires forall k :: k in t.keys ==> Frequency(t, k) >= 1
    ensures Select(t, 1, noLimitStrength).keys == t.keys
    ensures Select(t, 1, noLimitStrength).terms.Keys == set k | k in t.keys
  {
    SelectAll(t.keys, t, 1, noLimitStrength);
  }

  /** ... and gives each its count and strength. */
  lemma ExampleSelectEntries(t: Tally, a: string, b: string, c: string, d: string, e: string, f: string)
    requires a != b && a != c && a != d && a != e && a != f
    requires b != c && b != d && b != e && b != f
    requires c != d && c != e && c != f
    requires d != e && d != f && e != f
    requires Strength(a) == 1 && Strength(b) == 1 && Strength(c) == 2
    requires Strength(d) == 1 && Strength(e) == 1 && Strength(f) == 1
    requires t == Tally([a, b, c, d, e, f], map[a := 2, b := 2, c := 2, d := 1, e := 1, f := 1])
    ensures var x := Select(t, 1, 2);
            && x.terms[a] == Entry(2, 1) && x.terms[b] == Entry(2, 1) && x.terms[c] == Entry(2, 2)
            && x.terms[d] == Entry(1, 1) && x.terms[e] == Entry(1, 1) && x.terms[f] == Entry(1, 1)
  {
    assert Frequency(t, a) == 2 && Frequency(t, b) == 2 && Frequency(t, c) == 2;
    assert Frequency(t, d) == 1 && Frequency(t, e) == 1 && Frequency(t, f) == 1;
  }

  lemma ExampleStrengths()
    ensures Strength("sample") == 1 && Strength("test") == 1 && Strength("sample test") == 2
    ensures Strength("module") == 1 && Strength("index") == 1 && Strength("fulltext") == 1
  {
    SpaceFreeCount("sample");
    SpaceFreeCount("test");
    SpaceFreeCount("module");
    SpaceFreeCount("index");
    SpaceFreeCount("fulltext");
    assert Join(SampleTest) == "sample test" by {
      assert SampleTest[..1] == [Some("sample")];
    }
    StrengthOfJoin(SampleTest);
  }

  /** The result documented for `extract`, obtained from the reconstructed
      records above (not from the documented `tag` call, see
      `DocumentedCall`): the 20 records give `minOccur` 1, so every counted
      term is kept, with these frequencies and strengths. */
  lemma DocumentedExample()
    ensures Threshold(DefaultLengthSteps, |ExampleRecords|) == 1
    ensures var e := ExtractionOf(ExampleRecords, 1, DefaultNoLimitStrength);
            && e.keys == ["sample", "test", "sample test", "module", "index", "fulltext"]
            && e.terms.Keys == {"sample", "test", "sample test", "module", "index", "fulltext"}
            && e.terms["sample"] == Entry(2, 1) && e.terms["test"] == Entry(2, 1)
            && e.terms["sample test"] == Entry(2, 2) && e.terms["module"] == Entry(1, 1)
            && e.terms["index"] == Entry(1, 1) && e.terms["fulltext"] == Entry(1, 1)
  {
    ExampleCountsAll();
    ExampleStrengths();
    ExampleSelectKeys(ExampleTally, "sample", "test", "sample test", "module", "index", "fulltext");
    ExampleSelectEntries(ExampleTally, "sample", "test", "sample test", "module", "index", "fulltext");
  }

  // ---------------------------------------------------------------------
  // The documented call as written: `tag` on the raw string.

  /** `n` lemmas `undefined`, as untagged characters leave in the buffer. */
  function Blanks(n: nat): (ns: seq<Option<string>>)
    ensures |ns| == n && forall x :: x in ns ==> x == None
  {
    seq(n, i requires 0 <= i < n => None)
  }

  function Units(n: nat): (os: seq<Occurrence>)
    ensures |os| == n && forall i :: 0 <= i < n ==> os[i] == Single(None)
  {
    seq(n, i requires 0 <= i < n => Single(None))
  }

  /** Records without a lemma whose tags are all in the noun family. */
  predicate UnknownNouns(ts: seq<Record>)
  {
    forall j :: 0 <= j < |ts| ==> NounOrAdjective(ts[j].tag) && ts[j].norm == None
  }

  /** On such records the machine stays in `NOUN` and buffers every
      `undefined` lemma. */
  lemma {:induction false} RunUnknown(m: Machine, ts: seq<Record>)
    requires ts != [] && UnknownNouns(ts)
    ensures Run(m, ts) == Machine(Noun, m.multiterm + Blanks(|ts|), m.occurrences + Units(|ts|))
    decreases |ts|
  {
    var next := Transition(m, ts[0]);
    assert next == Machine(Noun, m.multiterm + [None], m.occurrences + [Single(None)]);
    if |ts| > 1 {
      RunUnknown(next, ts[1..]);
      assert m.multiterm + [None] + Blanks(|ts| - 1) == m.multiterm + Blanks(|ts|);
      assert m.occurrences + [Single(None)] + Units(|ts| - 1) == m.occurrences + Units(|ts|);
    } else {
      assert Run(next, ts[1..]) == next;
    }
  }

  lemma {:induction false} CountUndefined(n: nat)
    requires n >= 1
    ensures Count(Keys(Units(n))) == Tally(["undefined"], map["undefined" := n])
  {
    var ks := Keys(Units(n));
    if n > 1 {
      CountUndefined(n - 1);
      assert ks[..n - 1] == Keys(Units(n - 1));
    } else {
      assert ks[..0] == [];
    }
  }

  lemma OccurrencesUnknown(ts: seq<Record>)
    requires |ts| >= 2 && UnknownNouns(ts)
    ensures Occurrences(ts) == Units(|ts|) + [Phrase(Blanks(|ts|))]
  {
    var n := |ts|;
    RunUnknown(Start, ts);
    assert [] + Blanks(n) == Blanks(n) && [] + Units(n) == Units(n);
    assert Run(Start, ts) == Machine(Noun, Blanks(n), Units(n));
  }

  /** The counts: "undefined" once per record, the blank composite once. */
  lemma CountUnknown(ts: seq<Record>)
    requires |ts| >= 2 && UnknownNouns(ts)
    ensures Join(Blanks(|ts|)) != "undefined"
    ensures Count(Keys(Occurrences(ts)))
         == Tally(["undefined", Join(Blanks(|ts|))], map["undefined" := |ts|, Join(Blanks(|ts|)) := 1])
  {
    var n := |ts|;
    OccurrencesUnknown(ts);
    KeysSnoc(Units(n), Phrase(Blanks(n)));
    CountUndefined(n);
    JoinHasSpace(Blanks(n));
  }

  /** Both counted keys pass the filter. */
  lemma SelectUnknown(n: nat, blank: string, minOccur: int, noLimitStrength: int)
    requires n >= 2 && minOccur <= n && noLimitStrength <= n
    requires blank != "undefined" && Strength(blank) == n
    ensures Select(Tally(["undefined", blank], map["undefined" := n, blank := 1]), minOccur, noLimitStrength)
         == Extraction(["undefined", blank], map["undefined" := Entry(n, 1), blank := Entry(1, n)])
  {
    var t := Tally(["undefined", blank], map["undefined" := n, blank := 1]);
    SpaceFreeCount("undefined");
    assert Accepts(minOccur, noLimitStrength, Frequency(t, "undefined"), Strength("undefined"));
    assert Accepts(minOccur, noLimitStrength, Frequency(t, blank), Strength(blank));
    assert t.keys[..1] == ["undefined"];
    assert ["undefined"][..0] == [];
    assert SelectKeys(["undefined"], t, minOccur, noLimitStrength) == ["undefined"];
    assert SelectKeys(t.keys, t, minOccur, noLimitStrength) == ["undefined", blank];
    assert SelectEntries(t.keys, t, minOccur, noLimitStrength).Keys == {"undefined", blank};
  }

  /** Every character untagged by the default lexicon is counted as
      "undefined", and the whole text is one composite of blank lemmas. */
  lemma UnknownNounsExtraction(ts: seq<Record>, minOccur: int, noLimitStrength: int)
    requires |ts| >= 2 && UnknownNouns(ts)
    requires minOccur <= |ts| && noLimitStrength <= |ts|
    ensures var blank := Join(Blanks(|ts|));
            var e := ExtractionOf(ts, minOccur, noLimitStrength);
            && CountChar(blank, ' ') == |ts| - 1
            && e.keys == ["undefined", blank]
            && e.terms == map["undefined" := Entry(|ts|, 1), blank := Entry(1, |ts|)]
  {
    CountUnknown(ts);
    StrengthOfJoin(Blanks(|ts|));
    SelectUnknown(|ts|, Join(Blanks(|ts|)), minOccur, noLimitStrength);
  }

  /** The example call exactly as documented: `tag` receives the string, so
      each of its 82 characters becomes a record tagged "NND" with no lemma,
      the threshold for 82 records is 1, and `extract` returns "undefined"
      82 times and one composite of 81 spaces, not the documented terms. */
  lemma DocumentedCall(text: string)
    requires text == "This is a sample test for this module. It index any fulltext. It is a sample test."
    ensures |text| == 82
    ensures Threshold(DefaultLengthSteps, |text|) == 1
    ensures var blank := Join(Blanks(|text|));
            var e := ExtractionOf(Tagged(map[], Characters(text)), 1, DefaultNoLimitStrength);
            && CountChar(blank, ' ') == 81
            && e.keys == ["undefined", blank]
            && e.terms == map["undefined" := Entry(82, 1), blank := Entry(1, 82)]
            && "sample" !in e.terms
  {
    var ts := Tagged(map[], Characters(text));
    assert UnknownNouns(ts);
    UnknownNounsExtraction(ts, 1, DefaultNoLimitStrength);
  }
}
