/** The dictionary-lookup part-of-speech tagger of src/tagger.js. */
module Tagging {
  import opened Records

  /** The tag given to a term the lexicon has no (truthy) tag for. */
  const Unknown := "NND"

  /** The tag of one term: its lexicon entry when that is truthy (a
      non-empty string), the fallback tag otherwise. The lexicon is a
      null-prototype copy, so only its own keys are ever looked up. */
  function TagFor(lexicon: map<string, string>, term: string): (tag: string)
    ensures term in lexicon && lexicon[term] != "" ==> tag == lexicon[term]
    ensures term !in lexicon || lexicon[term] == "" ==> tag == Unknown
  {
    if term in lexicon && lexicon[term] != "" then lexicon[term] else Unknown
  }

  /** The records `tag` returns for `terms`. */
  function Tagged(lexicon: map<string, string>, terms: seq<string>): (records: seq<Record>)
    ensures |records| == |terms|
    ensures forall i :: 0 <= i < |terms| ==>
              records[i] == Record(terms[i], TagFor(lexicon, terms[i]), None, None)
  {
    seq(|terms|, i requires 0 <= i < |terms| => Record(terms[i], TagFor(lexicon, terms[i]), None, None))
  }

  /** A string passed where an array of terms is expected is read character
      by character: element i is the one-character string s[i]. */
  function Characters(s: string): (terms: seq<string>)
    ensures |terms| == |s|
    ensures forall i :: 0 <= i < |s| ==> terms[i] == [s[i]]
  {
    seq(|s|, i requires 0 <= i < |s| => [s[i]])
  }

  class Tagger {
    var lexicon: map<string, string>

    /** Copies every key of the given lexicon into a fresh lexicon. */
    constructor (lexicon: map<string, string>)
      ensures this.lexicon == lexicon
    {
      var copy: map<string, string> := map[];
      var rest := lexicon.Keys;
      while rest != {}
        invariant rest <= lexicon.Keys
        invariant copy.Keys == lexicon.Keys - rest
        invariant forall k :: k in copy ==> copy[k] == lexicon[k]
        decreases rest
      {
        var k :| k in rest;
        copy := copy[k := lexicon[k]];
        rest := rest - {k};
      }
      this.lexicon := copy;
    }

    /** `tag(terms)`: one record per term, in order. */
    method Tag(terms: seq<string>) returns (result: seq<Record>)
      ensures result == Tagged(lexicon, terms)
    {
      result := [];
      for i := 0 to |terms|
        invariant result == Tagged(lexicon, terms[..i])
      {
        var term := terms[i];
        result := result + [Record(term, TagFor(lexicon, term), None, None)];
      }
      assert terms[..|terms|] == terms;
    }
  }

  /** Every tag is the fallback or a non-empty value of the lexicon. */
  lemma TagsComeFromLexicon(lexicon: map<string, string>, terms: seq<string>, i: nat)
    requires i < |terms|
    ensures Tagged(lexicon, terms)[i].tag == Unknown
         || (Tagged(lexicon, terms)[i].tag in lexicon.Values && Tagged(lexicon, terms)[i].tag != "")
  {
    var term := terms[i];
    if term in lexicon && lexicon[term] != "" {
      assert lexicon[term] in lexicon.Values;
    }
  }

  /** With the default (empty) lexicon every term is tagged as unknown. */
  lemma EmptyLexiconTagsUnknown(terms: seq<string>)
    ensures forall i :: 0 <= i < |terms| ==> Tagged(map[], terms)[i].tag == Unknown
  {
  }

  /** Tagging the one-character string of the separator gives exactly one
      record, for the separator itself. */
  lemma SeparatorTagsOnce(lexicon: map<string, string>)
    ensures Tagged(lexicon, Characters("#")) == [Record("#", TagFor(lexicon, "#"), None, None)]
  {
  }
}
