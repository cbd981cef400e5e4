# tdm-teeft keyword extraction, modelled in Dafny

tdm-teeft indexes English full text. It extracts keywords with a fixed pipeline run by the indexator's `index`. The stages are:

- `tokenize`: split on white space, lowercase, and cut punctuation off each word.
- `tag`: tag every token from a lexicon.
- `lemmatize`: add a lemma and a stem to every record.
- `sanitize`: replace records that are too short, too symbolic, too numeric or stopwords by a separator record.
- `extract`: count nouns, adjectives and maximal noun/adjective phrases with a two-state machine, then filter them with an occurrence threshold that adapts to the document's length.
- Scoring: weight every term by its relative frequency and a dictionary, normalise by the best score, optionally truncate at the average, and optionally sort.

The project models that core:

| file | module | models |
|---|---|---|
| `records.dfy` | `Records` | the term record, JavaScript's `undefined` as a property name and in `join`, and the names every plain object inherits |
| `filter.dfy` | `Filters` | `Filter` from `src/filter.js`; `src/defaultfilter.js` is the same code and the same model stands for it |
| `tagger.dfy` | `Tagging` | `Tagger`: the lexicon copy and `tag` |
| `termextractor.dfy` | `TermExtraction` | `TermExtractor`: the constructor, `extract` with its two phases, and `_startsWith` |
| `tokenizer.dfy` | `Tokenizing` | the text rules behind `tokenize`: `split(/\s/g)`, the `SPECIFIC_TERM` pattern and the tokens of one chunk |
| `scoring.dfy` | `Scoring` | `Indexator.compare`, the sort, and the frequency and specificity statistics of `index` |
| `indexator.dfy` | `Indexation` | `Indexator`: the constructor, `tokenize`, `translateTag`, `lemmatize`, `sanitize` and `index` |

Objects the source updates in place are classes:

- `Filter`, whose `minOccur` `configure` rewrites.
- `Tagger`, `TermExtractor` and `Indexator`.

Every loop of the source is a method proved equal to a specification function. Examples are `Tag` against `Tagged`, `CountTerms` against `Count(Keys(Occurrences(...)))`, and `Rank` against `Scored`. Lemmas then prove what the source promises of those functions.

Some collaborators cannot be seen from the core. They are parameters:

- the lemmatizer, a function from a term and a category to the candidate lemmas;
- the stemmer;
- `String.prototype.toLowerCase` (`lower`);
- the bundled lexicon.

## Model

| member | source | states |
|---|---|---|
| `Filters.Filter.constructor` | src/filter.js:51-78 | falsy options (absent or 0) are replaced by the defaults minOccur 7, noLimitStrength 2 and the default length steps; present options are kept (src/defaultfilter.js:14-42 is the same code) |
| `Filters.Filter.Call` | src/filter.js:92-94 | a term of at least `noLimitStrength` words is always accepted; a shorter one is accepted exactly when it occurs at least `minOccur` times (src/defaultfilter.js:50-52 is the same code) |
| `Filters.Filter.Configure` | src/filter.js:106-122 | a non-numeric length returns null and leaves `minOccur` alone; a number sets `minOccur` to the step threshold for that length and returns it; nothing else changes (src/defaultfilter.js:59-75 is the same code) |
| `Filters.DefaultUsage` | src/filter.js:82-102 | the documented usage: with the defaults `configure(500)` gives 1 and then `call(1, 1)` is true; `configure(5000)` gives 7 and then `call(1, 1)` is false; `configure('test')` gives null |
| `Filters.ThresholdBelowMin` | src/filter.js:108-111 | below `min.lim` the threshold is `min.value` |
| `Filters.ThresholdFirstMatch` | src/filter.js:112-117 | otherwise the first step whose bound exceeds the length gives the threshold |
| `Filters.ThresholdNoMatch` | src/filter.js:118-119 | when no step bound exceeds the length, `max.value` is used |
| `Filters.ThresholdAtBound` | src/filter.js:113 | bounds are exclusive: a length equal to a step's `lim` falls through to the later steps |
| `Filters.ThresholdIgnoresMaxLim` | src/filter.js:118 | `max.lim` plays no part in the threshold |
| `Filters.ThresholdMonotone` | src/filter.js:106-122 | for ascending steps with non-decreasing values the threshold never decreases as the document grows |
| `Filters.DefaultThresholds` | src/filter.js:59-78 | the default steps give 1 below 1000 tokens, 4 from 1000 to below 3000 and 7 from 3000 on, and they are monotone |
| `Tagging.TagFor` | src/tagger.js:39 | a term's tag is its lexicon entry when that is non-empty, and "NND" otherwise |
| `Tagging.Tagger.constructor` | src/tagger.js:18-25 | the tagger's lexicon holds exactly the keys and values of the given lexicon |
| `Tagging.Tagger.Tag` | src/tagger.js:35-46 | one record per term, in order, each holding the term and its tag, with no lemma and no stem |
| `Tagging.TagsComeFromLexicon` | src/tagger.js:39 | every tag is "NND" or a non-empty value of the lexicon |
| `Tagging.EmptyLexiconTagsUnknown` | src/tagger.js:18-19 | with the default empty lexicon every term is tagged "NND" |
| `Tagging.SeparatorTagsOnce` | src/indexator.js:137 | tagging the separator string yields exactly one record, for "#" |
| `TermExtraction.StartsWith` | src/termextractor.js:120-122 | true exactly when the prefix is a prefix of the string, including when the string is shorter |
| `TermExtraction.TermExtractor.constructor` | src/termextractor.js:25-31 | given collaborators are kept; absent ones are a fresh tagger with an empty lexicon and a fresh default filter |
| `TermExtraction.TermExtractor.Extract` | src/termextractor.js:50-112 | configures the filter with the number of records, leaves its other settings alone, and returns phase 2 applied to the phase-1 counts under the configured threshold |
| `TermExtraction.TermExtractor.CountTerms` | src/termextractor.js:64-96 | the state machine's counts equal one `_add` for each occurrence of the reference run, including the final flush |
| `TermExtraction.TermExtractor.SelectTerms` | src/termextractor.js:97-111 | the result keeps, in key order, exactly the counted terms the filter accepts, each with its count and its word count |
| `TermExtraction.SearchSkips` | src/termextractor.js:76-90 | in SEARCH state a record outside the noun and adjective families changes nothing |
| `TermExtraction.NounCloses` | src/termextractor.js:83-90 | in NOUN state such a record returns to SEARCH and empties the buffer; it records a composite only for two or more lemmas; the record itself is not counted |
| `TermExtraction.UnigramsAreNounLemmas` | src/termextractor.js:76-82 | phase 1 records exactly one single-lemma occurrence per noun or adjective record, in input order |
| `TermExtraction.CompositesAreMaximalRuns` | src/termextractor.js:83-96 | the composites recorded are exactly the maximal runs of two or more noun/adjective records, including one still open at the end |
| `TermExtraction.NoShortComposite` | src/termextractor.js:85-88 | no composite comes from fewer than two lemmas |
| `TermExtraction.CompositeLemmasAreNouns` | src/termextractor.js:76-96 | every lemma inside a composite is the lemma of a noun or adjective record |
| `TermExtraction.CountSpec` | src/termextractor.js:52-59 | the accumulator's keys are distinct and in first-seen order; a word has an entry exactly when it was added; its frequency is the number of times it was added |
| `TermExtraction.UnigramFrequency` | src/termextractor.js:76-82 | a space-free word's count is the number of noun or adjective records whose lemma it is |
| `TermExtraction.CompositeWordsCounted` | src/termextractor.js:76-96 | every lemma of a composite is also counted on its own |
| `TermExtraction.StrengthOfJoin` | src/termextractor.js:86-103 | a composite of space-free lemmas has a strength equal to its number of lemmas |
| `TermExtraction.ExtractionSpec` | src/termextractor.js:97-111 | a counted term is in the result exactly when the filter accepts it; its entry holds its count (at least 1) and its strength; the result's keys are distinct and are exactly its entries |
| `TermExtraction.ExtractEmpty` | src/termextractor.js:50-112 | an empty input gives an empty result |
| `TermExtraction.DocumentedExample` | src/termextractor.js:39-46 | the documented result ('sample' and 'test' twice, 'sample test' twice with strength 2, and 'module', 'index' and 'fulltext' once, all kept at the threshold of a 20-record input), obtained from hand-built records: the sanitized, lemmatized records of the documented sentence under an assumed lexicon (see "## Left out"), not from the documented `tag` call |
| `TermExtraction.UnknownNounsExtraction` | src/termextractor.js:76-96 | records all tagged in the noun family and without a lemma give "undefined" once per record and one composite of blank lemmas (one space fewer than records) with strength equal to the number of records; a filter threshold no larger than the input keeps both |
| `TermExtraction.DocumentedCall` | src/termextractor.js:36-38 | the documented call as written: `tag` receives the 82-character string, so every character is tagged "NND" without a lemma, and `extract` returns only "undefined" (frequency 82) and an 81-space composite (frequency 1, strength 82), and no 'sample' |
| `TermExtraction.JoinInjective` | src/termextractor.js:86 | `join(' ')` of lemmas without spaces, none of them the empty string, determines the lemmas |
| `TermExtraction.CompositeBoundedByWords` | src/termextractor.js:76-96 | when every noun and adjective lemma is free of spaces and not the empty string, a composite is counted at most as often as each of its lemmas is counted on its own |
| `TermExtraction.CountAsWrittenAgrees` | src/termextractor.js:52-59 | away from inherited names, the accumulator as written counts like the intended one |
| `TermExtraction.InheritedLemmaDropped` | src/termextractor.js:52-59 | as written, a noun whose lemma is "constructor" is never counted, while the intended accumulator keeps it |
| `Tokenizing.ChunksRoundTrip` | src/indexator.js:69 | splitting on white space loses nothing: the pieces and the white space between them give back the text |
| `Tokenizing.ChunksHaveNoSpace` | src/indexator.js:69 | no piece contains white space |
| `Tokenizing.SeparatorsAreSpace` | src/indexator.js:69 | every cut is made at a white-space character |
| `Tokenizing.MatchSpecificTerm` | src/indexator.js:55-76 | a match splits the chunk into a punctuation run, a non-empty alphanumeric run and a punctuation run |
| `Tokenizing.SpecificTermMatches` | src/indexator.js:55-76 | every chunk of that shape is matched, and its decomposition is the unique one |
| `Tokenizing.InnerPunctuationNoMatch` | src/indexator.js:55-76 | a chunk whose alphanumerics are split by punctuation has no match and so gives no token |
| `Tokenizing.ChunkTokensSpec` | src/indexator.js:76-86 | a matched chunk gives a separator for a non-empty leading run, then the word, then a separator for a non-empty trailing run; an unmatched chunk gives nothing |
| `Tokenizing.TokensAreWordsOrSeparators` | src/indexator.js:68-89 | every token is "#" or a non-empty alphanumeric word |
| `Tokenizing.EmptyTextNoTokens` | src/indexator.js:68-89 | the empty text gives no tokens |
| `Tokenizing.ThreeWordTokens` | src/indexator.js:68-89 | three alphanumeric words separated by single spaces give those words, when lowercasing leaves them unchanged |
| `Tokenizing.DocumentedTokens` | src/indexator.js:64 | the documented example: 'my sample sentence' gives ['my', 'sample', 'sentence'] |
| `Indexation.Indexator.constructor` | src/indexator.js:34-58 | absent options fall back to the bundled lexicon, lemmatizer and stemmer, to no stopwords and to an empty dictionary; a filter option becomes a fresh filter with those options; otherwise the extractor gets a fresh default filter |
| `Indexation.Indexator.Tokenize` | src/indexator.js:68-89 | the result is the tokens of the lowercased white-space chunks of the text, in order |
| `Indexation.Indexator.GroupsOf` | src/indexator.js:77-85 | the loop over the three groups of a match pushes the word for group 2 and a separator for each other non-empty group |
| `Indexation.HasFamily` | src/indexator.js:50-51 | the noun or verb tag pattern matches exactly when the letter is followed by an upper-case letter somewhere in the tag |
| `Indexation.TranslateTag` | src/indexator.js:104-116 | "RB" is adverb, "JJ" is adjective; otherwise a tag of the noun family is noun, then one of the verb family is verb, and anything else has no category; each case holds in both directions |
| `Indexation.DocumentedTranslations` | src/indexator.js:95-100 | the documented translations of RB, JJ, NN, NNP, VBG and VBN, and none for DT |
| `Indexation.NounBeforeVerb` | src/indexator.js:110-113 | a tag in both families is translated as a noun |
| `Indexation.Indexator.Lemmatize` | src/indexator.js:173-193 | the result is each record lemmatized, one per input record, in order |
| `Indexation.LemmatizedSpec` | src/indexator.js:173-193 | each record keeps its term and tag and gains its stem; its lemma is the last candidate of the lemmatizer for its category when the tag translates and there is a candidate, and the term otherwise |
| `Indexation.Indexator.Sanitize` | src/indexator.js:135-154 | the result has one record per input record, the record itself when it is kept and the tagger's record for "#" otherwise |
| `Indexation.SanitizedSpec` | src/indexator.js:138-152 | each position holds the input record exactly when it passes the length, symbol, digit and stopword tests, and the marker otherwise |
| `Indexation.ShortTermsRejected` | src/indexator.js:140 | terms shorter than 4 characters are always replaced |
| `Indexation.TwoDigitsRejected` | src/indexator.js:145 | a term holding two digits anywhere is replaced |
| `Indexation.ThreeSymbolsRejected` | src/indexator.js:144 | a term holding three characters outside `[a-zA-Z0-9À-ÿ]` is replaced |
| `Indexation.NotAlphanumericMatchLength` | src/indexator.js:48 | the symbol count is the number of positions outside `[a-zA-Z0-9À-ÿ]`, which is the length of the array the global pattern's `match` returns |
| `Indexation.DigitMatchLength` | src/indexator.js:49 | the digit count is the number of digit positions, which is the length of the array the global `\d` pattern's `match` returns |
| `Indexation.KeepAsWrittenAgrees` | src/indexator.js:146 | away from inherited names, the stopword test as written agrees with the intended one |
| `Indexation.InheritedStopword` | src/indexator.js:146 | as written, with no stopwords at all, the noun "constructor" is still dropped, while the intended test keeps it |
| `Indexation.Weighting` | src/indexator.js:284-290 | a term's weighting is its dictionary weight when that is truthy, and 1e-5 otherwise; either way it is positive |
| `Scoring.Compare` | src/indexator.js:205-209 | -1 exactly when a's specificity is larger, 1 exactly when it is smaller, 0 exactly when they are equal |
| `Scoring.CompareAntisymmetric` | src/indexator.js:205-209 | swapping the arguments negates the answer |
| `Scoring.CompareTransitive` | src/indexator.js:205-209 | the comparator is transitive, as `Array.prototype.sort` requires |
| `Scoring.SortPermutes` | src/indexator.js:322-324 | sorting gives a permutation of the keywords |
| `Scoring.SortOrdered` | src/indexator.js:322-324 | after sorting no keyword is followed by one `compare` would put before it |
| `Scoring.SortStable` | src/indexator.js:322-324 | keywords of equal specificity keep their order, as a stable sort must |
| `Scoring.MaxFrequencyIsMaximum` | src/indexator.js:276-279 | the maximal frequency bounds every frequency and is one of them, or 0 when there is none |
| `Scoring.TotalBoundsMaximum` | src/indexator.js:273-282 | no frequency exceeds the total |
| `Scoring.MaxSpecificityIsMaximum` | src/indexator.js:296-299 | for positive specificities the maximum is positive, bounds them all, and is one of them |
| `Scoring.NormalizeBounds` | src/indexator.js:302-306 | normalised by their maximum, positive specificities lie in (0, 1] and one of them is 1 |
| `Scoring.AverageBounds` | src/indexator.js:306-309 | the average of specificities in (0, 1] lies in (0, 1] |
| `Scoring.NotTruncated` | src/indexator.js:313-320 | without truncate every keyword is kept, in order |
| `Scoring.TruncatedMembers` | src/indexator.js:316 | with truncate a keyword is kept exactly when its specificity reaches the average |
| `Scoring.TruncatedKeepsOrder` | src/indexator.js:313-320 | the selection keeps the keywords' order |
| `Scoring.TruncatedNotEmpty` | src/indexator.js:309-320 | truncating normalised specificities at their average keeps at least one keyword |
| `Indexation.Indexator.FrequencyStatistics` | src/indexator.js:273-282 | the loop computes the maximal and the total frequency over the keys |
| `Indexation.Indexator.ScoreTerms` | src/indexator.js:284-300 | each key's probability is its frequency over the total and its specificity that over its weighting; the loop also tracks the largest specificity |
| `Indexation.Indexator.NormalizeScores` | src/indexator.js:301-307 | each specificity is divided by the largest one, and the loop sums the results |
| `Indexation.Indexator.Rank` | src/indexator.js:272-324 | the keywords and statistics are the scored, optionally truncated and optionally sorted terms of the extraction |
| `Indexation.NormalizedSpec` | src/indexator.js:284-307 | the normalised scores lie in (0, 1] and one is 1; they follow the key order and keep each term's frequency and strength |
| `Indexation.ScoredStatistics` | src/indexator.js:273-309 | the total is the sum of the frequencies; the maximum is one of them and bounds them all and the total; the average lies in (0, 1]; the maximal specificity is positive |
| `Indexation.ScoredAllKeys` | src/indexator.js:313-320 | without truncate or sort the keywords are all extracted terms in key order, each with its frequency |
| `Indexation.ScoredTruncated` | src/indexator.js:313-320 | with truncate the keywords are the scores at or above the average, in key order, and there is at least one |
| `Indexation.ScoredSorted` | src/indexator.js:322-324 | with sort the keywords are the unsorted ones reordered by non-increasing specificity; ties keep their order |
| `Indexation.Indexator.Index` | src/indexator.js:219-326 | the returned document is the pipeline's value for the text and settings; the filter is configured with the number of tokens when there are any; nothing else changes |
| `Indexation.DocumentStages` | src/indexator.js:252-271 | every stage keeps one record per token; the pipeline stops early only for no tokens or no extracted terms, and then the keywords are empty and the statistics zero; the extracted keys are exactly the extracted terms |

## Left out

- The scoring uses exact real arithmetic, not IEEE doubles. Rounding, and a tie at the average that rounding could break, are not modelled.
- Strings are sequences of Unicode code points. JavaScript's `length` and its regular expressions (without the `u` flag) count UTF-16 code units. A character outside the Basic Multilingual Plane therefore counts as one character here, but as two non-alphanumeric characters in the source.
- `toLowerCase`, the lemmatizer (`javascript-lemmatizer`), the stemmer (`snowball-stemmers`) and the bundled lexicon (`src/lexicon.js`) are parameters. src/lexicon.js is not part of this model.
- The lemmatizer is modelled as returning the candidate lemmas. The source receives `[lemma, category]` pairs and takes the first field of the last pair.
- `_.cloneDeep` and `cp.shift()` are not modelled. The input is a value that `extract` leaves unchanged.
- Tokenize: the global `SPECIFIC_TERM` is modelled as one match per chunk. That is how its `lastIndex` behaves: the anchored pattern cannot match a second time, and a failed `exec` resets `lastIndex` to 0.
- Filters.Filter.Configure: the argument is a whole number or not a number. Numeric strings, fractions and infinities, which `isNaN` also lets through, are not modelled. Neither are non-integer option values.
- Object key order is modelled as insertion order. JavaScript enumerates integer-like keys (a lemma such as "2020") first, in ascending order, in both `for...in` and `Object.keys`.
- The lemma `__proto__`: counting it writes `frequency` onto Object.prototype, a side effect that later `for...in` loops would see. The model only drops the lemma, as it does the other inherited names.
- Indexation.Indexator.Index: requires every dictionary weight to be non-negative, even the weights of keys that are never extracted. The weights are vocabulary frequencies, so a negative one has no meaning. A negative weight would give its term a negative specificity. The normalised specificities then no longer lie in (0, 1], which `Scoring.NormalizeBounds` proves under this requirement. When every extracted term's specificity is at most 0, the source divides by a maximum of 0 (a NaN or an infinity), which reals cannot express. `Indexation.Indexator.Rank`, `Indexation.DocumentOf` and `Indexation.Scored` carry the same precondition.
- Dictionary lookups of inherited names (`dictionary["constructor"]` is a function, which yields a NaN specificity) are not modelled. The dictionary is a map of its own keys.
- Aliasing is not modelled. In the source the keywords are the extraction's entry objects, which also gain `specificity`, `probability` and `term`. Here the document's extraction keeps `frequency` and `strength`, and the scores live in the keywords.
- Indexation.Indexator.Index: `data` is a string. The default `''` for an undefined text, and the options object, are modelled as a string and two booleans (the truthiness of `sort` and `truncate`).
- `Array.prototype.sort` is modelled as a stable insertion sort, which gives the unique stable ordering under `compare`. The order in which the engine calls `compare` is not modelled.
- TermExtraction.DocumentedExample: its records are built by hand. They assume a lexicon that tags "this" as DT, tags "sample", "test", "module" and "index" as NN, has no entry for "fulltext", and tags the separator '#' as "#" (outside the noun family). They also assume a lemmatizer that returns every word unchanged. src/lexicon.js is not part of this model. If the lexicon had no entry for '#', the marker would be tagged "NND" and would count as a noun, and the result would differ.
- TermExtraction.CompositeBoundedByWords: proved only when no noun or adjective lemma contains a space or is the empty string. Without that, `join(' ')` can render different buffers alike: ["a b", "c"] and ["a", "b", "c"] both give "a b c", and `undefined` joins like "". A composite can then be counted more often than one of its lemmas.
- The constants `SEARCH` = 0 and `NOUN` = 1 are an enumeration. The extractor's `tagger` field is kept, but `extract` never uses it.

## Findings

| source | as written | input that shows it | evidently intended | confidence | as-written member | corrected member |
|---|---|---|---|---|---|---|
| src/termextractor.js:52-59 | `_add` tests `!this[norm]` on a plain object that also holds `_add`, so a lemma naming an inherited property (or `_add`) never gets an entry of its own | one noun record whose lemma is "constructor", in a document short enough for `minOccur` 1 | count that lemma like any other | not executed; high | `TermExtraction.InheritedLemmaDropped` | `TermExtraction.ExtractionSpec` |
| src/termextractor.js:36-46 | the example passes the sentence itself to `tag` with the default empty lexicon, so `tag` reads it character by character | the documented call itself | pass the sanitized records of the sentence's tokens, as `index` does | not executed; high | `TermExtraction.DocumentedCall` | `TermExtraction.DocumentedExample` |
| src/indexator.js:146 | `!this.stopwords[lemma]` on a plain object (by default `{}`) treats every inherited property name as a stopword | the record for the noun "constructor" with no stopwords configured | only configured stopwords reject a term | not executed; medium | `Indexation.InheritedStopword` | `Indexation.SanitizedSpec` |

The code as written is `TermExtraction.CountAsWritten` / `TermExtraction.ExtractionAsWritten` and `Indexation.KeepAsWritten`. The corrected definitions are `TermExtraction.Count` and `Indexation.Keep`, which the rest of the model uses. For the documentation example, `TermExtraction.DocumentedCall` is the call as written, and `TermExtraction.DocumentedExample` shows the documented result over the records the pipeline passes to `extract`.
