/** Values shared by every stage of the pipeline. */
module Records {

  datatype Option<+T> = None | Some(value: T)

  /** A term record as it flows through the pipeline. The tagger produces
      `{term, tag}` (no lemma, no stem); the lemmatizer adds both. The
      sanitizer's invalid marker is a tagger record, so it has no lemma.
      `norm` is the record's `lemma` property (the term extractor reads it
      under the name `norm`; `lemma` is a keyword here). */
  datatype Record = Record(term: string, tag: string, norm: Option<string>, stem: Option<string>)

  /** The property name JavaScript uses when a possibly-undefined string is
      used as an object key: `undefined` becomes the key "undefined". */
  function PropertyName(s: Option<string>): string
  {
    match s
    case Some(v) => v
    case None => "undefined"
  }

  /** How `Array.prototype.join` renders an element: `undefined` as "". */
  function JoinText(s: Option<string>): string
  {
    match s
    case Some(v) => v
    case None => ""
  }

  /** The names a lookup `o[name]` on a plain JavaScript object finds on
      Object.prototype: each of them is truthy there. */
  const ObjectPrototypeNames: set<string> := {
    "constructor", "toString", "toLocaleString", "valueOf", "hasOwnProperty",
    "isPrototypeOf", "propertyIsEnumerable", "__defineGetter__", "__defineSetter__",
    "__lookupGetter__", "__lookupSetter__", "__proto__"}

  /** Number of occurrences of `c` in `s`. */
  function CountChar(s: string, c: char): (n: nat)
    ensures n <= |s|
  {
    if s == [] then 0 else CountChar(s[..|s| - 1], c) + (if s[|s| - 1] == c then 1 else 0)
  }

  lemma {:induction false} CountCharAppend(s: string, t: string, c: char)
    ensures CountChar(s + t, c) == CountChar(s, c) + CountChar(t, c)
  {
    if t == [] {
      assert s + t == s;
    } else {
      assert (s + t)[..|s + t| - 1] == s + t[..|t| - 1];
      CountCharAppend(s, t[..|t| - 1], c);
    }
  }
}
