/** The writable user dictionary: learning, purging, completion and what a save keeps of recency. */
module UserDictionary {
  import opened Text
  import opened Lisp
  import opened Dict
  import opened DictFormat
  import opened DictSave

  // ── Learning one bucket ─────────────────────────────────────────────────────

  function WordNotIn(words: set<string>): Candidate -> bool {
    (c: Candidate) => c.word !in words
  }

  function Words(cs: seq<Candidate>): set<string> {
    set c | c in cs :: c.word
  }

  /** The words of the plain candidates: those that leave the ignore directives. */
  function PlainWords(cs: seq<Candidate>): set<string> {
    set c | c in cs && c.lispForm.None? :: c.word
  }

  /** Each word at its first occurrence. */
  function FirstByWord(cs: seq<Candidate>): seq<Candidate> {
    if cs == [] then [] else [cs[0]] + Filter(FirstByWord(cs[1..]), WordNotIn({cs[0].word}))
  }

  /** Learned candidates in front, then the old ones with other words in their old order. */
  function Promoted(list: seq<Candidate>, learned: seq<Candidate>): seq<Candidate> {
    FirstByWord(learned) + Filter(list, WordNotIn(Words(learned)))
  }

  function Without(words: seq<string>, learned: set<string>): seq<string> {
    Filter(words, (w: string) => w !in learned)
  }

  /** A directive loses the learned words and is rendered afresh. */
  function Pruned(c: Candidate, learned: set<string>): Candidate {
    match c.lispForm
    case Some(IgnoreDicWord(words)) =>
      var kept := Without(words, learned);
      Candidate(RenderIgnore(kept), c.annotation, Some(IgnoreDicWord(kept)))
    case _ => c
  }

  function PrunedAll(cs: seq<Candidate>, learned: set<string>): (r: seq<Candidate>)
    ensures |r| == |cs|
    ensures forall i | 0 <= i < |cs| :: r[i] == Pruned(cs[i], learned)
  {
    if cs == [] then [] else [Pruned(cs[0], learned)] + PrunedAll(cs[1..], learned)
  }

  predicate IsEmptyDirective(c: Candidate) {
    c.lispForm == Some(IgnoreDicWord([]))
  }

  function NotEmptyDirective(): Candidate -> bool {
    (c: Candidate) => !IsEmptyDirective(c)
  }

  function Cleaned(cs: seq<Candidate>, learned: set<string>): seq<Candidate> {
    Filter(PrunedAll(cs, learned), NotEmptyDirective())
  }

  function LearnedBucket(list: seq<Candidate>, learned: seq<Candidate>): seq<Candidate> {
    Cleaned(Promoted(list, learned), PlainWords(learned))
  }

  // ── The map as a whole ──────────────────────────────────────────────────────

  function HeadNot(midashi: string): Entry -> bool {
    (e: Entry) => e.midashi != midashi
  }

  function BucketsOf(es: seq<Entry>, midashi: string): Buckets {
    match Get(es, midashi) case None => map[] case Some(b) => b
  }

  /** The map after learning: the headword moves to the end with one bucket replaced. */
  function Learned(es: seq<Entry>, entry: DictEntry): seq<Entry> {
    var b := BucketsOf(es, entry.midashi);
    Filter(es, HeadNot(entry.midashi))
      + [Entry(entry.midashi, b[entry.okuri := LearnedBucket(BucketOrEmpty(b, entry.okuri), entry.candidates)])]
  }

  function Completes(prefix: string): Entry -> bool {
    (e: Entry) => prefix <= e.midashi && e.midashi != prefix && None in e.buckets
  }

  function Reversed<T>(s: seq<T>): (r: seq<T>)
    ensures |r| == |s| && forall i | 0 <= i < |s| :: r[i] == s[|s| - 1 - i]
  {
    if s == [] then [] else Reversed(s[1..]) + [s[0]]
  }

  /** Headwords without okurigana that extend `prefix`, most recently used first. */
  function Complete(es: seq<Entry>, prefix: string): seq<string> {
    Reversed(Order(Filter(es, Completes(prefix))))
  }

  /** Replaces the buckets of a known headword in place. */
  function SetBuckets(es: seq<Entry>, midashi: string, b: Buckets): seq<Entry> {
    if es == [] then []
    else if es[0].midashi == midashi then [Entry(midashi, b)] + es[1..]
    else [es[0]] + SetBuckets(es[1..], midashi, b)
  }

  /** The map after purging, and whether a candidate went. */
  function Purged(es: seq<Entry>, midashi: string, okuri: Option<string>, word: string): (seq<Entry>, bool) {
    match GetBucket(es, midashi, okuri)
    case None => (es, false)
    case Some(list) =>
      var kept := Filter(list, WordNotIn({word}));
      var b := BucketsOf(es, midashi);
      var left := if kept == [] then b - {okuri} else b[okuri := kept];
      (if left == map[] then Filter(es, HeadNot(midashi)) else SetBuckets(es, midashi, left), |kept| != |list|)
  }

  class UserDict {
    /** Oldest headword first. */
    var entries: seq<Entry>
    var dirty: bool

    constructor Empty()
      ensures entries == [] && !dirty
    {
      entries, dirty := [], false;
    }

    /** `load` on the text of an existing file. */
    static method Load(text: string) returns (r: Result<UserDict, DictError>)
      ensures ParseText(text).Err? ==> r == Err(ParseText(text).error)
      ensures ParseText(text).Ok?
              ==> r.Ok? && fresh(r.value) && r.value.entries == ParseText(text).value && !r.value.dirty
    {
      var entries := ParseSkkDictOrdered(text);
      if entries.Err? { return Err(entries.error); }
      var d := new UserDict.Empty();
      d.entries := entries.value;
      return Ok(d);
    }

    /** `save`: the text to write, or nothing when there is no change. */
    method Save() returns (text: Option<string>)
      modifies this
      ensures !dirty && entries == old(entries)
      ensures text.Some? <==> old(dirty)
      ensures text.Some? ==> IsSaved(entries, text.value)
    {
      if !dirty { return None; }
      var content := SerializeUserDict(entries);
      dirty := false;
      return Some(content);
    }

    /** `learn`: take the headword out, rebuild one bucket, put the headword back at the end. */
    method Learn(entry: DictEntry)
      modifies this
      ensures entries == Learned(old(entries), entry) && dirty
    {
      var okuriMap := BucketsOf(entries, entry.midashi);
      entries := Filter(entries, HeadNot(entry.midashi));
      var learned := entry.candidates;
      var list := BucketOrEmpty(okuriMap, entry.okuri);
      ghost var before := list;
      var i := |learned|;
      PromoteNothing(before);
      while i > 0
        invariant 0 <= i <= |learned|
        invariant entries == Filter(old(entries), HeadNot(entry.midashi))
        invariant list == Promoted(before, learned[i..])
      {
        i := i - 1;
        PromoteStep(before, learned, i);
        list := Filter(list, WordNotIn({learned[i].word}));
        list := [learned[i]] + list;
      }
      assert learned[0..] == learned;
      list := PruneDirectives(list, PlainWords(learned));
      entries := entries + [Entry(entry.midashi, okuriMap[entry.okuri := list])];
      dirty := true;
    }

    /** `purge`: drop the candidates with this word, then an empty bucket, then an empty headword. */
    method Purge(midashi: string, okuri: Option<string>, word: string) returns (removed: bool)
      modifies this
      ensures (entries, removed) == Purged(old(entries), midashi, okuri, word)
      ensures dirty == (old(dirty) || removed)
    {
      var found := Get(entries, midashi);
      if found.None? { return false; }
      var okuriMap := found.value;
      if okuri !in okuriMap { return false; }
      var before := |okuriMap[okuri]|;
      var candidates := Filter(okuriMap[okuri], WordNotIn({word}));
      removed := |candidates| != before;
      if candidates == [] {
        okuriMap := okuriMap - {okuri};
      } else {
        okuriMap := okuriMap[okuri := candidates];
      }
      if okuriMap == map[] {
        entries := Filter(entries, HeadNot(midashi));
      } else {
        entries := SetBuckets(entries, midashi, okuriMap);
      }
      if removed { dirty := true; }
    }
  }

  /** The two passes over a bucket that `learn` ends with: prune in place, then drop empty directives. */
  method PruneDirectives(list: seq<Candidate>, learned: set<string>) returns (r: seq<Candidate>)
    ensures r == Cleaned(list, learned)
  {
    var pruned := list;
    var i := 0;
    while i < |list|
      invariant 0 <= i <= |list| && |pruned| == |list|
      invariant forall k | 0 <= k < i :: pruned[k] == Pruned(list[k], learned)
      invariant forall k | i <= k < |list| :: pruned[k] == list[k]
    {
      if pruned[i].lispForm.Some? && pruned[i].lispForm.value.IgnoreDicWord? {
        var words := Without(pruned[i].lispForm.value.words, learned);
        var word := RenderIgnoreDicWord(words);
        pruned := pruned[i := Candidate(word, pruned[i].annotation, Some(IgnoreDicWord(words)))];
      }
      i := i + 1;
    }
    assert pruned == PrunedAll(list, learned);
    r := Filter(pruned, NotEmptyDirective());
  }

  lemma PromoteNothing(list: seq<Candidate>)
    ensures Promoted(list, list[|list|..]) == list
    ensures Promoted(list, []) == list
  {
    FilterAll(list, WordNotIn(Words([])));
    assert Words([]) == {} && list[|list|..] == [];
    assert [] + list == list;
  }

  /** Prepending one learned candidate after removing its word. */
  lemma PromoteStep(list: seq<Candidate>, learned: seq<Candidate>, i: nat)
    requires i < |learned|
    ensures Promoted(list, learned[i..])
         == [learned[i]] + Filter(Promoted(list, learned[i + 1..]), WordNotIn({learned[i].word}))
  {
    assert learned[i..] == [learned[i]] + learned[i + 1..];
    PromoteFirst(list, learned[i], learned[i + 1..]);
  }

  lemma PromoteFirst(list: seq<Candidate>, c: Candidate, rest: seq<Candidate>)
    ensures Promoted(list, [c] + rest) == [c] + Filter(Promoted(list, rest), WordNotIn({c.word}))
  {
    var front, back := FirstByWord(rest), Filter(list, WordNotIn(Words(rest)));
    calc {
      Promoted(list, [c] + rest);
    ==  { FirstByWordCons(c, rest); OneMoreWord(list, c, rest); }
      ([c] + Filter(front, WordNotIn({c.word}))) + Filter(back, WordNotIn({c.word}));
    ==  { Reassociate([c], Filter(front, WordNotIn({c.word})), Filter(back, WordNotIn({c.word}))); }
      [c] + (Filter(front, WordNotIn({c.word})) + Filter(back, WordNotIn({c.word})));
    ==  { FilterSplit(front, back, WordNotIn({c.word})); }
      [c] + Filter(front + back, WordNotIn({c.word}));
    }
  }

  lemma Reassociate<T>(a: seq<T>, b: seq<T>, c: seq<T>)
    ensures (a + b) + c == a + (b + c)
  {
  }

  lemma OneMoreWord(list: seq<Candidate>, c: Candidate, rest: seq<Candidate>)
    ensures Filter(Filter(list, WordNotIn(Words(rest))), WordNotIn({c.word})) == Filter(list, WordNotIn(Words([c] + rest)))
  {
    FilterTwice(list, WordNotIn(Words(rest)), WordNotIn({c.word}));
    FilterSame(list, And(WordNotIn(Words(rest)), WordNotIn({c.word})), WordNotIn(Words([c] + rest)));
  }

  lemma FirstByWordCons(c: Candidate, rest: seq<Candidate>)
    ensures FirstByWord([c] + rest) == [c] + Filter(FirstByWord(rest), WordNotIn({c.word}))
  {
    assert ([c] + rest)[1..] == rest;
  }
}
