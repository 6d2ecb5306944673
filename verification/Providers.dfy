/** The chain of dictionaries that the engine asks, in order of priority. */
module Providers {
  import opened Text
  import opened Dict
  import opened UserDictionary
  import opened UserDictLaws

  /** A user dictionary, or any provider that keeps the read-only defaults for learning and purging. */
  datatype Dictionary =
    | User(entries: seq<Entry>)
    | ReadOnly(find: (string, Option<string>) -> Option<DictEntry>, extend: string -> seq<string>)
  {
    function Look(key: string, okuri: Option<string>): Option<DictEntry> {
      match this
      case User(entries) => Lookup(entries, key, okuri)
      case ReadOnly(find, _) => find(key, okuri)
    }

    function Completions(prefix: string): seq<string> {
      match this
      case User(entries) => Complete(entries, prefix)
      case ReadOnly(_, extend) => extend(prefix)
    }

    function Learn(entry: DictEntry): Dictionary {
      match this
      case User(entries) => User(Learned(entries, entry))
      case ReadOnly(_, _) => this
    }

    function Purge(midashi: string, okuri: Option<string>, word: string): Dictionary {
      match this
      case User(entries) => User(Purged(entries, midashi, okuri, word).0)
      case ReadOnly(_, _) => this
    }
  }

  /** All candidates for a key: dictionary after dictionary. */
  function Gather(dicts: seq<Dictionary>, key: string, okuri: Option<string>): seq<Candidate> {
    if dicts == [] then []
    else (match dicts[0].Look(key, okuri) case None => [] case Some(e) => e.candidates) + Gather(dicts[1..], key, okuri)
  }

  lemma {:induction false} GatherSplit(a: seq<Dictionary>, b: seq<Dictionary>, key: string, okuri: Option<string>)
    ensures Gather(a + b, key, okuri) == Gather(a, key, okuri) + Gather(b, key, okuri)
  {
    if a == [] {
      assert a + b == b;
    } else {
      assert (a + b)[1..] == a[1..] + b;
      GatherSplit(a[1..], b, key, okuri);
    }
  }

  function LearnEverywhere(dicts: seq<Dictionary>, entry: DictEntry): (r: seq<Dictionary>)
    ensures |r| == |dicts| && forall i | 0 <= i < |dicts| :: r[i] == dicts[i].Learn(entry)
  {
    if dicts == [] then [] else [dicts[0].Learn(entry)] + LearnEverywhere(dicts[1..], entry)
  }

  function PurgeEverywhere(dicts: seq<Dictionary>, midashi: string, okuri: Option<string>, word: string)
      : (r: seq<Dictionary>)
    ensures |r| == |dicts| && forall i | 0 <= i < |dicts| :: r[i] == dicts[i].Purge(midashi, okuri, word)
  {
    if dicts == [] then []
    else [dicts[0].Purge(midashi, okuri, word)] + PurgeEverywhere(dicts[1..], midashi, okuri, word)
  }

  predicate HoldsWord(bucket: Option<seq<Candidate>>, word: string) {
    bucket.Some? && word in Words(bucket.value)
  }

  /** A purge takes the word out of the bucket it names; every other word stays there, and every other bucket stays. */
  lemma PurgeForgets(es: seq<Entry>, midashi: string, okuri: Option<string>, word: string,
                     m: string, o: Option<string>, stored: string)
    requires UniqueHeads(es)
    ensures HoldsWord(GetBucket(Purged(es, midashi, okuri, word).0, m, o), stored)
       <==> HoldsWord(GetBucket(es, m, o), stored) && !(m == midashi && o == okuri && stored == word)
  {
    hide Purged, GetBucket;
    PurgedMap(es, midashi, okuri, word, m, o);
    if GetBucket(es, m, o).Some? {
      WordsLeft(GetBucket(es, m, o).value, word, stored);
    }
  }

  lemma WordsLeft(bucket: seq<Candidate>, word: string, stored: string)
    ensures var kept := Filter(bucket, WordNotIn({word}));
      && (stored in Words(kept) <==> stored in Words(bucket) && stored != word)
      && (kept == [] ==> stored !in Words(kept))
  {
    var kept := Filter(bucket, WordNotIn({word}));
    if stored in Words(bucket) && stored != word {
      var c :| c in bucket && c.word == stored;
      assert WordNotIn({word})(c) && c in kept;
    }
  }

  /** A purge that misses: the bucket is kept under a consonant, and the purge names the okurigana. */
  lemma PurgeExample()
    ensures var es := [Entry("おく", map[Some("r") := [Candidate("送", None, None)]])];
      && HoldsWord(GetBucket(es, "おく", Some("r")), "送")
      && Purged(es, "おく", Some("る"), "送") == (es, false)
  {
    var es := [Entry("おく", map[Some("r") := [Candidate("送", None, None)]])];
    var bucket := [Candidate("送", None, None)];
    assert GetBucket(es, "おく", Some("r")) == Some(bucket) && bucket[0] in bucket;
    assert Some("る").value[0] != Some("r").value[0];
  }

  /** The words that a candidate's directive lists. */
  function Directive(c: Candidate): seq<string> {
    match c.lispForm
    case Some(IgnoreDicWord(words)) => words
    case _ => []
  }

  /** The union of all ignore directives in a candidate list. */
  function Ignored(cs: seq<Candidate>): (r: set<string>)
    ensures forall w :: w in r <==> exists i | 0 <= i < |cs| :: w in Directive(cs[i])
  {
    if cs == [] then {}
    else
      var r := (set w | w in Directive(cs[0])) + Ignored(cs[1..]);
      assert forall i | 0 < i < |cs| :: cs[i] == cs[1..][i - 1];
      assert forall i | 0 <= i < |cs| - 1 :: cs[1..][i] == cs[i + 1];
      r
  }

  // ── Completion ──────────────────────────────────────────────────────────────

  function AllCompletions(dicts: seq<Dictionary>, prefix: string): seq<string> {
    if dicts == [] then [] else dicts[0].Completions(prefix) + AllCompletions(dicts[1..], prefix)
  }

  /** `find_completion`: the headword at a place in the merged list, and the place after it. */
  function FindCompletion(dicts: seq<Dictionary>, prefix: string, start: nat): Option<(string, nat)> {
    var all := FirstSeen(AllCompletions(dicts, prefix));
    if start < |all| then Some((all[start], start + 1)) else None
  }
}
