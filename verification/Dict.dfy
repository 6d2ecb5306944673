/** Dictionary data: candidates, entries and the ordered map that the user dictionary is kept in. */
module Dict {
  import opened Text
  import opened Lisp

  datatype Candidate = Candidate(word: string, annotation: Option<string>, lispForm: Option<LispForm>)
  {
    predicate IsDisplayable() {
      lispForm.None?
    }
  }

  type Buckets = map<Option<string>, seq<Candidate>>

  /** One headword of an insertion-ordered map, with its buckets by okurigana key. */
  datatype Entry = Entry(midashi: string, buckets: Buckets)

  /** What is looked up or learned: a headword, an okurigana key and candidates. */
  datatype DictEntry = DictEntry(midashi: string, okuri: Option<string>, candidates: seq<Candidate>)

  datatype DictError = ReadOnly | MissingSeparator(line: nat) | EmptyWord(line: nat)

  function Order(es: seq<Entry>): (r: seq<string>)
    ensures |r| == |es|
    ensures forall i | 0 <= i < |es| :: r[i] == es[i].midashi
  {
    if es == [] then [] else [es[0].midashi] + Order(es[1..])
  }

  ghost predicate UniqueHeads(es: seq<Entry>) {
    Distinct(Order(es))
  }

  function Get(es: seq<Entry>, midashi: string): Option<Buckets> {
    if es == [] then None
    else if es[0].midashi == midashi then Some(es[0].buckets)
    else Get(es[1..], midashi)
  }

  function GetBucket(es: seq<Entry>, midashi: string, okuri: Option<string>): Option<seq<Candidate>> {
    match Get(es, midashi)
    case None => None
    case Some(buckets) => if okuri in buckets then Some(buckets[okuri]) else None
  }

  /** `DictionaryProvider::lookup` of both file-backed dictionaries. */
  function Lookup(es: seq<Entry>, midashi: string, okuri: Option<string>): Option<DictEntry> {
    match GetBucket(es, midashi, okuri)
    case None => None
    case Some(candidates) => Some(DictEntry(midashi, okuri, candidates))
  }

  function BucketOrEmpty(buckets: Buckets, okuri: Option<string>): seq<Candidate> {
    if okuri in buckets then buckets[okuri] else []
  }

  /** `map.entry(midashi).or_default().entry(okuri).or_default().extend(candidates)`. */
  function AddTo(es: seq<Entry>, midashi: string, okuri: Option<string>, candidates: seq<Candidate>): seq<Entry> {
    if es == [] then [Entry(midashi, map[okuri := candidates])]
    else if es[0].midashi == midashi then
      var b := es[0].buckets;
      [Entry(midashi, b[okuri := BucketOrEmpty(b, okuri) + candidates])] + es[1..]
    else [es[0]] + AddTo(es[1..], midashi, okuri, candidates)
  }

  lemma {:induction false} GetInOrder(es: seq<Entry>, midashi: string)
    ensures Get(es, midashi).Some? <==> midashi in Order(es)
  {
    if es != [] {
      GetInOrder(es[1..], midashi);
      assert Order(es) == [es[0].midashi] + Order(es[1..]);
    }
  }

  lemma {:induction false} GetAt(es: seq<Entry>, i: nat)
    requires UniqueHeads(es) && i < |es|
    ensures Get(es, es[i].midashi) == Some(es[i].buckets)
  {
    if i > 0 {
      assert Order(es) == [es[0].midashi] + Order(es[1..]);
      assert Order(es)[0] != Order(es)[i];
      assert forall a, b | 0 <= a < b < |es| - 1 ::
               Order(es[1..])[a] == Order(es)[a + 1] && Order(es[1..])[b] == Order(es)[b + 1];
      GetAt(es[1..], i - 1);
    }
  }

  /** A new headword goes last; a known one keeps its place. */
  lemma {:induction false} AddToOrder(es: seq<Entry>, midashi: string, okuri: Option<string>, cs: seq<Candidate>)
    ensures Order(AddTo(es, midashi, okuri, cs))
         == (if midashi in Order(es) then Order(es) else Order(es) + [midashi])
  {
    if es != [] {
      AddToOrder(es[1..], midashi, okuri, cs);
      assert Order(es) == [es[0].midashi] + Order(es[1..]);
      if es[0].midashi != midashi {
        assert AddTo(es, midashi, okuri, cs)[1..] == AddTo(es[1..], midashi, okuri, cs);
      } else {
        assert AddTo(es, midashi, okuri, cs)[1..] == es[1..];
      }
    }
  }

  /** What bucket (`m`, `o`) holds once `cs` were added to bucket (`midashi`, `okuri`). */
  function Extended(was: Option<seq<Candidate>>, hit: bool, cs: seq<Candidate>): Option<seq<Candidate>> {
    if !hit then was else if was.None? then Some(cs) else Some(was.value + cs)
  }

  /** Adding to a bucket touches that bucket only. */
  lemma {:induction false} AddToBucket(
      es: seq<Entry>, midashi: string, okuri: Option<string>, cs: seq<Candidate>, m: string, o: Option<string>)
    ensures GetBucket(AddTo(es, midashi, okuri, cs), m, o)
         == Extended(GetBucket(es, m, o), m == midashi && o == okuri, cs)
  {
    assert [] + cs == cs;
    var r := AddTo(es, midashi, okuri, cs);
    if es == [] {
      assert r[1..] == [];
    } else if es[0].midashi == midashi {
      assert r[1..] == es[1..];
      assert Get(r, midashi) == Some(r[0].buckets);
    } else {
      assert r[1..] == AddTo(es[1..], midashi, okuri, cs);
      AddToBucket(es[1..], midashi, okuri, cs, m, o);
    }
  }

  /** Two ordered maps with the same order and the same buckets are the same map. */
  lemma {:induction false} SameEntries(a: seq<Entry>, b: seq<Entry>)
    requires Order(a) == Order(b) && UniqueHeads(a)
    requires forall m, o :: GetBucket(a, m, o) == GetBucket(b, m, o)
    ensures a == b
  {
    assert |a| == |b| by { assert |Order(a)| == |Order(b)|; }
    forall i | 0 <= i < |a| ensures a[i] == b[i] {
      var m := a[i].midashi;
      assert m == Order(a)[i] == Order(b)[i];
      GetAt(a, i);
      GetAt(b, i);
      forall o ensures o in a[i].buckets <==> o in b[i].buckets
        ensures o in a[i].buckets ==> a[i].buckets[o] == b[i].buckets[o] {
        assert GetBucket(a, m, o) == GetBucket(b, m, o);
      }
      assert a[i].buckets == b[i].buckets;
    }
  }
}
