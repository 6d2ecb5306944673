/** Building the candidate list of a conversion from all dictionaries. */
module Conversion {
  import opened Text
  import opened Dict
  import opened NumTemplate
  import opened Providers

  /** Where a candidate came from, and the forms that are learned when it is chosen. */
  datatype CandidateOrigin = FromDict(templateMidashi: string, templateWord: string) | Synthetic

  /** A candidate together with its origin. */
  datatype Offer = Offer(candidate: Candidate, origin: CandidateOrigin)
  {
    function Word(): string {
      candidate.word
    }
  }

  /** Everything a conversion depends on besides the headword. */
  datatype Setting = Setting(dicts: seq<Dictionary>, convert: Conversion, lispDirectives: bool)

  // ── The recursive lookup of `#4` ────────────────────────────────────────────

  function IsPlain(): Candidate -> bool {
    (c: Candidate) => c.IsDisplayable()
  }

  function WordList(cs: seq<Candidate>): (r: seq<string>)
    ensures |r| == |cs| && forall i | 0 <= i < |cs| :: r[i] == cs[i].word
  {
    if cs == [] then [] else [cs[0].word] + WordList(cs[1..])
  }

  function NotIgnored(ignored: set<string>): string -> bool {
    (w: string) => w !in ignored
  }

  /** The words that are hidden: none when directives are switched off. */
  function Hidden(s: Setting, cs: seq<Candidate>): set<string> {
    if s.lispDirectives then Ignored(cs) else {}
  }

  /** The closure given to the recursive expansion: displayable words that no directive of the same
      entries hides, without repetition, at most 256 of them. */
  function Secondary(s: Setting): string -> seq<string> {
    (key: string) =>
      var all := Gather(s.dicts, key, None);
      Cap(FirstSeen(Filter(WordList(Filter(all, IsPlain())), NotIgnored(Hidden(s, all)))))
  }

  lemma PlainWordsExist(cs: seq<Candidate>, w: string)
    requires w in WordList(Filter(cs, IsPlain()))
    ensures exists c | c in cs :: c.lispForm.None? && c.word == w
  {
    var plain := Filter(cs, IsPlain());
    var i :| 0 <= i < |plain| && WordList(plain)[i] == w;
    assert plain[i] in plain;
  }

  lemma CapIsFront(s: seq<string>)
    ensures |Cap(s)| <= MAX_RECURSIVE_EXPANSIONS && forall w | w in Cap(s) :: w in s
    ensures Distinct(s) ==> Distinct(Cap(s))
  {
  }

  /** Nothing hidden, nothing twice and nothing without a plain candidate is substituted for `#4`. */
  lemma SecondaryWords(s: Setting, key: string)
    ensures var words, all := Secondary(s)(key), Gather(s.dicts, key, None);
      && Distinct(words) && |words| <= MAX_RECURSIVE_EXPANSIONS
      && (s.lispDirectives ==> forall w | w in words :: w !in Ignored(all))
      && forall w | w in words :: exists c | c in all :: c.lispForm.None? && c.word == w
  {
    var all := Gather(s.dicts, key, None);
    var plain := WordList(Filter(all, IsPlain()));
    var shown := Filter(plain, NotIgnored(Hidden(s, all)));
    FirstSeenKeepsAll(shown);
    CapIsFront(FirstSeen(shown));
    forall w | w in Secondary(s)(key) ensures exists c | c in all :: c.lispForm.None? && c.word == w {
      assert w in shown && w in plain;
      PlainWordsExist(all, w);
    }
  }

  // ── What is offered, in order ───────────────────────────────────────────────

  /** What a plain candidate contributes for a headword: itself, or its numeric expansions. */
  function Alternatives(s: Setting, runs: seq<string>, word: string): seq<string> {
    if runs == [] then [word] else Cap(Expansions(word, runs, s.convert, Secondary(s)))
  }

  function OffersFor(c: Candidate, key: string, words: seq<string>): (r: seq<Offer>)
    ensures |r| == |words|
    ensures forall i | 0 <= i < |words| ::
              r[i] == Offer(Candidate(words[i], c.annotation, None), FromDict(key, c.word))
  {
    if words == [] then []
    else [Offer(Candidate(words[0], c.annotation, None), FromDict(key, c.word))] + OffersFor(c, key, words[1..])
  }

  /** What one dictionary candidate offers; Lisp forms offer nothing. */
  function OffersOfOne(s: Setting, runs: seq<string>, key: string, c: Candidate): seq<Offer> {
    if c.lispForm.Some? then [] else OffersFor(c, key, Alternatives(s, runs, c.word))
  }

  function Offers(s: Setting, runs: seq<string>, key: string, cs: seq<Candidate>): seq<Offer> {
    if cs == [] then [] else OffersOfOne(s, runs, key, cs[0]) + Offers(s, runs, key, cs[1..])
  }

  function SynthOffers(words: seq<string>): (r: seq<Offer>)
    ensures |r| == |words|
    ensures forall i | 0 <= i < |words| :: r[i] == Offer(Candidate(words[i], None, None), Synthetic)
  {
    if words == [] then [] else [Offer(Candidate(words[0], None, None), Synthetic)] + SynthOffers(words[1..])
  }

  function WordNotHidden(hidden: set<string>): Offer -> bool {
    (o: Offer) => o.Word() !in hidden
  }

  function OtherWord(word: string): Offer -> bool {
    (o: Offer) => o.Word() != word
  }

  /** Each word at its first offer. */
  function FirstOffers(os: seq<Offer>): (r: seq<Offer>)
    ensures forall o | o in r :: o in os
  {
    if os == [] then [] else [os[0]] + Filter(FirstOffers(os[1..]), OtherWord(os[0].Word()))
  }

  function LookupKey(midashi: string): string {
    if ScanOf(midashi).runs != [] then ScanOf(midashi).template else midashi
  }

  /** The offers that the dictionaries make and no directive hides. */
  function DictOffers(s: Setting, midashi: string, okuriKey: Option<string>): seq<Offer> {
    var key := LookupKey(midashi);
    var cs := Gather(s.dicts, key, okuriKey);
    Filter(Offers(s, ScanOf(midashi).runs, key, cs), WordNotHidden(Hidden(s, cs)))
  }

  /** Raw digit conversions: as a fallback, and always for a headword that is one digit run. */
  function DigitOffers(s: Setting, midashi: string, fallback: bool): seq<Offer> {
    var scanned := ScanOf(midashi);
    if scanned.runs != [] && (fallback || scanned.template == "#")
    then SynthOffers(Synthesize(scanned.runs, SYNTH_TYPES, s.convert))
    else []
  }

  /** The candidate list of a conversion. */
  function CandidateList(s: Setting, midashi: string, okuriKey: Option<string>): seq<Offer> {
    var fromDicts := DictOffers(s, midashi, okuriKey);
    FirstOffers(fromDicts + DigitOffers(s, midashi, fromDicts == []))
  }

  function CandidatesOf(os: seq<Offer>): (r: seq<Candidate>)
    ensures |r| == |os| && forall i | 0 <= i < |os| :: r[i] == os[i].candidate
  {
    if os == [] then [] else [os[0].candidate] + CandidatesOf(os[1..])
  }

  function OriginsOf(os: seq<Offer>): (r: seq<CandidateOrigin>)
    ensures |r| == |os| && forall i | 0 <= i < |os| :: r[i] == os[i].origin
  {
    if os == [] then [] else [os[0].origin] + OriginsOf(os[1..])
  }

  function WordsOf(os: seq<Offer>): (r: seq<string>)
    ensures |r| == |os| && forall i | 0 <= i < |os| :: r[i] == os[i].Word()
  {
    if os == [] then [] else [os[0].Word()] + WordsOf(os[1..])
  }

  // ── The loops of `start_conversion` ─────────────────────────────────────────

  function OfferNotIn(words: seq<string>): Offer -> bool {
    (o: Offer) => o.Word() !in words
  }

  lemma {:induction false} FirstOffersSplit(a: seq<Offer>, b: seq<Offer>)
    ensures FirstOffers(a + b) == FirstOffers(a) + Filter(FirstOffers(b), OfferNotIn(WordsOf(a)))
  {
    hide FirstOffers, WordsOf, Filter;
    var u := FirstOffers(b);
    if a == [] {
      FirstOffersAfterNothing(b);
      assert a + b == b;
    } else {
      var h, t := a[0], a[1..];
      assert a == [h] + t && a + b == [h] + (t + b);
      FirstOffersSplit(t, b);
      FirstOffersCons(h, t);
      FirstOffersCons(h, t + b);
      FilterSplit(FirstOffers(t), Filter(u, OfferNotIn(WordsOf(t))), OtherWord(h.Word()));
      OneOfferMore(u, h, t);
      assert [h] + (Filter(FirstOffers(t), OtherWord(h.Word())) + Filter(u, OfferNotIn(WordsOf([h] + t))))
          == ([h] + Filter(FirstOffers(t), OtherWord(h.Word()))) + Filter(u, OfferNotIn(WordsOf([h] + t)));
    }
  }

  lemma FirstOffersAfterNothing(b: seq<Offer>)
    ensures FirstOffers(b) == FirstOffers([]) + Filter(FirstOffers(b), OfferNotIn(WordsOf([])))
  {
    FilterAll(FirstOffers(b), OfferNotIn(WordsOf([])));
  }

  lemma FirstOffersCons(h: Offer, t: seq<Offer>)
    ensures FirstOffers([h] + t) == [h] + Filter(FirstOffers(t), OtherWord(h.Word()))
  {
    assert ([h] + t)[1..] == t;
  }

  lemma OneOfferMore(u: seq<Offer>, h: Offer, t: seq<Offer>)
    ensures Filter(Filter(u, OfferNotIn(WordsOf(t))), OtherWord(h.Word())) == Filter(u, OfferNotIn(WordsOf([h] + t)))
  {
    FilterTwice(u, OfferNotIn(WordsOf(t)), OtherWord(h.Word()));
    assert ([h] + t)[1..] == t && WordsOf([h] + t) == [h.Word()] + WordsOf(t);
    FilterSame(u, And(OfferNotIn(WordsOf(t)), OtherWord(h.Word())), OfferNotIn(WordsOf([h] + t)));
  }

  /** First offers carry the same words as all offers. */
  lemma {:induction false} FirstOffersWords(os: seq<Offer>)
    ensures WordsOf(FirstOffers(os)) == FirstSeen(WordsOf(os))
  {
    if os != [] {
      FirstOffersWords(os[1..]);
      WordsOfFiltered(FirstOffers(os[1..]), os[0].Word());
      assert WordsOf(os) == [os[0].Word()] + WordsOf(os[1..]);
      var rest := Filter(FirstOffers(os[1..]), OtherWord(os[0].Word()));
      assert WordsOf([os[0]] + rest) == [os[0].Word()] + WordsOf(rest);
    }
  }

  lemma {:induction false} WordsOfFiltered(os: seq<Offer>, word: string)
    ensures WordsOf(Filter(os, OtherWord(word))) == Filter(WordsOf(os), Neq(word))
  {
    if os != [] {
      WordsOfFiltered(os[1..], word);
      var rest := Filter(os[1..], OtherWord(word));
      assert WordsOf([os[0]] + rest) == [os[0].Word()] + WordsOf(rest);
    }
  }

  /** What one more offer does to the list of first offers. */
  lemma FirstOffersSnoc(os: seq<Offer>, o: Offer)
    ensures FirstOffers(os + [o])
         == if o.Word() in WordsOf(FirstOffers(os)) then FirstOffers(os) else FirstOffers(os) + [o]
  {
    FirstOffersSplit(os, [o]);
    FirstOffersWords(os);
    FirstSeenKeepsAll(WordsOf(os));
    assert FirstOffers([o]) == [o];
    assert FirstOffers(os) + [] == FirstOffers(os);
  }

  /** The three variables of the loop: the list in two columns, and the words seen so far. */
  ghost predicate Columns(
      list: seq<Offer>, candidates: seq<Candidate>, origin: seq<CandidateOrigin>, seen: set<string>)
  {
    candidates == CandidatesOf(list) && origin == OriginsOf(list)
    && forall w :: w in seen <==> w in WordsOf(list)
  }

  lemma ColumnsSnoc(list: seq<Offer>, o: Offer, candidates: seq<Candidate>, origin: seq<CandidateOrigin>,
                    seen: set<string>)
    requires Columns(list, candidates, origin, seen)
    ensures Columns(list + [o], candidates + [o.candidate], origin + [o.origin], seen + {o.Word()})
  {
    assert CandidatesOf(list + [o]) == CandidatesOf(list) + [o.candidate];
    assert OriginsOf(list + [o]) == OriginsOf(list) + [o.origin];
    assert WordsOf(list + [o]) == WordsOf(list) + [o.Word()];
  }

  /** Offers the alternatives of one dictionary candidate. The source moves instead of copying when
      there is a single alternative; both branches do this. */
  method OfferAlternatives(
      c: Candidate, key: string, alternatives: seq<string>, hidden: set<string>, ghost before: seq<Offer>,
      candidates0: seq<Candidate>, origin0: seq<CandidateOrigin>, seen0: set<string>)
    returns (candidates: seq<Candidate>, origin: seq<CandidateOrigin>, seen: set<string>)
    requires Columns(FirstOffers(before), candidates0, origin0, seen0)
    ensures Columns(FirstOffers(before + Filter(OffersFor(c, key, alternatives), WordNotHidden(hidden))),
                    candidates, origin, seen)
  {
    candidates, origin, seen := candidates0, origin0, seen0;
    ghost var all := OffersFor(c, key, alternatives);
    assert all[..0] == [] && before + [] == before;
    for i := 0 to |alternatives|
      invariant Columns(FirstOffers(before + Filter(all[..i], WordNotHidden(hidden))), candidates, origin, seen)
    {
      var word := alternatives[i];
      ghost var soFar := before + Filter(all[..i], WordNotHidden(hidden));
      OneMore(before, all, i, hidden);
      if word in hidden { continue; }
      FirstOffersSnoc(soFar, all[i]);
      if word !in seen {
        ColumnsSnoc(FirstOffers(soFar), all[i], candidates, origin, seen);
        seen := seen + {word};
        candidates := candidates + [Candidate(word, c.annotation, None)];
        origin := origin + [FromDict(key, c.word)];
      }
    }
    assert all[..|alternatives|] == all;
  }

  lemma OneMore(before: seq<Offer>, all: seq<Offer>, i: nat, hidden: set<string>)
    requires i < |all|
    ensures before + Filter(all[..i + 1], WordNotHidden(hidden))
         == if all[i].Word() in hidden then before + Filter(all[..i], WordNotHidden(hidden))
            else (before + Filter(all[..i], WordNotHidden(hidden))) + [all[i]]
  {
    assert all[..i + 1] == all[..i] + [all[i]];
    FilterSplit(all[..i], [all[i]], WordNotHidden(hidden));
  }

  lemma {:induction false} OffersSplit(
      s: Setting, runs: seq<string>, key: string, a: seq<Candidate>, b: seq<Candidate>)
    ensures Offers(s, runs, key, a + b) == Offers(s, runs, key, a) + Offers(s, runs, key, b)
  {
    if a == [] {
      assert a + b == b;
    } else {
      assert (a + b)[1..] == a[1..] + b;
      OffersSplit(s, runs, key, a[1..], b);
    }
  }

  lemma OffersSingle(s: Setting, runs: seq<string>, key: string, c: Candidate)
    ensures Offers(s, runs, key, [c]) == OffersOfOne(s, runs, key, c)
  {
    assert [c][1..] == [];
    var mine := OffersOfOne(s, runs, key, c);
    assert mine + [] == mine;
  }

  /** What one more dictionary candidate adds to the offers that are kept. */
  lemma OffersSnoc(s: Setting, runs: seq<string>, key: string, cs: seq<Candidate>, c: Candidate, hidden: set<string>)
    ensures Filter(Offers(s, runs, key, cs + [c]), WordNotHidden(hidden))
         == Filter(Offers(s, runs, key, cs), WordNotHidden(hidden))
            + Filter(OffersOfOne(s, runs, key, c), WordNotHidden(hidden))
  {
    OffersSplit(s, runs, key, cs, [c]);
    OffersSingle(s, runs, key, c);
    FilterSplit(Offers(s, runs, key, cs), OffersOfOne(s, runs, key, c), WordNotHidden(hidden));
  }

  /** The loop over the dictionary candidates. */
  method OfferAll(s: Setting, runs: seq<string>, key: string, cs: seq<Candidate>)
    returns (candidates: seq<Candidate>, origin: seq<CandidateOrigin>, seen: set<string>)
    ensures Columns(FirstOffers(Filter(Offers(s, runs, key, cs), WordNotHidden(Hidden(s, cs)))), candidates, origin, seen)
  {
    candidates, origin, seen := [], [], {};
    var hidden := if s.lispDirectives then Ignored(cs) else {};
    assert cs[..0] == [];
    for i := 0 to |cs|
      invariant Columns(FirstOffers(Filter(Offers(s, runs, key, cs[..i]), WordNotHidden(hidden))), candidates, origin, seen)
    {
      var c := cs[i];
      ghost var before := Filter(Offers(s, runs, key, cs[..i]), WordNotHidden(hidden));
      assert cs[..i + 1] == cs[..i] + [c];
      OffersSnoc(s, runs, key, cs[..i], c, hidden);
      if c.lispForm.Some? {
        assert before + [] == before;
        continue;
      }
      var alternatives := [c.word];
      if runs != [] {
        alternatives := ExpandWithRecursiveLookup(c.word, runs, s.convert, Secondary(s));
      }
      candidates, origin, seen := OfferAlternatives(c, key, alternatives, hidden, before, candidates, origin, seen);
    }
    assert cs[..|cs|] == cs;
  }

  lemma SynthStep(before: seq<Offer>, all: seq<Offer>, i: nat)
    requires i < |all|
    ensures var list, o := FirstOffers(before + all[..i]), all[i];
      FirstOffers(before + all[..i + 1]) == if o.Word() in WordsOf(list) then list else list + [o]
  {
    assert before + all[..i + 1] == (before + all[..i]) + [all[i]];
    FirstOffersSnoc(before + all[..i], all[i]);
  }

  lemma AppendOffer(list: seq<Offer>, o: Offer)
    ensures CandidatesOf(list + [o]) == CandidatesOf(list) + [o.candidate]
    ensures OriginsOf(list + [o]) == OriginsOf(list) + [o.origin]
  {
  }

  /** `candidates.iter().any(|c| c.word == word)` */
  predicate AnyWord(cs: seq<Candidate>, word: string) {
    cs != [] && (cs[0].word == word || AnyWord(cs[1..], word))
  }

  lemma {:induction false} AnyWordOf(list: seq<Offer>, word: string)
    ensures AnyWord(CandidatesOf(list), word) <==> word in WordsOf(list)
  {
    if list != [] {
      AnyWordOf(list[1..], word);
      assert CandidatesOf(list)[1..] == CandidatesOf(list[1..]);
      assert WordsOf(list) == [list[0].Word()] + WordsOf(list[1..]);
    }
  }

  /** The loop that appends synthetic candidates, looking through the whole list for repetitions. */
  method OfferSynthetic(words: seq<string>, ghost before: seq<Offer>, candidates0: seq<Candidate>,
                        origin0: seq<CandidateOrigin>)
    returns (candidates: seq<Candidate>, origin: seq<CandidateOrigin>)
    requires candidates0 == CandidatesOf(FirstOffers(before)) && origin0 == OriginsOf(FirstOffers(before))
    ensures candidates == CandidatesOf(FirstOffers(before + SynthOffers(words)))
    ensures origin == OriginsOf(FirstOffers(before + SynthOffers(words)))
  {
    candidates, origin := candidates0, origin0;
    ghost var all := SynthOffers(words);
    ghost var list := FirstOffers(before);
    assert all[..0] == [] && before + [] == before;
    for i := 0 to |words|
      invariant list == FirstOffers(before + all[..i])
      invariant candidates == CandidatesOf(list) && origin == OriginsOf(list)
    {
      SynthStep(before, all, i);
      AnyWordOf(list, words[i]);
      if !AnyWord(candidates, words[i]) {
        AppendOffer(list, all[i]);
        candidates := candidates + [Candidate(words[i], None, None)];
        origin := origin + [Synthetic];
        list := list + [all[i]];
      }
    }
    assert all[..|words|] == all;
  }

  /** The list that `start_conversion` builds, in two columns of equal length. */
  method BuildCandidates(s: Setting, midashi: string, okuriKey: Option<string>)
    returns (candidates: seq<Candidate>, origin: seq<CandidateOrigin>)
    ensures candidates == CandidatesOf(CandidateList(s, midashi, okuriKey))
    ensures origin == OriginsOf(CandidateList(s, midashi, okuriKey))
  {
    var template, runs := Scan(midashi);
    var key := if runs != [] then template else midashi;
    var seen;
    ghost var before := DictOffers(s, midashi, okuriKey);
    candidates, origin, seen := OfferAll(s, runs, key, Gather(s.dicts, key, okuriKey));
    assert before == [] <==> candidates == [];
    assert before + [] == before;
    if runs != [] && (candidates == [] || template == "#") {
      var words := SynthesizeWords(runs, SYNTH_TYPES, s.convert);
      candidates, origin := OfferSynthetic(words, before, candidates, origin);
    }
  }

  // ── What the list promises ──────────────────────────────────────────────────

  /** No word appears twice. */
  lemma WordsAreDistinct(s: Setting, midashi: string, okuriKey: Option<string>)
    ensures Distinct(WordsOf(CandidateList(s, midashi, okuriKey)))
  {
    var d := DictOffers(s, midashi, okuriKey);
    var all := d + DigitOffers(s, midashi, d == []);
    FirstOffersWords(all);
    FirstSeenKeepsAll(WordsOf(all));
  }

  lemma {:induction false} OfferComesFrom(s: Setting, runs: seq<string>, key: string, cs: seq<Candidate>, o: Offer)
    requires o in Offers(s, runs, key, cs)
    ensures exists i | 0 <= i < |cs| ::
              cs[i].lispForm.None? && o in OffersFor(cs[i], key, Alternatives(s, runs, cs[i].word))
  {
    if cs[0].lispForm.None? && o in OffersFor(cs[0], key, Alternatives(s, runs, cs[0].word)) {
    } else {
      OfferComesFrom(s, runs, key, cs[1..], o);
      var i :| 0 <= i < |cs| - 1 && cs[1..][i].lispForm.None?
               && o in OffersFor(cs[1..][i], key, Alternatives(s, runs, cs[1..][i].word));
      assert cs[i + 1] == cs[1..][i];
    }
  }

  /** A candidate from the dictionaries: some plain dictionary candidate has its annotation and its
      template word, the word is the template word or one of its expansions, and nothing hides it. */
  ghost predicate IsDictCandidate(s: Setting, midashi: string, okuriKey: Option<string>, o: Offer) {
    var key := LookupKey(midashi);
    var cs := Gather(s.dicts, key, okuriKey);
    && o.origin.FromDict? && o.origin.templateMidashi == key && o.candidate.lispForm.None?
    && o.Word() !in Hidden(s, cs)
    && (exists i | 0 <= i < |cs| ::
          cs[i].lispForm.None? && cs[i].word == o.origin.templateWord && cs[i].annotation == o.candidate.annotation)
    && (if ScanOf(midashi).runs == [] then o.Word() == o.origin.templateWord
        else ExpandsTo(o.origin.templateWord, ScanOf(midashi).runs, s.convert, Secondary(s), o.Word()))
  }

  ghost predicate IsSynthetic(s: Setting, midashi: string, o: Offer) {
    var runs := ScanOf(midashi).runs;
    && o.origin == Synthetic && o.candidate.annotation.None? && o.candidate.lispForm.None?
    && runs != [] && o.Word() in Synthesize(runs, SYNTH_TYPES, s.convert)
  }

  /** The word of an offer is the template word or one of its expansions. */
  lemma AlternativeIsExpansion(s: Setting, runs: seq<string>, word: string, k: nat)
    requires k < |Alternatives(s, runs, word)|
    ensures var text := Alternatives(s, runs, word)[k];
      if runs == [] then text == word else ExpandsTo(word, runs, s.convert, Secondary(s), text)
  {
    if runs != [] {
      var all := Expansions(word, runs, s.convert, Secondary(s));
      assert Alternatives(s, runs, word)[k] == all[k];
      ExpansionsAreSound(word, runs, s.convert, Secondary(s), all[k]);
    }
  }

  lemma DictOfferIsSound(s: Setting, midashi: string, okuriKey: Option<string>, o: Offer)
    requires o in DictOffers(s, midashi, okuriKey)
    ensures IsDictCandidate(s, midashi, okuriKey, o)
  {
    var runs, key := ScanOf(midashi).runs, LookupKey(midashi);
    var cs := Gather(s.dicts, key, okuriKey);
    OfferComesFrom(s, runs, key, cs, o);
    var i :| 0 <= i < |cs| && cs[i].lispForm.None?
             && o in OffersFor(cs[i], key, Alternatives(s, runs, cs[i].word));
    var mine := OffersFor(cs[i], key, Alternatives(s, runs, cs[i].word));
    var k :| 0 <= k < |mine| && o == mine[k];
    AlternativeIsExpansion(s, runs, cs[i].word, k);
  }

  /** Main result: what every line of the list is, for any dictionaries. */
  lemma CandidatesAreSound(s: Setting, midashi: string, okuriKey: Option<string>, o: Offer)
    requires o in CandidateList(s, midashi, okuriKey)
    ensures IsDictCandidate(s, midashi, okuriKey, o) || IsSynthetic(s, midashi, o)
  {
    var d := DictOffers(s, midashi, okuriKey);
    if o in d {
      DictOfferIsSound(s, midashi, okuriKey, o);
    } else {
      var digits := DigitOffers(s, midashi, d == []);
      var k :| 0 <= k < |digits| && o == digits[k];
    }
  }

  lemma {:induction false} OfferIsMade(
      s: Setting, runs: seq<string>, key: string, cs: seq<Candidate>, i: nat, o: Offer)
    requires i < |cs| && o in OffersOfOne(s, runs, key, cs[i])
    ensures o in Offers(s, runs, key, cs)
  {
    if i > 0 {
      OfferIsMade(s, runs, key, cs[1..], i - 1, o);
    }
  }

  /** The words of the offers are the words of the first offers. */
  lemma WordIsListed(os: seq<Offer>, o: Offer)
    requires o in os
    ensures o.Word() in WordsOf(FirstOffers(os))
  {
    var j :| 0 <= j < |os| && os[j] == o;
    assert WordsOf(os)[j] == o.Word();
    FirstOffersWords(os);
    FirstSeenKeepsAll(WordsOf(os));
  }

  /** Nothing that should be offered is missing: every word a plain candidate stands for is in the list
      unless a directive hides it. */
  lemma CandidatesAreComplete(s: Setting, midashi: string, okuriKey: Option<string>, i: nat, word: string)
    requires i < |Gather(s.dicts, LookupKey(midashi), okuriKey)|
    requires var cs := Gather(s.dicts, LookupKey(midashi), okuriKey);
      && cs[i].lispForm.None? && word in Alternatives(s, ScanOf(midashi).runs, cs[i].word)
      && word !in Hidden(s, cs)
    ensures word in WordsOf(CandidateList(s, midashi, okuriKey))
  {
    var runs, key := ScanOf(midashi).runs, LookupKey(midashi);
    var cs := Gather(s.dicts, key, okuriKey);
    var mine := OffersOfOne(s, runs, key, cs[i]);
    var k :| 0 <= k < |mine| && Alternatives(s, runs, cs[i].word)[k] == word;
    OfferIsMade(s, runs, key, cs, i, mine[k]);
    var d := DictOffers(s, midashi, okuriKey);
    assert mine[k] in d;
    WordIsListed(d + DigitOffers(s, midashi, d == []), mine[k]);
  }

  /** Priority: the words come in the order of their first offer, dictionaries before synthesis. */
  lemma FirstOccurrenceOrder(s: Setting, midashi: string, okuriKey: Option<string>)
    ensures var d := DictOffers(s, midashi, okuriKey);
      && WordsOf(FirstOffers(d)) == FirstSeen(WordsOf(d))
      && FirstOffers(d) <= CandidateList(s, midashi, okuriKey)
  {
    var d := DictOffers(s, midashi, okuriKey);
    FirstOffersWords(d);
    FirstOffersSplit(d, DigitOffers(s, midashi, d == []));
  }

  /** Dictionaries of higher priority come first: with the same words hidden, what they offer is the
      front of the list, and later dictionaries only add words that they do not offer. */
  lemma HigherPriorityFirst(
      s: Setting, a: seq<Dictionary>, b: seq<Dictionary>, midashi: string, okuriKey: Option<string>)
    requires s.dicts == a + b
    ensures var runs, key := ScanOf(midashi).runs, LookupKey(midashi);
      var visible := WordNotHidden(Hidden(s, Gather(s.dicts, key, okuriKey)));
      var mine := Filter(Offers(s, runs, key, Gather(a, key, okuriKey)), visible);
      var later := Filter(Offers(s, runs, key, Gather(b, key, okuriKey)), visible);
      FirstOffers(DictOffers(s, midashi, okuriKey))
      == FirstOffers(mine) + Filter(FirstOffers(later), OfferNotIn(WordsOf(mine)))
  {
    var runs, key := ScanOf(midashi).runs, LookupKey(midashi);
    var visible := WordNotHidden(Hidden(s, Gather(s.dicts, key, okuriKey)));
    var ga, gb := Gather(a, key, okuriKey), Gather(b, key, okuriKey);
    GatherSplit(a, b, key, okuriKey);
    OffersSplit(s, runs, key, ga, gb);
    FilterSplit(Offers(s, runs, key, ga), Offers(s, runs, key, gb), visible);
    FirstOffersSplit(Filter(Offers(s, runs, key, ga), visible), Filter(Offers(s, runs, key, gb), visible));
  }
}
