/** What learning, purging and saving promise about the user dictionary. */
module UserDictLaws {
  import opened Text
  import opened Lisp
  import opened Dict
  import opened DictFormat
  import opened DictSave
  import opened UserDictionary

  // ── The learned bucket ──────────────────────────────────────────────────────

  ghost predicate AllPlain(cs: seq<Candidate>) {
    forall c | c in cs :: c.lispForm.None?
  }

  lemma {:induction false} FirstByWordWords(cs: seq<Candidate>)
    ensures Words(FirstByWord(cs)) == Words(cs)
    ensures forall c | c in FirstByWord(cs) :: c in cs
    ensures forall i, j | 0 <= i < j < |FirstByWord(cs)| :: FirstByWord(cs)[i].word != FirstByWord(cs)[j].word
  {
    if cs != [] {
      FirstByWordWords(cs[1..]);
      var rest := FirstByWord(cs[1..]);
      FilterUniqueWords(rest, WordNotIn({cs[0].word}));
      var kept := Filter(rest, WordNotIn({cs[0].word}));
      forall i | 0 <= i < |kept| ensures kept[i].word != cs[0].word {
        assert kept[i] in kept && WordNotIn({cs[0].word})(kept[i]);
      }
      assert cs == [cs[0]] + cs[1..];
      forall w ensures w in Words(FirstByWord(cs)) <==> w in Words(cs) {
        if w in Words(cs) && w != cs[0].word {
          assert w in Words(cs[1..]);
          var c :| c in rest && c.word == w;
          assert c in kept;
        }
      }
    }
  }

  lemma {:induction false} FilterUniqueWords(cs: seq<Candidate>, keep: Candidate -> bool)
    requires forall i, j | 0 <= i < j < |cs| :: cs[i].word != cs[j].word
    ensures forall i, j | 0 <= i < j < |Filter(cs, keep)| :: Filter(cs, keep)[i].word != Filter(cs, keep)[j].word
  {
    if cs != [] {
      FilterUniqueWords(cs[1..], keep);
      var kept := Filter(cs[1..], keep);
      forall j | 0 <= j < |kept| ensures kept[j].word != cs[0].word {
        assert kept[j] in kept && kept[j] in cs[1..];
      }
    }
  }

  lemma {:induction false} CleanedSplit(a: seq<Candidate>, b: seq<Candidate>, learned: set<string>)
    ensures Cleaned(a + b, learned) == Cleaned(a, learned) + Cleaned(b, learned)
  {
    assert PrunedAll(a + b, learned) == PrunedAll(a, learned) + PrunedAll(b, learned);
    FilterSplit(PrunedAll(a, learned), PrunedAll(b, learned), NotEmptyDirective());
  }

  /** Pruning leaves alone what is already pruned. */
  lemma CleanedKeeps(cs: seq<Candidate>, learned: set<string>)
    requires forall c | c in cs :: Pruned(c, learned) == c && !IsEmptyDirective(c)
    ensures Cleaned(cs, learned) == cs
  {
    assert PrunedAll(cs, learned) == cs;
    FilterAll(cs, NotEmptyDirective());
  }

  lemma PrunedTwice(c: Candidate, learned: set<string>)
    ensures Pruned(Pruned(c, learned), learned) == Pruned(c, learned)
  {
    if c.lispForm.Some? && c.lispForm.value.IgnoreDicWord? {
      var words := c.lispForm.value.words;
      FilterAll(Without(words, learned), (w: string) => w !in learned);
    }
  }

  lemma CleanedElement(cs: seq<Candidate>, learned: set<string>, c: Candidate)
    requires c in Cleaned(cs, learned)
    ensures !IsEmptyDirective(c) && exists was :: was in cs && c == Pruned(was, learned)
  {
    var p := PrunedAll(cs, learned);
    var i :| 0 <= i < |p| && p[i] == c;
    assert cs[i] in cs && c == Pruned(cs[i], learned);
  }

  /** Learning puts the new candidates first, once each; those with other words follow in their old order; and
      directives in both parts lose the learned plain words. */
  lemma LearnedBucketShape(list: seq<Candidate>, learned: seq<Candidate>)
    ensures LearnedBucket(list, learned)
         == Cleaned(FirstByWord(learned), PlainWords(learned))
            + Cleaned(Filter(list, WordNotIn(Words(learned))), PlainWords(learned))
  {
    CleanedSplit(FirstByWord(learned), Filter(list, WordNotIn(Words(learned))), PlainWords(learned));
  }

  /** Plain candidates are learned as they are. */
  lemma PlainStaysPlain(learned: seq<Candidate>)
    requires AllPlain(learned)
    ensures PlainWords(learned) == Words(learned) && !Respelled(learned)
    ensures Cleaned(FirstByWord(learned), PlainWords(learned)) == FirstByWord(learned)
  {
    FirstByWordWords(learned);
    CleanedKeeps(FirstByWord(learned), PlainWords(learned));
  }

  /** After learning anything, no directive of the bucket is empty, stale or lists a learned word. */
  lemma DirectivesArePruned(list: seq<Candidate>, learned: seq<Candidate>, c: Candidate)
    requires c in LearnedBucket(list, learned) && c.lispForm.Some? && c.lispForm.value.IgnoreDicWord?
    ensures var words := c.lispForm.value.words;
      words != [] && c.word == RenderIgnore(words) && forall w | w in words :: w !in PlainWords(learned)
  {
    CleanedElement(Promoted(list, learned), PlainWords(learned), c);
    var was :| was in Promoted(list, learned) && c == Pruned(was, PlainWords(learned));
  }

  predicate IsDirective(c: Candidate) {
    c.lispForm.Some? && c.lispForm.value.IgnoreDicWord?
  }

  /** An old directive that, once pruned, is spelled like a word being learned. */
  ghost predicate Clash(list: seq<Candidate>, learned: seq<Candidate>) {
    exists c | c in list && IsDirective(c) && c.word !in Words(learned) ::
      var kept := Without(c.lispForm.value.words, PlainWords(learned));
      kept != [] && RenderIgnore(kept) in Words(learned)
  }

  /** A directive being learned that, once pruned, is spelled like none of the words being learned. */
  ghost predicate Respelled(learned: seq<Candidate>) {
    exists c | c in FirstByWord(learned) && IsDirective(c) ::
      var kept := Without(c.lispForm.value.words, PlainWords(learned));
      kept != [] && RenderIgnore(kept) !in Words(learned)
  }

  lemma CleanedOfClean(list: seq<Candidate>, words: set<string>, keep: Candidate -> bool)
    ensures Cleaned(Filter(Cleaned(list, words), keep), words) == Filter(Cleaned(list, words), keep)
  {
    var cs := Filter(Cleaned(list, words), keep);
    forall c | c in cs ensures Pruned(c, words) == c && !IsEmptyDirective(c) {
      CleanedElement(list, words, c);
      var was :| was in list && c == Pruned(was, words);
      PrunedTwice(was, words);
    }
    CleanedKeeps(cs, words);
  }

  lemma CleanedHas(cs: seq<Candidate>, words: set<string>, c: Candidate)
    requires c in cs && !IsEmptyDirective(Pruned(c, words))
    ensures Pruned(c, words) in Cleaned(cs, words)
  {
    var i :| 0 <= i < |cs| && cs[i] == c;
    assert PrunedAll(cs, words)[i] == Pruned(c, words);
  }

  /** The old part keeps a learned word exactly in a clash. */
  lemma ClashIsVisible(list: seq<Candidate>, learned: seq<Candidate>)
    ensures Clash(list, learned)
       <==> exists c | c in Cleaned(Filter(list, WordNotIn(Words(learned))), PlainWords(learned)) ::
              c.word in Words(learned)
  {
    hide Without, RenderIgnore, Cleaned;
    var w, p := Words(learned), PlainWords(learned);
    var rest := Filter(list, WordNotIn(w));
    if c :| c in Cleaned(rest, p) && c.word in w {
      CleanedElement(rest, p, c);
      var was :| was in rest && c == Pruned(was, p);
      assert Clash(list, learned);
    }
    if Clash(list, learned) {
      var c :| c in list && IsDirective(c) && c.word !in w
        && Without(c.lispForm.value.words, p) != [] && RenderIgnore(Without(c.lispForm.value.words, p)) in w;
      CleanedHas(rest, p, c);
    }
  }

  /** The new part has an unlearned word exactly if a directive is respelled. */
  lemma RespellingIsVisible(learned: seq<Candidate>)
    ensures Respelled(learned)
       <==> exists c | c in Cleaned(FirstByWord(learned), PlainWords(learned)) :: c.word !in Words(learned)
  {
    hide Without, RenderIgnore, Cleaned;
    var w, p, front := Words(learned), PlainWords(learned), FirstByWord(learned);
    FirstByWordWords(learned);
    if c :| c in Cleaned(front, p) && c.word !in w {
      CleanedElement(front, p, c);
      var was :| was in front && c == Pruned(was, p);
      assert was.word in Words(front);
      assert Respelled(learned);
    }
    if Respelled(learned) {
      var c :| c in front && IsDirective(c)
        && Without(c.lispForm.value.words, p) != [] && RenderIgnore(Without(c.lispForm.value.words, p)) !in w;
      CleanedHas(front, p, c);
    }
  }

  /** Only with nothing in front can a filtered list be as it was before filtering. */
  lemma FilteredInFront(a: seq<Candidate>, t: seq<Candidate>, keep: Candidate -> bool)
    ensures Filter(a, keep) + Filter(t, keep) == t
       <==> (forall c | c in a :: !keep(c)) && forall c | c in t :: keep(c)
  {
    var fa, ft := Filter(a, keep), Filter(t, keep);
    if fa + ft == t {
      FilterSplit(fa, ft, keep);
      FilterAll(fa, keep);
      FilterAll(ft, keep);
      assert |fa| == 0;
      assert fa + ft == ft;
    }
    if (forall c | c in a :: !keep(c)) && forall c | c in t :: keep(c) {
      FilterNone(a, keep);
      FilterAll(t, keep);
      assert [] + t == t;
    }
  }

  lemma SamePrefix<T>(front: seq<T>, x: seq<T>, y: seq<T>)
    ensures front + x == front + y <==> x == y
  {
    assert (front + x)[|front|..] == x && (front + y)[|front|..] == y;
  }

  /** What learning the same candidates again leaves. */
  lemma LearnedBucketAgain(list: seq<Candidate>, learned: seq<Candidate>)
    ensures var keep, p := WordNotIn(Words(learned)), PlainWords(learned);
      var a, t := Cleaned(FirstByWord(learned), p), Cleaned(Filter(list, keep), p);
      LearnedBucket(a + t, learned) == a + (Filter(a, keep) + Filter(t, keep))
  {
    hide Cleaned;
    var keep, p := WordNotIn(Words(learned)), PlainWords(learned);
    var a, t := Cleaned(FirstByWord(learned), p), Cleaned(Filter(list, keep), p);
    LearnedBucketShape(a + t, learned);
    FilterSplit(a, t, keep);
    CleanedSplit(Filter(a, keep), Filter(t, keep), p);
    CleanedOfClean(FirstByWord(learned), p, keep);
    CleanedOfClean(Filter(list, keep), p, keep);
  }

  /** Learning candidates twice is learning them once exactly when no old directive clashes and no new one is
      respelled. */
  lemma LearnBucketTwice(list: seq<Candidate>, learned: seq<Candidate>)
    ensures LearnedBucket(LearnedBucket(list, learned), learned) == LearnedBucket(list, learned)
       <==> !Clash(list, learned) && !Respelled(learned)
  {
    hide Cleaned, LearnedBucket, Clash, Respelled;
    var keep, p := WordNotIn(Words(learned)), PlainWords(learned);
    var a, t := Cleaned(FirstByWord(learned), p), Cleaned(Filter(list, keep), p);
    LearnedBucketShape(list, learned);
    LearnedBucketAgain(list, learned);
    SamePrefix(a, Filter(a, keep) + Filter(t, keep), t);
    FilteredInFront(a, t, keep);
    ClashIsVisible(list, learned);
    RespellingIsVisible(learned);
  }

  /** A clash that one learned word makes: a directive is read from a file with two blanks in it, and a word spelled
      like the directive with one blank is registered. */
  lemma ClashExample()
    ensures var d := ParseField("(skk-ignore-dic-word  \"b\")");
      var learned := [Candidate("(skk-ignore-dic-word \"b\")", None, None)];
      && d == Candidate("(skk-ignore-dic-word  \"b\")", None, Some(IgnoreDicWord(["b"])))
      && AllPlain(learned) && Clash([d], learned)
      && LearnedBucket(LearnedBucket([d], learned), learned) != LearnedBucket([d], learned)
  {
    var d := ParseField("(skk-ignore-dic-word  \"b\")");
    var c := Candidate("(skk-ignore-dic-word \"b\")", None, None);
    hide ParseField, RenderIgnore, LearnedBucket, FirstByWord;
    TwoBlanksRead();
    OneBlankRendered();
    assert Words([c]) == {c.word} && PlainWords([c]) == {c.word};
    assert "b" != c.word && d.word != c.word by { assert |d.word| == |c.word| + 1; }
    assert Without(["b"], {c.word}) == ["b"];
    assert d in [d];
    assert Clash([d], [c]);
    LearnBucketTwice([d], [c]);
  }

  /** Learning a directive that is spelled with two blanks itself adds a second copy the second time. */
  lemma RespellingExample()
    ensures var d := ParseField("(skk-ignore-dic-word  \"b\")");
      Respelled([d]) && LearnedBucket(LearnedBucket([], [d]), [d]) != LearnedBucket([], [d])
  {
    var d := ParseField("(skk-ignore-dic-word  \"b\")");
    hide ParseField, RenderIgnore, LearnedBucket;
    TwoBlanksRead();
    OneBlankRendered();
    assert Words([d]) == {d.word} && PlainWords([d]) == {};
    assert d.word != RenderIgnore(["b"]) by { assert |d.word| == |RenderIgnore(["b"])| + 1; }
    assert Without(["b"], {}) == ["b"];
    assert FirstByWord([d]) == [d] && d in [d];
    assert Respelled([d]);
    LearnBucketTwice([], [d]);
  }

  lemma OneBlankRendered()
    ensures RenderIgnore(["b"]) == "(skk-ignore-dic-word \"b\")"
  {
    OneWord();
  }

  lemma TwoBlanksRead()
    ensures ParseField("(skk-ignore-dic-word  \"b\")")
         == Candidate("(skk-ignore-dic-word  \"b\")", None, Some(IgnoreDicWord(["b"])))
  {
    hide SexpScan, ParseForm, SplitHead;
    var text, head := "(skk-ignore-dic-word  \"b\")", "skk-ignore-dic-word ";
    OneWord();
    assert text == "(" + head + RenderWords(["b"]) + ")" + "";
    FormIsDelimited(head, ["b"], "");
    assert text[..|text|] == text && text[|text|..] == "";
    TwoBlanksParsed();
  }

  lemma OneWord()
    ensures RenderWords(["b"]) == " \"b\""
  {
    assert Escape("b") == EscapeChar('b') + Escape("b"[1..]) == "b";
    assert RenderWords(["b"]) == " " + Quote("b") + RenderWords(["b"][1..]);
  }

  lemma HeadOf(inner: string, head: string)
    requires inner != "" && !IsWhitespace(inner[0]) && !IsWhitespace(inner[|inner| - 1])
    ensures SplitHead("(" + inner + ")", head)
         == if head <= inner && (|inner| == |head| || IsAsciiWhitespace(inner[|head|]))
            then Some(TrimStart(inner[|head|..])) else None
  {
    var text := "(" + inner + ")";
    TrimNothing(text);
    TrimNothing(inner);
    assert text[1..|text| - 1] == inner;
  }

  lemma TwoBlanksParsed()
    ensures var text := "(skk-ignore-dic-word  \"b\")";
      ParseForm(text, "skk-ignore-dic-word") == Some(["b"]) && ParseForm(text, "concat") == None
  {
    hide TrimStart, ParseList, SplitHead, RenderWords;
    var inner := "skk-ignore-dic-word  \"b\"";
    HeadOf(inner, "skk-ignore-dic-word");
    HeadOf(inner, "concat");
    assert "(skk-ignore-dic-word  \"b\")" == "(" + inner + ")";
    assert inner[19..] == " " + " \"b\"" && inner[0] == 's' && inner[..19] == "skk-ignore-dic-word";
    BlankTrimmed(" \"b\"");
    OneWord();
    WordsThenIsRender(["b"], "");
    assert " \"b\"" + "" == " \"b\"";
    ParseUndoesRender(["b"]);
  }

  lemma BlankTrimmed(s: string)
    ensures TrimStart(" " + s) == TrimStart(s)
  {
    assert (" " + s)[1..] == s;
  }

  // ── The map as a whole ──────────────────────────────────────────────────────

  lemma {:induction false} OrderWithout(es: seq<Entry>, m: string)
    ensures Order(Filter(es, HeadNot(m))) == Filter(Order(es), Neq(m))
  {
    FilterOrder(es, HeadNot(m), Neq(m));
  }

  lemma SnocDistinct(s: seq<string>, m: string)
    requires Distinct(s)
    ensures Distinct(Filter(s, Neq(m)) + [m])
  {
    var kept := Filter(s, Neq(m));
    FilterDistinct(s, Neq(m));
    assert forall i | 0 <= i < |kept| :: kept[i] in kept && kept[i] != m;
  }

  /** After learning, the headword is the most recent one, its bucket is the learned one, and every
      other headword and bucket keeps its content and place. */
  lemma LearnedMap(es: seq<Entry>, entry: DictEntry, m: string, o: Option<string>)
    requires UniqueHeads(es)
    ensures UniqueHeads(Learned(es, entry))
    ensures Order(Learned(es, entry)) == Filter(Order(es), Neq(entry.midashi)) + [entry.midashi]
    ensures GetBucket(Learned(es, entry), m, o)
         == if m == entry.midashi && o == entry.okuri
            then Some(LearnedBucket(BucketOrEmpty(BucketsOf(es, m), o), entry.candidates))
            else GetBucket(es, m, o)
  {
    var others := Filter(es, HeadNot(entry.midashi));
    OrderWithout(es, entry.midashi);
    var last := Learned(es, entry)[|others|];
    OrderSplit(others, [last]);
    assert Order([last]) == [entry.midashi];
    SnocDistinct(Order(es), entry.midashi);
    GetFiltered(es, HeadNot(entry.midashi), m);
    GetSplit(others, [last], m);
  }

  /** What a second learning of the same entry leaves. */
  lemma LearnedAgain(es: seq<Entry>, entry: DictEntry)
    requires UniqueHeads(es)
    ensures var m, o, b := entry.midashi, entry.okuri, BucketsOf(es, entry.midashi);
      var twice := LearnedBucket(LearnedBucket(BucketOrEmpty(b, o), entry.candidates), entry.candidates);
      Learned(Learned(es, entry), entry) == Filter(es, HeadNot(m)) + [Entry(m, b[o := twice])]
  {
    hide Filter, LearnedBucket, Get;
    var m, o := entry.midashi, entry.okuri;
    var b := BucketsOf(es, m);
    var once := LearnedBucket(BucketOrEmpty(b, o), entry.candidates);
    LastHead(es, Entry(m, b[o := once]));
    var twice := LearnedBucket(once, entry.candidates);
    assert b[o := once][o := twice] == b[o := twice];
  }

  /** A headword put back at the end is found there, and taking it out again gives the others. */
  lemma LastHead(es: seq<Entry>, last: Entry)
    requires UniqueHeads(es)
    ensures var m, others := last.midashi, Filter(es, HeadNot(last.midashi));
      Get(others + [last], m) == Some(last.buckets) && Filter(others + [last], HeadNot(m)) == others
  {
    var m := last.midashi;
    var others := Filter(es, HeadNot(m));
    GetFiltered(es, HeadNot(m), m);
    GetSplit(others, [last], m);
    FilterSnoc(others, last, HeadNot(m));
    FilterAll(others, HeadNot(m));
  }

  /** Learning the same entry again changes the map exactly when an old directive clashes or a new one is
      respelled; the plain entries that the engine learns are never respelled. */
  lemma LearnTwice(es: seq<Entry>, entry: DictEntry)
    requires UniqueHeads(es)
    ensures Learned(Learned(es, entry), entry) == Learned(es, entry)
       <==> !Clash(BucketOrEmpty(BucketsOf(es, entry.midashi), entry.okuri), entry.candidates)
            && !Respelled(entry.candidates)
    ensures AllPlain(entry.candidates) ==> !Respelled(entry.candidates)
  {
    hide LearnedBucket, Clash, Respelled, Filter, Get;
    if AllPlain(entry.candidates) {
      PlainStaysPlain(entry.candidates);
    }
    var m, o := entry.midashi, entry.okuri;
    var b := BucketsOf(es, m);
    var list := BucketOrEmpty(b, o);
    LearnBucketTwice(list, entry.candidates);
    LearnedAgain(es, entry);
    var others := Filter(es, HeadNot(m));
    SameLast(others, Entry(m, b[o := LearnedBucket(list, entry.candidates)]),
             Entry(m, b[o := LearnedBucket(LearnedBucket(list, entry.candidates), entry.candidates)]));
    SameUpdate(b, o, LearnedBucket(list, entry.candidates),
               LearnedBucket(LearnedBucket(list, entry.candidates), entry.candidates));
  }

  lemma SameLast(s: seq<Entry>, a: Entry, b: Entry)
    ensures s + [a] == s + [b] <==> a == b
  {
    assert (s + [a])[|s|] == a && (s + [b])[|s|] == b;
  }

  lemma SameUpdate(b: Buckets, o: Option<string>, x: seq<Candidate>, y: seq<Candidate>)
    ensures b[o := x] == b[o := y] <==> x == y
  {
    assert b[o := x][o] == x && b[o := y][o] == y;
  }

  // ── Reachable dictionaries can be saved ─────────────────────────────────────

  lemma PrunedIsWritable(c: Candidate, learned: set<string>)
    requires Writable(c)
    ensures Writable(Pruned(c, learned))
  {
  }

  /** Learning a writable entry keeps the map storable. */
  lemma LearnKeepsStorable(es: seq<Entry>, entry: DictEntry)
    requires Storable(es) && WritableRow(Row(entry.midashi, entry.okuri, entry.candidates))
    ensures Storable(Learned(es, entry))
  {
    var m, o := entry.midashi, entry.okuri;
    var b := BucketsOf(es, m);
    var list := BucketOrEmpty(b, o);
    LearnedMap(es, entry, m, o);
    if Get(es, m).Some? {
      GetIndex(es, m);
      var i :| 0 <= i < |es| && es[i].midashi == m && Get(es, m) == Some(es[i].buckets);
      assert es[i] in es;
      assert forall k | k in b :: WritableRow(Row(m, k, b[k]));
    }
    FirstByWordWords(entry.candidates);
    forall c | c in LearnedBucket(list, entry.candidates) ensures Writable(c) {
      CleanedElement(Promoted(list, entry.candidates), PlainWords(entry.candidates), c);
      var was :| was in Promoted(list, entry.candidates) && c == Pruned(was, PlainWords(entry.candidates));
      assert Row(m, o, list).candidates == list;
      PrunedIsWritable(was, PlainWords(entry.candidates));
    }
    var last := Entry(m, b[o := LearnedBucket(list, entry.candidates)]);
    forall k | k in last.buckets ensures WritableRow(Row(m, k, last.buckets[k])) {
      if k != o {
        assert k in b;
      }
    }
    assert o in last.buckets;
    forall e | e in Learned(es, entry)
      ensures e.buckets != map[] && forall k | k in e.buckets :: WritableRow(Row(e.midashi, k, e.buckets[k])) {
      assert e in Filter(es, HeadNot(m)) || e == last;
    }
  }

  lemma {:induction false} SetBucketsEffect(es: seq<Entry>, midashi: string, b: Buckets, m: string)
    ensures Order(SetBuckets(es, midashi, b)) == Order(es)
    ensures Get(SetBuckets(es, midashi, b), m)
         == if m == midashi && Get(es, m).Some? then Some(b) else Get(es, m)
    ensures forall e | e in SetBuckets(es, midashi, b) :: e in es || e == Entry(midashi, b)
  {
    if es != [] {
      var r := SetBuckets(es, midashi, b);
      if es[0].midashi == midashi {
        assert r[1..] == es[1..];
        assert es == [es[0]] + es[1..];
      } else {
        SetBucketsEffect(es[1..], midashi, b, m);
        assert r[1..] == SetBuckets(es[1..], midashi, b);
        assert es == [es[0]] + es[1..];
      }
    }
  }

  /** The buckets of the headword that is purged, and the map they go into. */
  lemma PurgedAs(es: seq<Entry>, midashi: string, okuri: Option<string>, word: string, left: Buckets)
    requires GetBucket(es, midashi, okuri).Some?
    requires var kept := Filter(GetBucket(es, midashi, okuri).value, WordNotIn({word}));
      left == if kept == [] then BucketsOf(es, midashi) - {okuri} else BucketsOf(es, midashi)[okuri := kept]
    ensures Purged(es, midashi, okuri, word).0
         == if left == map[] then Filter(es, HeadNot(midashi)) else SetBuckets(es, midashi, left)
  {
  }

  lemma LeftBuckets(es: seq<Entry>, midashi: string, left: Buckets, m: string)
    requires UniqueHeads(es)
    ensures var after := if left == map[] then Filter(es, HeadNot(midashi)) else SetBuckets(es, midashi, left);
      && UniqueHeads(after)
      && (m != midashi ==> Get(after, m) == Get(es, m))
      && (Get(es, midashi).Some? ==> BucketsOf(after, midashi) == left)
  {
    OrderWithout(es, midashi);
    FilterDistinct(Order(es), Neq(midashi));
    GetFiltered(es, HeadNot(midashi), m);
    GetFiltered(es, HeadNot(midashi), midashi);
    SetBucketsEffect(es, midashi, left, m);
    SetBucketsEffect(es, midashi, left, midashi);
  }

  /** Nothing but this word is left under the headword. */
  predicate IsLastWord(es: seq<Entry>, midashi: string, okuri: Option<string>, word: string) {
    && GetBucket(es, midashi, okuri).Some? && BucketsOf(es, midashi).Keys == {okuri}
    && forall c | c in GetBucket(es, midashi, okuri).value :: c.word == word
  }

  lemma LeftNothing(b: Buckets, okuri: Option<string>, word: string)
    requires okuri in b
    ensures var kept := Filter(b[okuri], WordNotIn({word}));
      && (kept == [] <==> forall c | c in b[okuri] :: c.word == word)
      && (b[okuri := kept] != map[])
      && (b - {okuri} == map[] <==> b.Keys == {okuri})
  {
    var kept := Filter(b[okuri], WordNotIn({word}));
    assert okuri in b[okuri := kept];
    assert kept != [] ==> kept[0] in kept;
    if b - {okuri} == map[] {
      assert forall k | k in b :: k == okuri || k in b - {okuri};
    } else {
      var k :| k in b - {okuri};
      assert k in b.Keys;
    }
  }

  /** Purging removes the word from one bucket, drops that bucket when nothing is left in it, and
      leaves every other bucket alone. The headwords keep their order, and one goes with its last word. */
  lemma PurgedMap(es: seq<Entry>, midashi: string, okuri: Option<string>, word: string, m: string, o: Option<string>)
    requires UniqueHeads(es)
    ensures UniqueHeads(Purged(es, midashi, okuri, word).0)
    ensures Order(Purged(es, midashi, okuri, word).0)
         == if IsLastWord(es, midashi, okuri, word) then Filter(Order(es), Neq(midashi)) else Order(es)
    ensures GetBucket(Purged(es, midashi, okuri, word).0, m, o)
         == (if m != midashi || o != okuri || GetBucket(es, m, o).None? then GetBucket(es, m, o)
             else var kept := Filter(GetBucket(es, m, o).value, WordNotIn({word}));
                  if kept == [] then None else Some(kept))
  {
    if GetBucket(es, midashi, okuri).Some? {
      var kept := Filter(GetBucket(es, midashi, okuri).value, WordNotIn({word}));
      var b := BucketsOf(es, midashi);
      var left := if kept == [] then b - {okuri} else b[okuri := kept];
      PurgedAs(es, midashi, okuri, word, left);
      LeftNothing(b, okuri, word);
      OrderWithout(es, midashi);
      SetBucketsEffect(es, midashi, left, m);
      LeftBuckets(es, midashi, left, m);
      var after := Purged(es, midashi, okuri, word).0;
      GetBucketIn(after, m, o);
      GetBucketIn(es, m, o);
    }
  }

  lemma GetBucketIn(es: seq<Entry>, m: string, o: Option<string>)
    ensures GetBucket(es, m, o) == if o in BucketsOf(es, m) then Some(BucketsOf(es, m)[o]) else None
  {
  }

  /** `purge` reports a removal exactly when the bucket held the word. */
  lemma PurgeReports(es: seq<Entry>, midashi: string, okuri: Option<string>, word: string)
    ensures Purged(es, midashi, okuri, word).1
       <==> GetBucket(es, midashi, okuri).Some? && word in Words(GetBucket(es, midashi, okuri).value)
  {
    if GetBucket(es, midashi, okuri).Some? {
      FilterLength(GetBucket(es, midashi, okuri).value, WordNotIn({word}));
    }
  }

  /** A bucket with some candidates taken out can still be written. */
  lemma KeptIsWritable(midashi: string, b: Buckets, okuri: Option<string>, keep: Candidate -> bool, k: Option<string>)
    requires forall k | k in b :: WritableRow(Row(midashi, k, b[k]))
    requires okuri in b && k in b
    ensures WritableRow(Row(midashi, k, b[okuri := Filter(b[okuri], keep)][k]))
  {
    hide Filter, Writable;
    assert WritableRow(Row(midashi, k, b[k]));
  }

  /** Purging keeps a map storable: it never leaves a headword without buckets. */
  lemma PurgeKeepsStorable(es: seq<Entry>, midashi: string, okuri: Option<string>, word: string)
    requires Storable(es)
    ensures Storable(Purged(es, midashi, okuri, word).0)
  {
    hide WritableRow, Filter, SetBuckets, Purged;
    PurgedMap(es, midashi, okuri, word, midashi, okuri);
    if GetBucket(es, midashi, okuri).Some? {
      var keep := WordNotIn({word});
      var b := BucketsOf(es, midashi);
      var kept := Filter(b[okuri], keep);
      var left := if kept == [] then b - {okuri} else b[okuri := kept];
      PurgedAs(es, midashi, okuri, word, left);
      SetBucketsEffect(es, midashi, left, midashi);
      GetIndex(es, midashi);
      forall k | k in left ensures WritableRow(Row(midashi, k, left[k])) {
        KeptIsWritable(midashi, b, okuri, keep, k);
      }
    } else {
      PurgedNothing(es, midashi, okuri, word);
    }
  }

  lemma PurgedNothing(es: seq<Entry>, midashi: string, okuri: Option<string>, word: string)
    requires GetBucket(es, midashi, okuri).None?
    ensures Purged(es, midashi, okuri, word).0 == es
  {
  }

  lemma {:induction false} FilterLength(cs: seq<Candidate>, keep: Candidate -> bool)
    ensures |Filter(cs, keep)| == |cs| <==> forall c | c in cs :: keep(c)
  {
    if cs != [] {
      FilterLength(cs[1..], keep);
      assert cs == [cs[0]] + cs[1..];
    }
  }

  // ── Recency across a save ───────────────────────────────────────────────────

  ghost predicate Ordered(s: seq<Entry>, c: Entry -> bool, a: Entry -> bool) {
    forall i, j | 0 <= i < j < |s| :: !(c(s[i]) && !a(s[i]) && c(s[j]) && a(s[j]))
  }

  function Not(a: Entry -> bool): Entry -> bool {
    (e: Entry) => !a(e)
  }

  lemma OrderedTail(s: seq<Entry>, c: Entry -> bool, a: Entry -> bool)
    requires s != []
    ensures Ordered(s, c, a)
       <==> Ordered(s[1..], c, a) && (c(s[0]) && !a(s[0]) ==> forall e | e in s[1..] :: !(c(e) && a(e)))
  {
    var t := s[1..];
    assert forall j | 0 <= j < |t| :: s[j + 1] == t[j];
    if Ordered(s, c, a) {
      forall e | e in t ensures c(s[0]) && !a(s[0]) ==> !(c(e) && a(e)) {
        var j :| 0 <= j < |t| && t[j] == e;
        assert s[j + 1] == e;
      }
    } else if Ordered(t, c, a) {
      var i, j :| 0 <= i < j < |s| && c(s[i]) && !a(s[i]) && c(s[j]) && a(s[j]);
      assert t[j - 1] in t;
    }
  }

  lemma PartitionFront(x: Entry, f: seq<Entry>, fa: seq<Entry>, fn: seq<Entry>)
    ensures [x] + f == ([x] + fa) + fn <==> f == fa + fn
  {
    assert ([x] + f)[1..] == f && (([x] + fa) + fn)[1..] == fa + fn;
  }

  lemma PartitionMiddle(x: Entry, f: seq<Entry>, fa: seq<Entry>, fn: seq<Entry>)
    requires x !in fa
    ensures [x] + f == fa + ([x] + fn) <==> fa == [] && f == fn
  {
    if fa == [] {
      assert (fa + ([x] + fn))[1..] == fn && ([x] + f)[1..] == f;
    } else {
      assert (fa + ([x] + fn))[0] == fa[0] && ([x] + f)[0] == x && fa[0] in fa;
    }
  }

  /** Moving the `a` entries in front leaves the `c` entries in order exactly when they are there. */
  lemma {:induction false} PartitionKeepsOrder(s: seq<Entry>, c: Entry -> bool, a: Entry -> bool)
    ensures Filter(s, c) == Filter(s, And(a, c)) + Filter(s, And(Not(a), c)) <==> Ordered(s, c, a)
  {
    if s != [] {
      var x, t := s[0], s[1..];
      PartitionKeepsOrder(t, c, a);
      OrderedTail(s, c, a);
      PartitionStep(s, c, a);
    }
  }

  lemma PartitionStep(s: seq<Entry>, c: Entry -> bool, a: Entry -> bool)
    requires s != []
    ensures var t := s[1..];
      Filter(s, c) == Filter(s, And(a, c)) + Filter(s, And(Not(a), c))
      <==> Filter(t, c) == Filter(t, And(a, c)) + Filter(t, And(Not(a), c))
           && (c(s[0]) && !a(s[0]) ==> forall e | e in t :: !(c(e) && a(e)))
  {
    var x, t := s[0], s[1..];
    FilterCons(s, c);
    FilterCons(s, And(a, c));
    FilterCons(s, And(Not(a), c));
    if c(x) && a(x) {
      PartitionFront(x, Filter(t, c), Filter(t, And(a, c)), Filter(t, And(Not(a), c)));
    } else if c(x) {
      PartitionBehind(x, t, c, a);
    }
  }

  lemma PartitionBehind(x: Entry, t: seq<Entry>, c: Entry -> bool, a: Entry -> bool)
    requires c(x) && !a(x)
    ensures var f, fa, fn := Filter(t, c), Filter(t, And(a, c)), Filter(t, And(Not(a), c));
      [x] + f == fa + ([x] + fn) <==> f == fa + fn && forall e | e in t :: !(c(e) && a(e))
  {
    var f, fa, fn := Filter(t, c), Filter(t, And(a, c)), Filter(t, And(Not(a), c));
    assert x in fa ==> And(a, c)(x);
    PartitionMiddle(x, f, fa, fn);
    if fa == [] {
      forall e | e in t ensures !(c(e) && a(e)) {
        assert And(a, c)(e) ==> e in fa;
      }
      assert fa + fn == fn;
    } else {
      assert fa[0] in fa && And(a, c)(fa[0]);
    }
  }

  lemma {:induction false} CompletesNormal(es: seq<Entry>, prefix: string)
    ensures Order(Filter(NormalEntries(es), Completes(prefix))) == Order(Filter(es, Completes(prefix)))
  {
    if es != [] {
      var n := NormalEntries(es);
      assert n[1..] == NormalEntries(es[1..]);
      CompletesNormal(es[1..], prefix);
      OrderSplit(if Completes(prefix)(es[0]) then [es[0]] else [], Filter(es[1..], Completes(prefix)));
      OrderSplit(if Completes(prefix)(n[0]) then [n[0]] else [], Filter(n[1..], Completes(prefix)));
    }
  }

  lemma ReversedInjective<T>(a: seq<T>, b: seq<T>)
    ensures Reversed(a) == Reversed(b) <==> a == b
  {
    if Reversed(a) == Reversed(b) {
      assert |Reversed(a)| == |Reversed(b)|;
      forall i | 0 <= i < |a| ensures a[i] == b[i] {
        assert Reversed(a)[|a| - 1 - i] == Reversed(b)[|a| - 1 - i];
      }
    }
  }

  lemma OrderInjective(es: seq<Entry>, a: seq<Entry>, b: seq<Entry>)
    requires UniqueHeads(es) && Order(a) == Order(b)
    requires (forall e | e in a :: e in es) && (forall e | e in b :: e in es)
    ensures a == b
  {
    assert |Order(a)| == |Order(b)|;
    forall i | 0 <= i < |a| ensures a[i] == b[i] {
      assert Order(a)[i] == Order(b)[i] && a[i] in a && b[i] in b;
      SameHead(es, a[i], b[i]);
    }
  }

  /** Completion after a reload, for one prefix. */
  lemma CompleteReloaded(es: seq<Entry>, prefix: string)
    requires UniqueHeads(es)
    ensures Complete(Reloaded(es), prefix) == Complete(es, prefix)
       <==> Ordered(es, Completes(prefix), EntryWith(IsAri()))
  {
    var c, a := Completes(prefix), EntryWith(IsAri());
    var x, y := Filter(es, a), Filter(es, EntryWithout(IsAri()));
    FilterSame(es, And(Not(a), c), And(EntryWithout(IsAri()), c));
    FilterTwice(es, a, c);
    FilterTwice(es, EntryWithout(IsAri()), c);
    CompletesNormal(x + y, prefix);
    FilterSplit(x, y, c);
    PartitionKeepsOrder(es, c, a);
    var reloaded := Filter(x, c) + Filter(y, c);
    ReversedInjective(Order(reloaded), Order(Filter(es, c)));
    if Order(reloaded) == Order(Filter(es, c)) {
      OrderInjective(es, reloaded, Filter(es, c));
    }
  }

  /** No headword without okurigana buckets is older than one that has both kinds. */
  ghost predicate MixedFirst(es: seq<Entry>) {
    forall i, j | 0 <= i < j < |es| ::
      None in es[i].buckets && None in es[j].buckets && EntryWith(IsAri())(es[j]) ==> EntryWith(IsAri())(es[i])
  }

  /** Main result: a save keeps every completion list exactly when the mixed headwords come first. */
  lemma RecencySurvivesSave(es: seq<Entry>, text: string)
    requires Storable(es) && IsSaved(es, text)
    ensures ParseText(text).Ok?
    ensures (forall prefix :: Complete(ParseText(text).value, prefix) == Complete(es, prefix)) <==> MixedFirst(es)
  {
    SaveLoadRoundTrip(es, text);
    if MixedFirst(es) {
      forall prefix ensures Complete(Reloaded(es), prefix) == Complete(es, prefix) {
        CompleteReloaded(es, prefix);
      }
    } else {
      var i, j :| 0 <= i < j < |es| && None in es[i].buckets && None in es[j].buckets
        && EntryWith(IsAri())(es[j]) && !EntryWith(IsAri())(es[i]);
      assert es[i] in es && es[j] in es;
      assert WritableRow(Row(es[i].midashi, None, es[i].buckets[None]));
      assert WritableRow(Row(es[j].midashi, None, es[j].buckets[None]));
      assert Completes("")(es[i]) && Completes("")(es[j]);
      CompleteReloaded(es, "");
      assert Complete(Reloaded(es), "") != Complete(es, "");
    }
  }

  /** In particular it does when no headword has both kinds of bucket. */
  lemma UnmixedIsMixedFirst(es: seq<Entry>)
    requires forall e | e in es :: !(None in e.buckets && EntryWith(IsAri())(e))
    ensures MixedFirst(es)
  {
    assert forall j | 0 <= j < |es| :: es[j] in es;
  }

  /** A save that loses recency: an older headword without okurigana, then one with both kinds of bucket. */
  lemma RecencyExample() returns (text: string)
    ensures var x := [Candidate("x", None, None)];
      var es := [Entry("か", map[None := x]), Entry("き", map[None := x, Some("k") := x])];
      && Storable(es) && IsSaved(es, text) && ParseText(text).Ok?
      && exists prefix :: Complete(ParseText(text).value, prefix) != Complete(es, prefix)
  {
    var x := [Candidate("x", None, None)];
    var es := [Entry("か", map[None := x]), Entry("き", map[None := x, Some("k") := x])];
    var enums := [[None], [None, Some("k")]];
    hide IsSaved, Rows, TextOf, Complete, Storable, MixedFirst, ParseText, SavedText;
    assert Enumerates(es, enums) by { ExampleIsEnumerated(x); }
    text := SavedText(es, enums);
    SavedByEnumeration(es, enums);
    ExampleIsStorable(x);
    ExampleIsNotMixedFirst(x);
    RecencySurvivesSave(es, text);
  }

  lemma ExampleIsEnumerated(x: seq<Candidate>)
    ensures Enumerates([Entry("か", map[None := x]), Entry("き", map[None := x, Some("k") := x])],
                       [[None], [None, Some("k")]])
  {
    assert Enumeration([None], map[None := x]) && Enumeration([None, Some("k")], map[None := x, Some("k") := x]);
  }

  lemma ExampleIsNotMixedFirst(x: seq<Candidate>)
    ensures !MixedFirst([Entry("か", map[None := x]), Entry("き", map[None := x, Some("k") := x])])
  {
    var es := [Entry("か", map[None := x]), Entry("き", map[None := x, Some("k") := x])];
    assert Some("k") in es[1].buckets && IsAri()(Some("k"));
    assert None in es[0].buckets && None in es[1].buckets;
    assert EntryWith(IsAri())(es[1]) && !EntryWith(IsAri())(es[0]);
  }

  lemma SavedByEnumeration(es: seq<Entry>, enums: seq<seq<Option<string>>>)
    requires Enumerates(es, enums)
    ensures IsSaved(es, SavedText(es, enums))
  {
  }

  lemma ExampleIsStorable(x: seq<Candidate>)
    requires x == [Candidate("x", None, None)]
    ensures Storable([Entry("か", map[None := x]), Entry("き", map[None := x, Some("k") := x])])
  {
    var es := [Entry("か", map[None := x]), Entry("き", map[None := x, Some("k") := x])];
    assert Order(es) == ["か", "き"];
    assert Writable(x[0]);
    assert None in es[0].buckets && None in es[1].buckets;
    assert WritableRow(Row("か", None, x)) && WritableRow(Row("き", None, x));
    assert WritableRow(Row("き", Some("k"), x)) by { assert !IsAscii("き") by { assert "き"[0] >= '\U{0080}'; } }
  }

  // ── A learned entry across a save ───────────────────────────────────────────

  /** Main result for every dictionary that can be saved and one more entry, with the one plain candidate that the
      engine learns: the saved file is read back as it should exactly when the headword can stand in front of its fields,
      the word is not empty, and the annotation is not read as a form. */
  lemma LearnedEntrySurvives(es: seq<Entry>, midashi: string, okuri: Option<string>, c: Candidate, text: string)
    requires Storable(es) && c.lispForm.None?
    requires IsSaved(Learned(es, DictEntry(midashi, okuri, [c])), text)
    ensures ParseText(text) == Ok(Reloaded(Learned(es, DictEntry(midashi, okuri, [c]))))
       <==> WritableHead(midashi, okuri) && '\n' !in midashi
            && c.word != "" && (c.annotation.Some? ==> !BareConcat(c.annotation.value))
  {
    hide *;
    var entry := DictEntry(midashi, okuri, [c]);
    PlainIsWritable(midashi, okuri, c);
    if WritableRow(Row(midashi, okuri, [c])) {
      LearnKeepsStorable(es, entry);
      SaveLoadRoundTrip(Learned(es, entry), text);
    }
    if ParseText(text) == Ok(Reloaded(Learned(es, entry))) {
      SurvivorIsWritable(es, midashi, okuri, c, text);
    }
  }

  lemma PlainIsWritable(midashi: string, okuri: Option<string>, c: Candidate)
    requires c.lispForm.None?
    ensures WritableRow(Row(midashi, okuri, [c]))
       <==> WritableHead(midashi, okuri) && '\n' !in midashi
            && c.word != "" && (c.annotation.Some? ==> !BareConcat(c.annotation.value))
  {
    hide WritableHead, BareConcat;
    assert c in [c];
  }

  /** A learned plain candidate is in its bucket as it is. */
  lemma LearnedIsThere(list: seq<Candidate>, c: Candidate)
    requires c.lispForm.None?
    ensures c in LearnedBucket(list, [c])
    ensures forall x | x in LearnedBucket(list, [c]) ::
              x == c || exists was :: was in list && x == Pruned(was, PlainWords([c]))
  {
    assert [c][1..] == [] && FirstByWord([c]) == [c] + Filter(FirstByWord([]), WordNotIn({c.word})) == [c];
    assert c in Promoted(list, [c]) && Pruned(c, PlainWords([c])) == c;
    CleanedHas(Promoted(list, [c]), PlainWords([c]), c);
    forall x | x in LearnedBucket(list, [c])
      ensures x == c || exists was :: was in list && x == Pruned(was, PlainWords([c]))
    {
      CleanedElement(Promoted(list, [c]), PlainWords([c]), x);
    }
  }

  /** The other rows of the dictionary can be written. */
  lemma OtherRowsAreWritable(es: seq<Entry>, entry: DictEntry, e: Entry, k: Option<string>)
    requires Storable(es) && e in Learned(es, entry) && k in e.buckets && (e.midashi != entry.midashi || k != entry.okuri)
    ensures WritableRow(Row(e.midashi, k, e.buckets[k]))
  {
    hide WritableRow, LearnedBucket;
    var b := BucketsOf(es, entry.midashi);
    if e.midashi == entry.midashi {
      forall x | x in Filter(es, HeadNot(entry.midashi)) ensures x.midashi != entry.midashi {
        assert HeadNot(entry.midashi)(x);
      }
      assert e.buckets[k] == b[k] && k in b;
      GetIndex(es, entry.midashi);
      var i :| 0 <= i < |es| && es[i].midashi == entry.midashi && Get(es, entry.midashi) == Some(es[i].buckets);
      assert es[i] in es;
    } else {
      assert e in es;
    }
  }

  /** The line of the learned row stays one line. */
  lemma LearnedRowIsOneLine(es: seq<Entry>, midashi: string, okuri: Option<string>, c: Candidate)
    requires Storable(es) && c.lispForm.None? && '\n' !in midashi && Recoverable(midashi, okuri)
    ensures var bucket := LearnedBucket(BucketOrEmpty(BucketsOf(es, midashi), okuri), [c]);
      '\n' !in RenderRow(Row(midashi, okuri, bucket))
  {
    var b := BucketsOf(es, midashi);
    var list := BucketOrEmpty(b, okuri);
    var bucket := LearnedBucket(list, [c]);
    LearnedIsThere(list, c);
    forall x | x in bucket ensures StaysInLine(x) {
      if x != c {
        var was :| was in list && x == Pruned(was, PlainWords([c]));
        OldCandidateWritable(es, midashi, okuri, was);
        PrunedStaysInLine(was, PlainWords([c]));
      }
    }
    hide LearnedBucket, StaysInLine, RenderAll, Join;
    RowStaysInLine(Row(midashi, okuri, bucket));
  }

  lemma PrunedStaysInLine(c: Candidate, words: set<string>)
    requires StaysInLine(c)
    ensures StaysInLine(Pruned(c, words))
  {
  }

  lemma OldCandidateWritable(es: seq<Entry>, midashi: string, okuri: Option<string>, c: Candidate)
    requires Storable(es) && c in BucketOrEmpty(BucketsOf(es, midashi), okuri)
    ensures StaysInLine(c)
  {
    GetIndex(es, midashi);
    var i :| 0 <= i < |es| && es[i].midashi == midashi && Get(es, midashi) == Some(es[i].buckets);
    assert es[i] in es && WritableRow(Row(midashi, okuri, es[i].buckets[okuri]));
    assert Writable(c);
  }

  /** Reading back finds the headword, so it is one that can be found. */
  lemma ReadBackHead(es: seq<Entry>, midashi: string, okuri: Option<string>, text: string)
    requires UniqueHeads(es) && GetBucket(es, midashi, okuri).Some? && ParseText(text) == Ok(Reloaded(es))
    ensures '\n' !in midashi && Recoverable(midashi, okuri)
  {
    hide Reloaded, ParseText, Recoverable, FindSeparator, IsWhitespace;
    ReadingYieldsReadHeads(text);
    ReloadedBuckets(es, midashi, okuri);
    GetIndex(Reloaded(es), midashi);
    var i :| 0 <= i < |Reloaded(es)| && Reloaded(es)[i].midashi == midashi
             && Get(Reloaded(es), midashi) == Some(Reloaded(es)[i].buckets);
    assert Reloaded(es)[i] in Reloaded(es);
  }

  lemma SurvivorIsWritable(es: seq<Entry>, midashi: string, okuri: Option<string>, c: Candidate, text: string)
    requires Storable(es) && c.lispForm.None?
    requires IsSaved(Learned(es, DictEntry(midashi, okuri, [c])), text)
    requires ParseText(text) == Ok(Reloaded(Learned(es, DictEntry(midashi, okuri, [c]))))
    ensures WritableRow(Row(midashi, okuri, [c]))
  {
    hide Learned, Reloaded, ParseText, IsSaved, LearnedBucket, RenderRow, ParseLine, WritableRow, Recoverable, Get;
    var entry := DictEntry(midashi, okuri, [c]);
    var es' := Learned(es, entry);
    var list := BucketOrEmpty(BucketsOf(es, midashi), okuri);
    var r := Row(midashi, okuri, LearnedBucket(list, [c]));
    LearnedMap(es, entry, midashi, okuri);
    ReadBackHead(es', midashi, okuri, text);
    LearnedRowIsOneLine(es, midashi, okuri, c);
    forall e, k | e in es' && k in e.buckets
      ensures (e.midashi == midashi && k == okuri) || WritableRow(Row(e.midashi, k, e.buckets[k]))
    {
      if e.midashi != midashi || k != okuri {
        OtherRowsAreWritable(es, entry, e, k);
      }
    }
    SavedRow(es', r, text);
    ReloadedBuckets(es', midashi, okuri);
    RowRoundTrip(r);
    LearnedIsThere(list, c);
    assert ParseLine(RenderRow(r)) == Parsed(Row(midashi, okuri, NormalAll(r.candidates)));
    SafePlainIsWritable(midashi, okuri, c);
  }

  lemma SafePlainIsWritable(midashi: string, okuri: Option<string>, c: Candidate)
    requires WritableHead(midashi, okuri) && '\n' !in midashi && c.lispForm.None? && FieldSafe(c) && Survives(c)
    ensures WritableRow(Row(midashi, okuri, [c]))
  {
  }
}
