/** Saving the user dictionary and what reading the saved text gives back. */
module DictSave {
  import opened Text
  import opened Dict
  import opened DictFormat

  // ── What is written ─────────────────────────────────────────────────────────

  /** The buckets of a headword sit in a hash map, so any order of their keys may come up. */
  ghost predicate Enumeration(keys: seq<Option<string>>, buckets: Buckets) {
    Distinct(keys) && forall k :: k in keys <==> k in buckets
  }

  ghost predicate Enumerates(es: seq<Entry>, enums: seq<seq<Option<string>>>) {
    |es| == |enums| && forall i | 0 <= i < |es| :: Enumeration(enums[i], es[i].buckets)
  }

  function RowsFor(e: Entry, keys: seq<Option<string>>): (r: seq<Row>)
    requires forall k | k in keys :: k in e.buckets
    ensures |r| == |keys|
    ensures forall i | 0 <= i < |keys| :: r[i] == Row(e.midashi, keys[i], e.buckets[keys[i]])
  {
    if keys == [] then [] else [Row(e.midashi, keys[0], e.buckets[keys[0]])] + RowsFor(e, keys[1..])
  }

  ghost function Rows(es: seq<Entry>, enums: seq<seq<Option<string>>>): seq<Row>
    requires Enumerates(es, enums)
  {
    if es == [] then [] else RowsFor(es[0], enums[0]) + Rows(es[1..], enums[1..])
  }

  function IsAri(): Option<string> -> bool { (k: Option<string>) => k.Some? }
  function IsNasi(): Option<string> -> bool { (k: Option<string>) => k.None? }

  /** The rows, and the headwords, with a key of the wanted kind. */
  function RowWith(p: Option<string> -> bool): Row -> bool {
    (r: Row) => p(r.okuri)
  }

  function EntryWith(p: Option<string> -> bool): Entry -> bool {
    (e: Entry) => exists k | k in e.buckets :: p(k)
  }

  function EntryWithout(p: Option<string> -> bool): Entry -> bool {
    (e: Entry) => !exists k | k in e.buckets :: p(k)
  }

  function RenderRows(rows: seq<Row>): (r: seq<string>)
    ensures |r| == |rows|
    ensures forall i | 0 <= i < |rows| :: r[i] == RenderRow(rows[i])
  {
    if rows == [] then [] else [RenderRow(rows[0])] + RenderRows(rows[1..])
  }

  ghost function SavedText(es: seq<Entry>, enums: seq<seq<Option<string>>>): string
    requires Enumerates(es, enums)
  {
    var rows := Rows(es, enums);
    TextOf(RenderRows(Filter(rows, RowWith(IsAri()))), RenderRows(Filter(rows, RowWith(IsNasi()))))
  }

  ghost predicate IsSaved(es: seq<Entry>, text: string) {
    exists enums :: Enumerates(es, enums) && text == SavedText(es, enums)
  }

  lemma RowsCons(e: Entry, keys: seq<Option<string>>, es: seq<Entry>, enums: seq<seq<Option<string>>>)
    requires Enumeration(keys, e.buckets) && Enumerates(es, enums)
    ensures Enumerates([e] + es, [keys] + enums)
    ensures Rows([e] + es, [keys] + enums) == RowsFor(e, keys) + Rows(es, enums)
  {
    hide Enumeration, RowsFor;
    assert ([e] + es)[1..] == es && ([keys] + enums)[1..] == enums;
  }

  lemma {:induction false} RowsSnoc(es: seq<Entry>, enums: seq<seq<Option<string>>>, e: Entry, keys: seq<Option<string>>)
    requires Enumerates(es, enums) && Enumeration(keys, e.buckets)
    ensures Enumerates(es + [e], enums + [keys])
    ensures Rows(es + [e], enums + [keys]) == Rows(es, enums) + RowsFor(e, keys)
  {
    hide Rows, RowsFor;
    if es == [] {
      RowsCons(e, keys, [], []);
      NothingWritten();
      assert [] + [e] == [e] + [] && [] + [keys] == [keys] + [];
      assert [] + RowsFor(e, keys) == RowsFor(e, keys) + [];
    } else {
      RowsSnoc(es[1..], enums[1..], e, keys);
      RowsCons(es[0], enums[0], es[1..], enums[1..]);
      RowsCons(es[0], enums[0], es[1..] + [e], enums[1..] + [keys]);
      assert es == [es[0]] + es[1..] && enums == [enums[0]] + enums[1..];
      assert es + [e] == [es[0]] + (es[1..] + [e]) && enums + [keys] == [enums[0]] + (enums[1..] + [keys]);
    }
  }

  lemma RowsForSnoc(e: Entry, keys: seq<Option<string>>, k: Option<string>)
    requires k in e.buckets && forall x | x in keys :: x in e.buckets
    ensures RowsFor(e, keys + [k]) == RowsFor(e, keys) + [Row(e.midashi, k, e.buckets[k])]
  {
  }

  /** Sorts one row into its section. */
  lemma SectionSnoc(rows: seq<Row>, r: Row, p: Option<string> -> bool)
    ensures RenderRows(Filter(rows + [r], RowWith(p)))
         == RenderRows(Filter(rows, RowWith(p))) + (if p(r.okuri) then [RenderRow(r)] else [])
  {
    FilterSplit(rows, [r], RowWith(p));
    assert Filter([r], RowWith(p)) == if p(r.okuri) then [r] else [];
  }

  /** The two sections hold the lines of `rows`, each in its own. */
  ghost predicate Sections(ari: seq<string>, nasi: seq<string>, rows: seq<Row>) {
    && ari == RenderRows(Filter(rows, RowWith(IsAri())))
    && nasi == RenderRows(Filter(rows, RowWith(IsNasi())))
  }

  lemma SectionsSnoc(ari: seq<string>, nasi: seq<string>, rows: seq<Row>, r: Row)
    requires Sections(ari, nasi, rows)
    ensures r.okuri.Some? ==> Sections(ari + [RenderRow(r)], nasi, rows + [r])
    ensures r.okuri.None? ==> Sections(ari, nasi + [RenderRow(r)], rows + [r])
  {
    SectionSnoc(rows, r, IsAri());
    SectionSnoc(rows, r, IsNasi());
    assert ari + [] == ari && nasi + [] == nasi;
  }

  /** The keys written so far and the keys left are the keys of the bucket map. */
  ghost predicate Progress(keys: seq<Option<string>>, left: set<Option<string>>, buckets: Buckets) {
    Distinct(keys) && left <= buckets.Keys && forall k :: k in keys <==> k in buckets && k !in left
  }

  lemma ProgressStep(keys: seq<Option<string>>, left: set<Option<string>>, buckets: Buckets, k: Option<string>)
    requires Progress(keys, left, buckets) && k in left
    ensures Progress(keys + [k], left - {k}, buckets)
  {
  }

  lemma RowsStep(before: seq<Row>, e: Entry, keys: seq<Option<string>>, k: Option<string>)
    requires k in e.buckets && forall x | x in keys :: x in e.buckets
    ensures before + RowsFor(e, keys + [k]) == (before + RowsFor(e, keys)) + [Row(e.midashi, k, e.buckets[k])]
  {
    RowsForSnoc(e, keys, k);
  }

  /** The inner loop: the buckets of one headword, in whatever order the hash map yields them. */
  method WriteHeadword(e: Entry, okuriAri: seq<string>, okuriNasi: seq<string>, ghost before: seq<Row>)
    returns (ari: seq<string>, nasi: seq<string>, ghost keys: seq<Option<string>>)
    requires Sections(okuriAri, okuriNasi, before)
    ensures Enumeration(keys, e.buckets) && Sections(ari, nasi, before + RowsFor(e, keys))
  {
    ari, nasi, keys := okuriAri, okuriNasi, [];
    assert before + RowsFor(e, keys) == before;
    var left := e.buckets.Keys;
    while left != {}
      invariant Progress(keys, left, e.buckets) && Sections(ari, nasi, before + RowsFor(e, keys))
      decreases left
    {
      var okuri :| okuri in left;
      var row := Row(e.midashi, okuri, e.buckets[okuri]);
      SectionsSnoc(ari, nasi, before + RowsFor(e, keys), row);
      RowsStep(before, e, keys, okuri);
      ProgressStep(keys, left, e.buckets, okuri);
      if okuri.Some? {
        ari := ari + [RenderRow(row)];
      } else {
        nasi := nasi + [RenderRow(row)];
      }
      keys, left := keys + [okuri], left - {okuri};
    }
  }

  lemma SectionsSaved(ari: seq<string>, nasi: seq<string>, es: seq<Entry>, enums: seq<seq<Option<string>>>)
    requires Enumerates(es, enums) && Sections(ari, nasi, Rows(es, enums))
    ensures IsSaved(es, TextOf(ari, nasi))
  {
    hide TextOf, Rows;
    assert TextOf(ari, nasi) == SavedText(es, enums);
  }

  lemma NothingWritten()
    ensures Enumerates([], []) && Rows([], []) == [] && Sections([], [], [])
  {
  }

  /** `serialize_user_dict`: headwords oldest first, okurigana entries in their own section. */
  method SerializeUserDict(es: seq<Entry>) returns (text: string)
    ensures IsSaved(es, text)
  {
    hide Rows, RowsFor, RenderRows, Sections, Enumeration, TextOf;
    var okuriAri: seq<string> := [];
    var okuriNasi: seq<string> := [];
    ghost var enums: seq<seq<Option<string>>> := [];
    var i := 0;
    NothingWritten();
    assert es[..0] == [];
    while i < |es|
      invariant 0 <= i <= |es|
      invariant Enumerates(es[..i], enums) && Sections(okuriAri, okuriNasi, Rows(es[..i], enums))
    {
      var e := es[i];
      ghost var keys;
      ghost var rows := Rows(es[..i], enums);
      okuriAri, okuriNasi, keys := WriteHeadword(e, okuriAri, okuriNasi, rows);
      RowsSnoc(es[..i], enums, e, keys);
      assert es[..i] + [e] == es[..i + 1];
      enums := enums + [keys];
      i := i + 1;
    }
    assert es[..i] == es;
    text := TextOf(okuriAri, okuriNasi);
    SectionsSaved(okuriAri, okuriNasi, es, enums);
  }

  // ── Reading rows back ───────────────────────────────────────────────────────

  function Built(rows: seq<Row>, acc: seq<Entry>): seq<Entry>
    decreases |rows|
  {
    if rows == [] then acc
    else Built(rows[1..], AddTo(acc, rows[0].midashi, rows[0].okuri, NormalAll(rows[0].candidates)))
  }

  lemma WritableIsRead(r: Row)
    requires WritableRow(r)
    ensures ParseLine(RenderRow(r)) == Parsed(Row(r.midashi, r.okuri, NormalAll(r.candidates)))
  {
    hide ParseLine, RenderRow, NormalAll, FieldSafe, Survives;
    RowRoundTrip(r);
    assert forall c | c in r.candidates :: Writable(c);
  }

  lemma {:induction false} ParseRows(rows: seq<Row>, number: nat, acc: seq<Entry>)
    requires forall r | r in rows :: WritableRow(r)
    ensures ParseLines(RenderRows(rows), number, acc) == Ok(Built(rows, acc))
    decreases |rows|
  {
    hide RenderRow, WritableRow, ParseLine, NormalAll, AddTo;
    if rows != [] {
      WritableIsRead(rows[0]);
      assert RenderRows(rows)[0] == RenderRow(rows[0]) && RenderRows(rows)[1..] == RenderRows(rows[1..]);
      ParseRows(rows[1..], number + 1, AddTo(acc, rows[0].midashi, rows[0].okuri, NormalAll(rows[0].candidates)));
    }
  }

  lemma {:induction false} ParseLinesSplit(a: seq<string>, b: seq<string>, number: nat, es: seq<Entry>)
    ensures ParseLines(a + b, number, es)
         == match ParseLines(a, number, es) { case Err(e) => Err(e) case Ok(next) => ParseLines(b, number + |a|, next) }
    decreases |a|
  {
    if a == [] {
      assert a + b == b;
    } else {
      assert (a + b)[1..] == a[1..] + b;
      match ParseStep(es, a[0], number) {
        case Err(_) =>
        case Ok(next) => ParseLinesSplit(a[1..], b, number + 1, next);
      }
    }
  }

  lemma {:induction false} BuiltSplit(a: seq<Row>, b: seq<Row>, acc: seq<Entry>)
    ensures Built(a + b, acc) == Built(b, Built(a, acc))
    decreases |a|
  {
    if a == [] {
      assert a + b == b;
    } else {
      assert (a + b)[1..] == a[1..] + b;
      BuiltSplit(a[1..], b, AddTo(acc, a[0].midashi, a[0].okuri, NormalAll(a[0].candidates)));
    }
  }

  /** A section of rows, or the blank line that stands for an empty one. */
  lemma ParseSection(rows: seq<Row>, number: nat, acc: seq<Entry>)
    requires forall r | r in rows :: WritableRow(r)
    ensures ParseLines(OrBlank(RenderRows(rows)), number, acc) == Ok(Built(rows, acc))
  {
    if rows == [] {
      assert ParseLines([""][1..], number + 1, acc) == Ok(acc);
    } else {
      ParseRows(rows, number, acc);
    }
  }

  lemma ParseComment(line: string, rest: seq<string>, number: nat, acc: seq<Entry>)
    requires line != "" && line[0] == ';'
    ensures ParseLines([line] + rest, number, acc) == ParseLines(rest, number + 1, acc)
  {
    assert ([line] + rest)[1..] == rest;
  }

  lemma RowsAreLines(rows: seq<Row>)
    requires forall r | r in rows :: WritableRow(r)
    ensures forall x | x in RenderRows(rows) :: IsLine(x)
  {
    var lines := RenderRows(rows);
    forall i | 0 <= i < |rows| ensures IsLine(lines[i]) {
      assert rows[i] in rows;
      RowIsOneLine(rows[i]);
    }
  }

  predicate IsHeader(h: string) {
    h != "" && h[0] == ';' && IsLine(h)
  }

  lemma Headers()
    ensures IsHeader(HEADER) && IsHeader(OKURI_ARI) && IsHeader(OKURI_NASI)
  {
  }

  /** Sections are read one after the other into the same map. */
  lemma ParseLayout(h1: string, h2: string, ari: seq<Row>, h3: string, nasi: seq<Row>)
    requires IsHeader(h1) && IsHeader(h2) && IsHeader(h3)
    requires forall r | r in ari :: WritableRow(r)
    requires forall r | r in nasi :: WritableRow(r)
    ensures ParseText(Layout(h1, h2, RenderRows(ari), h3, RenderRows(nasi))) == Ok(Built(ari + nasi, []))
  {
    var a, n := OrBlank(RenderRows(ari)), OrBlank(RenderRows(nasi));
    RowsAreLines(ari);
    RowsAreLines(nasi);
    LinesOfLayout(h1, h2, RenderRows(ari), h3, RenderRows(nasi));
    ParseSection(ari, 3, []);
    ParseSection(nasi, 4 + |a|, Built(ari, []));
    ParseChain(h1, h2, a, h3, n, Built(ari, []), Built(nasi, Built(ari, [])));
    BuiltSplit(ari, nasi, []);
  }

  lemma ParseChain(h1: string, h2: string, a: seq<string>, h3: string, n: seq<string>, mid: seq<Entry>, end: seq<Entry>)
    requires IsHeader(h1) && IsHeader(h2) && IsHeader(h3)
    requires ParseLines(a, 3, []) == Ok(mid) && ParseLines(n, 4 + |a|, mid) == Ok(end)
    ensures ParseLines([h1] + ([h2] + (a + ([h3] + n))), 1, []) == Ok(end)
  {
    ParseComment(h3, n, 3 + |a|, mid);
    ParseLinesSplit(a, [h3] + n, 3, []);
    ParseComment(h2, a + ([h3] + n), 2, []);
    ParseComment(h1, [h2] + (a + ([h3] + n)), 1, []);
  }

  // ── What any file can hold ──────────────────────────────────────────────────

  lemma {:induction false} LinesHoldNoNewline(text: string)
    ensures forall x | x in Lines(text) :: '\n' !in x
    decreases |text|
  {
    if text != "" && Find(text, '\n').Some? {
      LinesHoldNoNewline(text[Find(text, '\n').value + 1..]);
    }
  }

  /** Every headword read so far is one that a line can carry, but for a leading semicolon. */
  ghost predicate ReadHeads(es: seq<Entry>) {
    forall e | e in es ::
      && e.midashi != "" && !IsWhitespace(e.midashi[0]) && FindSeparator(e.midashi).None? && '\n' !in e.midashi
      && forall k | k in e.buckets :: Recoverable(e.midashi, k)
  }

  lemma {:induction false} AddToReadHeads(es: seq<Entry>, r: Row)
    requires ReadHeads(es) && Recoverable(r.midashi, r.okuri) && '\n' !in r.midashi
    requires r.midashi != "" && !IsWhitespace(r.midashi[0]) && FindSeparator(r.midashi).None?
    ensures ReadHeads(AddTo(es, r.midashi, r.okuri, r.candidates))
  {
    hide Recoverable, FindSeparator, IsWhitespace;
    if es != [] && es[0].midashi != r.midashi {
      assert forall e | e in es[1..] :: e in es;
      AddToReadHeads(es[1..], r);
      assert es[0] in es;
    } else if es != [] {
      assert es[0] in es && forall e | e in es[1..] :: e in es;
    }
  }

  lemma {:induction false} ParseKeepsReadHeads(lines: seq<string>, number: nat, es: seq<Entry>)
    requires ReadHeads(es) && forall x | x in lines :: '\n' !in x
    requires ParseLines(lines, number, es).Ok?
    ensures ReadHeads(ParseLines(lines, number, es).value)
    decreases |lines|
  {
    hide ReadHeads, ParseLine, AddTo;
    if lines != [] {
      if ParseLine(lines[0]).Parsed? {
        ReadHead(lines[0]);
        assert lines[0] in lines;
        AddToReadHeads(es, ParseLine(lines[0]).row);
      }
      ParseKeepsReadHeads(lines[1..], number + 1, ParseStep(es, lines[0], number).value);
    }
  }

  /** Whatever file is read, each headword is found again in front of its fields, but for a leading semicolon. */
  lemma ReadingYieldsReadHeads(text: string)
    requires ParseText(text).Ok?
    ensures ReadHeads(ParseText(text).value)
  {
    LinesHoldNoNewline(text);
    ParseKeepsReadHeads(Lines(text), 1, []);
  }

  lemma SectionsParsed(ari: seq<string>, nasi: seq<string>)
    requires (forall x | x in ari :: IsLine(x)) && (forall x | x in nasi :: IsLine(x))
    ensures ParseText(TextOf(ari, nasi))
         == match ParseLines(OrBlank(ari), 3, []) {
              case Err(e) => Err(e)
              case Ok(mid) => ParseLines(OrBlank(nasi), 4 + |OrBlank(ari)|, mid)
            }
  {
    hide ParseLines, Lines;
    var a, n := OrBlank(ari), OrBlank(nasi);
    Headers();
    LinesOfLayout(HEADER, OKURI_ARI, ari, OKURI_NASI, nasi);
    ParseComment(HEADER, [OKURI_ARI] + (a + ([OKURI_NASI] + n)), 1, []);
    ParseComment(OKURI_ARI, a + ([OKURI_NASI] + n), 2, []);
    ParseLinesSplit(a, [OKURI_NASI] + n, 3, []);
    if ParseLines(a, 3, []).Ok? {
      ParseComment(OKURI_NASI, n, 3 + |a|, ParseLines(a, 3, []).value);
    }
  }

  // ── Order and content of the map that is built ──────────────────────────────

  function Heads(rows: seq<Row>): (r: seq<string>)
    ensures |r| == |rows|
    ensures forall i | 0 <= i < |rows| :: r[i] == rows[i].midashi
  {
    if rows == [] then [] else [rows[0].midashi] + Heads(rows[1..])
  }

  /** One more headword in front: it is new, or it was there already. */
  lemma FirstSeenStep(m: string, rest: seq<string>, order: seq<string>)
    ensures Filter(FirstSeen([m] + rest), NotIn(order))
         == (if m in order then Filter(FirstSeen(rest), NotIn(order))
             else [m] + Filter(FirstSeen(rest), NotIn(order + [m])))
  {
    var u := FirstSeen(rest);
    assert ([m] + rest)[1..] == rest;
    FilterSplit([m], Filter(u, Neq(m)), NotIn(order));
    FilterTwice(u, Neq(m), NotIn(order));
    assert Filter([m], NotIn(order)) == if m in order then [] else [m];
    if m in order {
      FilterSame(u, And(Neq(m), NotIn(order)), NotIn(order));
    } else {
      FilterSame(u, And(Neq(m), NotIn(order)), NotIn(order + [m]));
    }
  }

  lemma OneHeadMore(order: seq<string>, m: string, more: seq<string>)
    ensures (order + [m]) + more == order + ([m] + more)
  {
  }

  lemma NoHeadMore(order: seq<string>)
    ensures order + Filter(FirstSeen(Heads([])), NotIn(order)) == order
  {
    assert FirstSeen(Heads([])) == [];
    FilterNothing(NotIn(order));
  }

  /** Headwords appear in the order of their first row. */
  lemma {:induction false} BuiltOrder(rows: seq<Row>, acc: seq<Entry>)
    ensures Order(Built(rows, acc)) == Order(acc) + Filter(FirstSeen(Heads(rows)), NotIn(Order(acc)))
    decreases |rows|
  {
    hide FirstSeen, AddTo, NormalAll, Order;
    if rows != [] {
      var m := rows[0].midashi;
      AddToOrder(acc, m, rows[0].okuri, NormalAll(rows[0].candidates));
      BuiltOrder(rows[1..], AddTo(acc, m, rows[0].okuri, NormalAll(rows[0].candidates)));
      FirstSeenStep(m, Heads(rows[1..]), Order(acc));
      OneHeadMore(Order(acc), m, Filter(FirstSeen(Heads(rows[1..])), NotIn(Order(acc) + [m])));
    } else {
      NoHeadMore(Order(acc));
    }
  }

  ghost predicate UniqueKeys(rows: seq<Row>) {
    forall i, j | 0 <= i < j < |rows| :: rows[i].midashi != rows[j].midashi || rows[i].okuri != rows[j].okuri
  }

  lemma {:induction false} BuiltMisses(rows: seq<Row>, acc: seq<Entry>, m: string, o: Option<string>)
    requires forall r | r in rows :: r.midashi != m || r.okuri != o
    ensures GetBucket(Built(rows, acc), m, o) == GetBucket(acc, m, o)
    decreases |rows|
  {
    if rows != [] {
      assert rows[0] in rows;
      AddToBucket(acc, rows[0].midashi, rows[0].okuri, NormalAll(rows[0].candidates), m, o);
      BuiltMisses(rows[1..], AddTo(acc, rows[0].midashi, rows[0].okuri, NormalAll(rows[0].candidates)), m, o);
    }
  }

  lemma {:induction false} BuiltHits(rows: seq<Row>, acc: seq<Entry>, r: Row)
    requires UniqueKeys(rows) && r in rows && GetBucket(acc, r.midashi, r.okuri).None?
    ensures GetBucket(Built(rows, acc), r.midashi, r.okuri) == Some(NormalAll(r.candidates))
    decreases |rows|
  {
    var next := AddTo(acc, rows[0].midashi, rows[0].okuri, NormalAll(rows[0].candidates));
    AddToBucket(acc, rows[0].midashi, rows[0].okuri, NormalAll(rows[0].candidates), r.midashi, r.okuri);
    if rows[0] == r {
      forall x | x in rows[1..] ensures x.midashi != r.midashi || x.okuri != r.okuri {
        var j :| 0 <= j < |rows| - 1 && rows[1..][j] == x;
        assert rows[j + 1] == x;
      }
      BuiltMisses(rows[1..], next, r.midashi, r.okuri);
    } else {
      var j :| 0 <= j < |rows| && rows[j] == r;
      assert rows[1..][j - 1] == r;
      BuiltHits(rows[1..], next, r);
    }
  }

  // ── The rows of a map ───────────────────────────────────────────────────────

  lemma {:induction false} RowsCover(es: seq<Entry>, enums: seq<seq<Option<string>>>, i: nat, k: Option<string>)
    requires Enumerates(es, enums) && i < |es| && k in es[i].buckets
    ensures Row(es[i].midashi, k, es[i].buckets[k]) in Rows(es, enums)
  {
    if i == 0 {
      assert k in enums[0];
      var j :| 0 <= j < |enums[0]| && enums[0][j] == k;
      assert RowsFor(es[0], enums[0])[j] == Row(es[0].midashi, k, es[0].buckets[k]);
    } else {
      RowsCover(es[1..], enums[1..], i - 1, k);
    }
  }

  /** Every row comes from a bucket. */
  lemma {:induction false} RowsOrigin(es: seq<Entry>, enums: seq<seq<Option<string>>>, r: Row) returns (i: nat)
    requires Enumerates(es, enums) && r in Rows(es, enums)
    ensures i < |es| && es[i].midashi == r.midashi
    ensures r.okuri in es[i].buckets && es[i].buckets[r.okuri] == r.candidates
  {
    if r in RowsFor(es[0], enums[0]) {
      i := 0;
      var j :| 0 <= j < |enums[0]| && RowsFor(es[0], enums[0])[j] == r;
      assert enums[0][j] in enums[0];
    } else {
      i := RowsOrigin(es[1..], enums[1..], r);
      i := i + 1;
    }
  }

  lemma UniqueTail(es: seq<Entry>)
    requires UniqueHeads(es) && es != []
    ensures UniqueHeads(es[1..]) && es[0].midashi !in Order(es[1..])
  {
    var o := Order(es);
    assert o == [es[0].midashi] + Order(es[1..]);
    assert forall i | 0 <= i < |o| - 1 :: Order(es[1..])[i] == o[i + 1] && o[0] != o[i + 1];
  }

  lemma {:induction false} RowsAreUnique(es: seq<Entry>, enums: seq<seq<Option<string>>>)
    requires Enumerates(es, enums) && UniqueHeads(es)
    ensures UniqueKeys(Rows(es, enums))
  {
    if es != [] {
      UniqueTail(es);
      RowsAreUnique(es[1..], enums[1..]);
      var a, b := RowsFor(es[0], enums[0]), Rows(es[1..], enums[1..]);
      forall j | 0 <= j < |b| ensures b[j].midashi != es[0].midashi {
        assert b[j] in b;
        var i := RowsOrigin(es[1..], enums[1..], b[j]);
        assert Order(es[1..])[i] == b[j].midashi;
      }
    }
  }

  lemma {:induction false} FilterUniqueKeys(rows: seq<Row>, p: Row -> bool)
    requires UniqueKeys(rows)
    ensures UniqueKeys(Filter(rows, p))
  {
    if rows != [] {
      FilterUniqueKeys(rows[1..], p);
      var rest := Filter(rows[1..], p);
      forall j | 0 <= j < |rest| ensures rest[j].midashi != rows[0].midashi || rest[j].okuri != rows[0].okuri {
        assert rest[j] in rest && rest[j] in rows[1..];
        var k :| 0 <= k < |rows| - 1 && rows[1..][k] == rest[j];
        assert rows[k + 1] == rest[j];
      }
    }
  }

  /** The rows in the order the two sections present them. */
  ghost function SectionRows(es: seq<Entry>, enums: seq<seq<Option<string>>>): seq<Row>
    requires Enumerates(es, enums)
  {
    Filter(Rows(es, enums), RowWith(IsAri())) + Filter(Rows(es, enums), RowWith(IsNasi()))
  }

  lemma SectionRowsAreUnique(es: seq<Entry>, enums: seq<seq<Option<string>>>)
    requires Enumerates(es, enums) && UniqueHeads(es)
    ensures UniqueKeys(SectionRows(es, enums))
    ensures forall r :: r in SectionRows(es, enums) <==> r in Rows(es, enums)
  {
    var rows := Rows(es, enums);
    RowsAreUnique(es, enums);
    FilterUniqueKeys(rows, RowWith(IsAri()));
    FilterUniqueKeys(rows, RowWith(IsNasi()));
    var a, n := Filter(rows, RowWith(IsAri())), Filter(rows, RowWith(IsNasi()));
    forall r: Row ensures RowWith(IsAri())(r) == r.okuri.Some? && RowWith(IsNasi())(r) == r.okuri.None? {
      assert RowWith(IsAri())(r) == IsAri()(r.okuri) && RowWith(IsNasi())(r) == IsNasi()(r.okuri);
    }
    assert forall i | 0 <= i < |a| :: a[i] in a && a[i].okuri.Some?;
    assert forall i | 0 <= i < |n| :: n[i] in n && n[i].okuri.None?;
  }

  // ── One row among others ────────────────────────────────────────────────────

  /** What a row leaves in its bucket when its line is read. */
  function Met(r: Row): Option<seq<Candidate>> {
    match ParseLine(RenderRow(r))
    case Parsed(x) => if x.midashi == r.midashi && x.okuri == r.okuri then Some(x.candidates) else None
    case _ => None
  }

  /** Rows that can be read and are about other buckets than `r`. */
  ghost predicate Apart(rows: seq<Row>, r: Row) {
    forall x | x in rows :: WritableRow(x) && (x.midashi != r.midashi || x.okuri != r.okuri)
  }

  lemma SlashEnds(r: Row)
    ensures RenderRow(r) != "" && RenderRow(r)[|RenderRow(r)| - 1] == '/'
  {
  }

  lemma LineRead(r: Row, number: nat, acc: seq<Entry>)
    requires GetBucket(acc, r.midashi, r.okuri).None? && ParseStep(acc, RenderRow(r), number).Ok?
    ensures GetBucket(ParseStep(acc, RenderRow(r), number).value, r.midashi, r.okuri) == Met(r)
  {
    hide ParseLine, RenderRow, AddTo, GetBucket;
    if ParseLine(RenderRow(r)).Parsed? {
      var x := ParseLine(RenderRow(r)).row;
      AddToBucket(acc, x.midashi, x.okuri, x.candidates, r.midashi, r.okuri);
    }
  }

  lemma ApartRead(rows: seq<Row>, r: Row, number: nat, acc: seq<Entry>)
    requires Apart(rows, r)
    ensures ParseLines(OrBlank(RenderRows(rows)), number, acc).Ok? && ParseLines(RenderRows(rows), number, acc).Ok?
    ensures GetBucket(ParseLines(RenderRows(rows), number, acc).value, r.midashi, r.okuri)
         == GetBucket(acc, r.midashi, r.okuri)
    ensures ParseLines(OrBlank(RenderRows(rows)), number, acc) == ParseLines(RenderRows(rows), number, acc)
  {
    hide WritableRow, ParseLines, Built, GetBucket;
    ParseRows(rows, number, acc);
    ParseSection(rows, number, acc);
    BuiltMisses(rows, acc, r.midashi, r.okuri);
  }

  lemma FirstLine(line: string, rest: seq<string>, number: nat, acc: seq<Entry>)
    ensures ParseLines([line] + rest, number, acc)
         == match ParseStep(acc, line, number) { case Err(e) => Err(e) case Ok(next) => ParseLines(rest, number + 1, next) }
  {
    hide ParseStep;
    assert ([line] + rest)[1..] == rest;
  }

  lemma {:induction false} RenderRowsSplit(a: seq<Row>, b: seq<Row>)
    ensures RenderRows(a + b) == RenderRows(a) + RenderRows(b)
  {
  }

  lemma RenderAround(a: seq<Row>, r: Row, b: seq<Row>)
    ensures RenderRows(a + [r] + b) == RenderRows(a) + ([RenderRow(r)] + RenderRows(b))
  {
    hide RenderRow;
    RenderRowsSplit(a + [r], b);
    RenderRowsSplit(a, [r]);
    assert RenderRows([r]) == [RenderRow(r)];
  }

  lemma RowBetween(a: seq<Row>, r: Row, b: seq<Row>, number: nat, acc: seq<Entry>)
    requires Apart(a, r) && Apart(b, r) && GetBucket(acc, r.midashi, r.okuri).None?
    requires ParseLines(RenderRows(a) + ([RenderRow(r)] + RenderRows(b)), number, acc).Ok?
    ensures GetBucket(ParseLines(RenderRows(a) + ([RenderRow(r)] + RenderRows(b)), number, acc).value, r.midashi, r.okuri)
         == Met(r)
  {
    hide Apart, ParseLines, ParseStep, GetBucket, Met, RenderRow;
    var line, rest := RenderRow(r), RenderRows(b);
    ParseLinesSplit(RenderRows(a), [line] + rest, number, acc);
    ApartRead(a, r, number, acc);
    var mid := ParseLines(RenderRows(a), number, acc).value;
    FirstLine(line, rest, number + |a|, mid);
    LineRead(r, number + |a|, mid);
    ApartRead(b, r, number + |a| + 1, ParseStep(mid, line, number + |a|).value);
  }

  /** The rows of a section that has `r` in it; the others can be read. */
  ghost predicate Holds(rows: seq<Row>, r: Row) {
    UniqueKeys(rows) && r in rows && forall x | x in rows :: x == r || WritableRow(x)
  }

  /** Reading a section that holds `r`. */
  lemma RowAmong(rows: seq<Row>, r: Row, number: nat, acc: seq<Entry>)
    requires Holds(rows, r) && GetBucket(acc, r.midashi, r.okuri).None? && ParseLines(RenderRows(rows), number, acc).Ok?
    ensures GetBucket(ParseLines(RenderRows(rows), number, acc).value, r.midashi, r.okuri) == Met(r)
  {
    hide WritableRow, ParseLines, RenderRows, GetBucket, Met;
    var a, b := SplitAround(rows, r);
    assert Apart(a, r) && Apart(b, r);
    RenderAround(a, r, b);
    RowBetween(a, r, b, number, acc);
  }

  lemma RowsAreLinesWith(rows: seq<Row>, r: Row)
    requires Holds(rows, r) && '\n' !in RenderRow(r)
    ensures (forall x | x in RenderRows(rows) :: IsLine(x)) && OrBlank(RenderRows(rows)) == RenderRows(rows)
  {
    hide RenderRow, WritableRow, UniqueKeys;
    var lines := RenderRows(rows);
    SlashEnds(r);
    forall i | 0 <= i < |rows| ensures IsLine(lines[i]) {
      assert rows[i] in rows;
      if rows[i] != r {
        RowIsOneLine(rows[i]);
      }
    }
    assert |lines| > 0;
  }

  lemma ApartAreLines(rows: seq<Row>, r: Row)
    requires Apart(rows, r)
    ensures forall x | x in RenderRows(rows) :: IsLine(x)
  {
    hide WritableRow;
    RowsAreLines(rows);
  }

  /** The file as a whole: what is found in the bucket of `r` is what its own line says. */
  lemma TextWithAriRow(mine: seq<Row>, r: Row, other: seq<Row>)
    requires Holds(mine, r) && Apart(other, r) && '\n' !in RenderRow(r)
    requires ParseText(TextOf(RenderRows(mine), RenderRows(other))).Ok?
    ensures GetBucket(ParseText(TextOf(RenderRows(mine), RenderRows(other))).value, r.midashi, r.okuri) == Met(r)
  {
    hide ParseLines, TextOf, ParseText, Met, RenderRow, RenderRows, GetBucket, Holds, Apart, IsLine, OrBlank;
    RowsAreLinesWith(mine, r);
    ApartAreLines(other, r);
    NoBucket(r);
    SectionsParsed(RenderRows(mine), RenderRows(other));
    RowAmong(mine, r, 3, []);
    ApartRead(other, r, 4 + |mine|, ParseLines(RenderRows(mine), 3, []).value);
  }

  lemma TextWithNasiRow(mine: seq<Row>, r: Row, other: seq<Row>)
    requires Holds(mine, r) && Apart(other, r) && '\n' !in RenderRow(r)
    requires ParseText(TextOf(RenderRows(other), RenderRows(mine))).Ok?
    ensures GetBucket(ParseText(TextOf(RenderRows(other), RenderRows(mine))).value, r.midashi, r.okuri) == Met(r)
  {
    hide ParseLines, TextOf, ParseText, Met, RenderRow, RenderRows, GetBucket, Holds, Apart, IsLine, OrBlank;
    RowsAreLinesWith(mine, r);
    ApartAreLines(other, r);
    NoBucket(r);
    SectionsParsed(RenderRows(other), RenderRows(mine));
    ApartRead(other, r, 3, []);
    RowAmong(mine, r, 4 + |OrBlank(RenderRows(other))|, ParseLines(RenderRows(other), 3, []).value);
  }

  lemma NoBucket(r: Row)
    ensures GetBucket([], r.midashi, r.okuri).None?
  {
  }

  /** The rows of a section around one of them. */
  lemma SplitAround(rows: seq<Row>, r: Row) returns (a: seq<Row>, b: seq<Row>)
    requires UniqueKeys(rows) && r in rows
    ensures rows == a + [r] + b
    ensures forall x | x in a || x in b :: x in rows && (x.midashi != r.midashi || x.okuri != r.okuri)
  {
    var i :| 0 <= i < |rows| && rows[i] == r;
    a, b := rows[..i], rows[i + 1..];
  }

  /** Whatever is saved beside it: a row is found in its bucket as its own line is read. */
  lemma SavedRow(es: seq<Entry>, r: Row, text: string)
    requires UniqueHeads(es) && IsSaved(es, text) && ParseText(text).Ok? && '\n' !in RenderRow(r)
    requires GetBucket(es, r.midashi, r.okuri) == Some(r.candidates)
    requires forall e, k | e in es && k in e.buckets ::
      (e.midashi == r.midashi && k == r.okuri) || WritableRow(Row(e.midashi, k, e.buckets[k]))
    ensures GetBucket(ParseText(text).value, r.midashi, r.okuri) == Met(r)
  {
    hide ParseText, Met, RenderRow, WritableRow, TextOf, Rows;
    var enums :| Enumerates(es, enums) && text == SavedText(es, enums);
    var rows := Rows(es, enums);
    RowIsThere(es, enums, r);
    RowsAreUnique(es, enums);
    forall x | x in rows && (x.midashi != r.midashi || x.okuri != r.okuri) ensures WritableRow(x) {
      var i := RowsOrigin(es, enums, x);
      assert es[i] in es;
    }
    FilterUniqueKeys(rows, RowWith(IsAri()));
    FilterUniqueKeys(rows, RowWith(IsNasi()));
    var ari, nasi := Filter(rows, RowWith(IsAri())), Filter(rows, RowWith(IsNasi()));
    KindOfRow(r);
    if r.okuri.Some? {
      OtherKind(rows, r, nasi, IsNasi());
      HoldsIn(rows, r, ari);
      TextWithAriRow(ari, r, nasi);
    } else {
      OtherKind(rows, r, ari, IsAri());
      HoldsIn(rows, r, nasi);
      TextWithNasiRow(nasi, r, ari);
    }
  }

  lemma HoldsIn(rows: seq<Row>, r: Row, section: seq<Row>)
    requires UniqueKeys(rows) && r in rows && UniqueKeys(section) && r in section && forall x | x in section :: x in rows
    requires forall x | x in rows && (x.midashi != r.midashi || x.okuri != r.okuri) :: WritableRow(x)
    ensures Holds(section, r)
  {
    hide WritableRow;
    forall x | x in section && x != r ensures x.midashi != r.midashi || x.okuri != r.okuri {
      var i :| 0 <= i < |section| && section[i] == x;
      var j :| 0 <= j < |section| && section[j] == r;
    }
  }

  lemma RowIsThere(es: seq<Entry>, enums: seq<seq<Option<string>>>, r: Row)
    requires Enumerates(es, enums) && GetBucket(es, r.midashi, r.okuri) == Some(r.candidates)
    ensures r in Rows(es, enums)
  {
    GetIndex(es, r.midashi);
    var i :| 0 <= i < |es| && es[i].midashi == r.midashi && Get(es, r.midashi) == Some(es[i].buckets);
    RowsCover(es, enums, i, r.okuri);
  }

  lemma KindOfRow(r: Row)
    ensures RowWith(IsAri())(r) == r.okuri.Some? && RowWith(IsNasi())(r) == r.okuri.None?
  {
  }

  lemma OtherKind(rows: seq<Row>, r: Row, section: seq<Row>, p: Option<string> -> bool)
    requires section == Filter(rows, RowWith(p)) && !p(r.okuri)
    requires forall x | x in rows && (x.midashi != r.midashi || x.okuri != r.okuri) :: WritableRow(x)
    ensures Apart(section, r)
  {
    hide WritableRow;
    forall x | x in section ensures x in rows && x.okuri != r.okuri {
      assert RowWith(p)(x);
    }
  }

  // ── The reloaded map ────────────────────────────────────────────────────────

  function NormalBuckets(b: Buckets): Buckets {
    map k | k in b :: NormalAll(b[k])
  }

  function NormalEntries(es: seq<Entry>): (r: seq<Entry>)
    ensures |r| == |es|
    ensures forall i | 0 <= i < |es| :: r[i] == Entry(es[i].midashi, NormalBuckets(es[i].buckets))
  {
    if es == [] then [] else [Entry(es[0].midashi, NormalBuckets(es[0].buckets))] + NormalEntries(es[1..])
  }

  /** What a save and a load leave: headwords with okurigana buckets first, then the others. */
  function Reloaded(es: seq<Entry>): seq<Entry> {
    NormalEntries(Filter(es, EntryWith(IsAri())) + Filter(es, EntryWithout(IsAri())))
  }

  lemma {:induction false} OrderSplit(a: seq<Entry>, b: seq<Entry>)
    ensures Order(a + b) == Order(a) + Order(b)
  {
  }

  lemma {:induction false} GetSplit(a: seq<Entry>, b: seq<Entry>, m: string)
    ensures Get(a + b, m) == if Get(a, m).Some? then Get(a, m) else Get(b, m)
  {
    if a == [] {
      assert a + b == b;
    } else {
      assert (a + b)[1..] == a[1..] + b;
      GetSplit(a[1..], b, m);
    }
  }

  lemma {:induction false} GetFiltered(es: seq<Entry>, p: Entry -> bool, m: string)
    requires UniqueHeads(es)
    ensures Get(Filter(es, p), m)
         == match Get(es, m) { case None => None case Some(b) => if p(Entry(m, b)) then Some(b) else None }
  {
    if es != [] {
      UniqueTail(es);
      GetFiltered(es[1..], p, m);
      GetInOrder(es[1..], m);
      GetSplit(if p(es[0]) then [es[0]] else [], Filter(es[1..], p), m);
      assert es[0] == Entry(es[0].midashi, es[0].buckets);
    }
  }

  lemma {:induction false} GetNormal(es: seq<Entry>, m: string)
    ensures Get(NormalEntries(es), m)
         == match Get(es, m) { case None => None case Some(b) => Some(NormalBuckets(b)) }
  {
    if es != [] {
      assert NormalEntries(es)[1..] == NormalEntries(es[1..]);
      GetNormal(es[1..], m);
    }
  }

  function NormalBucket(b: Option<seq<Candidate>>): Option<seq<Candidate>> {
    match b case None => None case Some(cs) => Some(NormalAll(cs))
  }

  /** Every bucket is there again, with its directives normalised; nothing is added. */
  lemma ReloadedBuckets(es: seq<Entry>, m: string, o: Option<string>)
    requires UniqueHeads(es)
    ensures GetBucket(Reloaded(es), m, o) == NormalBucket(GetBucket(es, m, o))
  {
    var a, b := Filter(es, EntryWith(IsAri())), Filter(es, EntryWithout(IsAri()));
    GetFiltered(es, EntryWith(IsAri()), m);
    GetFiltered(es, EntryWithout(IsAri()), m);
    GetSplit(a, b, m);
    GetNormal(a + b, m);
  }

  lemma {:induction false} FilterOrder(es: seq<Entry>, p: Entry -> bool, q: string -> bool)
    requires forall e | e in es :: p(e) == q(e.midashi)
    ensures Order(Filter(es, p)) == Filter(Order(es), q)
  {
    if es != [] {
      assert Order(es)[1..] == Order(es[1..]);
      FilterOrder(es[1..], p, q);
      OrderSplit(if p(es[0]) then [es[0]] else [], Filter(es[1..], p));
    }
  }

  lemma {:induction false} HeadsSplit(a: seq<Row>, b: seq<Row>)
    ensures Heads(a + b) == Heads(a) + Heads(b)
  {
  }

  lemma {:induction false} FirstSeenConstant(s: seq<string>, m: string)
    requires forall i | 0 <= i < |s| :: s[i] == m
    ensures FirstSeen(s) == if s == [] then [] else [m]
  {
    if s != [] {
      FirstSeenConstant(s[1..], m);
    }
  }

  lemma RowsForKept(e: Entry, keys: seq<Option<string>>, p: Option<string> -> bool)
    requires Enumeration(keys, e.buckets)
    ensures Filter(RowsFor(e, keys), RowWith(p)) != [] <==> EntryWith(p)(e)
  {
    var rows := RowsFor(e, keys);
    if EntryWith(p)(e) {
      var k :| k in e.buckets && p(k);
      var j :| 0 <= j < |keys| && keys[j] == k;
      assert rows[j] in rows && RowWith(p)(rows[j]);
    } else {
      forall r | r in rows ensures !RowWith(p)(r) {
        var j :| 0 <= j < |keys| && rows[j] == r;
        assert keys[j] in keys;
      }
      FilterNone(rows, RowWith(p));
    }
  }

  lemma RowsForHeads(e: Entry, keys: seq<Option<string>>, p: Option<string> -> bool)
    requires Enumeration(keys, e.buckets)
    ensures var heads := Heads(Filter(RowsFor(e, keys), RowWith(p)));
      && FirstSeen(heads) == (if EntryWith(p)(e) then [e.midashi] else [])
      && forall i | 0 <= i < |heads| :: heads[i] == e.midashi
  {
    var kept := Filter(RowsFor(e, keys), RowWith(p));
    forall i | 0 <= i < |kept| ensures Heads(kept)[i] == e.midashi {
      assert kept[i] in kept && kept[i] in RowsFor(e, keys);
    }
    FirstSeenConstant(Heads(kept), e.midashi);
    RowsForKept(e, keys, p);
  }

  lemma TailHeadDiffers(es: seq<Entry>, keep: Entry -> bool, x: string)
    requires UniqueHeads(es) && es != [] && x in Order(Filter(es[1..], keep))
    ensures x != es[0].midashi
  {
    var tail := Filter(es[1..], keep);
    var i :| 0 <= i < |tail| && Order(tail)[i] == x;
    assert tail[i] in tail;
    var j :| 0 <= j < |es| - 1 && es[1..][j] == tail[i];
    assert Order(es)[j + 1] == x && Order(es)[0] == es[0].midashi;
  }

  /** A section names each headword that has a bucket of its kind, in map order. */
  lemma {:induction false} SectionHeads(es: seq<Entry>, enums: seq<seq<Option<string>>>, p: Option<string> -> bool)
    requires Enumerates(es, enums) && UniqueHeads(es)
    ensures FirstSeen(Heads(Filter(Rows(es, enums), RowWith(p)))) == Order(Filter(es, EntryWith(p)))
  {
    if es != [] {
      UniqueTail(es);
      SectionHeads(es[1..], enums[1..], p);
      var a := Filter(RowsFor(es[0], enums[0]), RowWith(p));
      var b := Filter(Rows(es[1..], enums[1..]), RowWith(p));
      RowsForHeads(es[0], enums[0], p);
      FilterSplit(RowsFor(es[0], enums[0]), Rows(es[1..], enums[1..]), RowWith(p));
      HeadsSplit(a, b);
      FirstSeenSplit(Heads(a), Heads(b));
      var tail := Filter(es[1..], EntryWith(p));
      forall x | x in Order(tail) ensures NotIn(Heads(a))(x) {
        TailHeadDiffers(es, EntryWith(p), x);
      }
      FilterAll(Order(tail), NotIn(Heads(a)));
      OrderSplit(if EntryWith(p)(es[0]) then [es[0]] else [], tail);
    }
  }

  // ── Main results ────────────────────────────────────────────────────────────

  /** A map that the text format can carry. */
  ghost predicate Storable(es: seq<Entry>) {
    && UniqueHeads(es)
    && forall e | e in es ::
         e.buckets != map[] && forall k | k in e.buckets :: WritableRow(Row(e.midashi, k, e.buckets[k]))
  }

  lemma RowsAreWritable(es: seq<Entry>, enums: seq<seq<Option<string>>>)
    requires Storable(es) && Enumerates(es, enums)
    ensures forall r | r in Rows(es, enums) :: WritableRow(r)
  {
    forall r | r in Rows(es, enums) ensures WritableRow(r) {
      var i := RowsOrigin(es, enums, r);
      assert es[i] in es;
    }
  }

  /** Bucket (`m`, `o`) is built exactly from the bucket that was written. */
  lemma BuiltBuckets(es: seq<Entry>, enums: seq<seq<Option<string>>>, m: string, o: Option<string>)
    requires UniqueHeads(es) && Enumerates(es, enums)
    ensures GetBucket(Built(SectionRows(es, enums), []), m, o) == NormalBucket(GetBucket(es, m, o))
  {
    hide Built, NormalAll, Rows;
    var rows := SectionRows(es, enums);
    SectionRowsAreUnique(es, enums);
    if GetBucket(es, m, o).Some? {
      GetIndex(es, m);
      var i :| 0 <= i < |es| && es[i].midashi == m && Get(es, m) == Some(es[i].buckets);
      RowsCover(es, enums, i, o);
      BuiltHits(rows, [], Row(m, o, es[i].buckets[o]));
    } else {
      forall r | r in rows ensures r.midashi != m || r.okuri != o {
        var i := RowsOrigin(es, enums, r);
        GetAt(es, i);
      }
      BuiltMisses(rows, [], m, o);
    }
  }

  lemma {:induction false} GetIndex(es: seq<Entry>, m: string)
    requires Get(es, m).Some?
    ensures exists i :: 0 <= i < |es| && es[i].midashi == m && Get(es, m) == Some(es[i].buckets)
  {
    if es[0].midashi != m {
      GetIndex(es[1..], m);
      var i :| 0 <= i < |es| - 1 && es[1..][i].midashi == m && Get(es[1..], m) == Some(es[1..][i].buckets);
      assert es[i + 1].midashi == m;
    }
  }

  /** The sections put headwords with okurigana buckets before those without. */
  lemma BuiltOrderIsReloaded(es: seq<Entry>, enums: seq<seq<Option<string>>>)
    requires Storable(es) && Enumerates(es, enums)
    ensures Order(Built(SectionRows(es, enums), [])) == Order(Reloaded(es))
  {
    var a := Filter(Rows(es, enums), RowWith(IsAri()));
    var n := Filter(Rows(es, enums), RowWith(IsNasi()));
    var ea, en, eo := Filter(es, EntryWith(IsAri())), Filter(es, EntryWith(IsNasi())), Filter(es, EntryWithout(IsAri()));
    BuiltOrder(a + n, []);
    FilterAll(FirstSeen(Heads(a + n)), NotIn([]));
    HeadsSplit(a, n);
    FirstSeenSplit(Heads(a), Heads(n));
    SectionHeads(es, enums, IsAri());
    SectionHeads(es, enums, IsNasi());
    NasiOnly(es, Heads(a));
    OrderSplit(ea, eo);
    assert Order(Reloaded(es)) == Order(ea + eo);
  }

  /** Of the headwords in the second section, those not met in the first have no okurigana bucket. */
  lemma MetMeansAri(es: seq<Entry>, met: seq<string>, e: Entry)
    requires UniqueHeads(es) && FirstSeen(met) == Order(Filter(es, EntryWith(IsAri()))) && e in es
    ensures e.midashi in met <==> EntryWith(IsAri())(e)
  {
    hide FirstSeen, Order;
    var ea := Filter(es, EntryWith(IsAri()));
    FirstSeenKeepsAll(met);
    if e.midashi in met {
      var i :| 0 <= i < |ea| && Order(ea)[i] == e.midashi;
      assert ea[i] in ea;
      SameHead(es, ea[i], e);
    }
    if EntryWith(IsAri())(e) {
      InOrder(ea, e);
    }
  }

  lemma NasiOnly(es: seq<Entry>, met: seq<string>)
    requires Storable(es) && FirstSeen(met) == Order(Filter(es, EntryWith(IsAri())))
    ensures Filter(Order(Filter(es, EntryWith(IsNasi()))), NotIn(met)) == Order(Filter(es, EntryWithout(IsAri())))
  {
    var ea, en := Filter(es, EntryWith(IsAri())), Filter(es, EntryWith(IsNasi()));
    FirstSeenKeepsAll(met);
    forall e | e in es ensures EntryWithout(IsAri())(e) == NotIn(met)(e.midashi) {
      MetMeansAri(es, met, e);
    }
    FilterOrder(en, EntryWithout(IsAri()), NotIn(met));
    FilterTwice(es, EntryWith(IsNasi()), EntryWithout(IsAri()));
    forall e | e in es ensures And(EntryWith(IsNasi()), EntryWithout(IsAri()))(e) == EntryWithout(IsAri())(e) {
      var k :| k in e.buckets;
      assert IsAri()(k) || IsNasi()(k);
    }
    FilterSame(es, And(EntryWith(IsNasi()), EntryWithout(IsAri())), EntryWithout(IsAri()));
  }

  lemma InOrder(es: seq<Entry>, e: Entry)
    requires e in es
    ensures e.midashi in Order(es)
  {
    var i :| 0 <= i < |es| && es[i] == e;
    assert Order(es)[i] == e.midashi;
  }

  lemma SameHead(es: seq<Entry>, a: Entry, b: Entry)
    requires UniqueHeads(es) && a in es && b in es && a.midashi == b.midashi
    ensures a == b
  {
    var i :| 0 <= i < |es| && es[i] == a;
    var j :| 0 <= j < |es| && es[j] == b;
    assert Order(es)[i] == Order(es)[j];
  }

  /** Main result: whatever order the buckets were written in, loading a saved map gives back its
      headwords and buckets, directives normalised, okurigana headwords moved to the front. */
  lemma SaveLoadRoundTrip(es: seq<Entry>, text: string)
    requires Storable(es) && IsSaved(es, text)
    ensures ParseText(text) == Ok(Reloaded(es))
    ensures forall m, o :: GetBucket(Reloaded(es), m, o) == NormalBucket(GetBucket(es, m, o))
  {
    var enums :| Enumerates(es, enums) && text == SavedText(es, enums);
    RowsAreWritable(es, enums);
    Headers();
    var a := Filter(Rows(es, enums), RowWith(IsAri()));
    var n := Filter(Rows(es, enums), RowWith(IsNasi()));
    ParseLayout(HEADER, OKURI_ARI, a, OKURI_NASI, n);
    BuiltOrderIsReloaded(es, enums);
    BuiltOrder(a + n, []);
    forall m, o ensures GetBucket(Built(a + n, []), m, o) == GetBucket(Reloaded(es), m, o) {
      BuiltBuckets(es, enums, m, o);
      ReloadedBuckets(es, m, o);
    }
    FilterAll(FirstSeen(Heads(a + n)), NotIn([]));
    FirstSeenKeepsAll(Heads(a + n));
    assert Order(Built(a + n, [])) == FirstSeen(Heads(a + n));
    SameEntries(Built(a + n, []), Reloaded(es));
    forall m, o ensures GetBucket(Reloaded(es), m, o) == NormalBucket(GetBucket(es, m, o)) {
      ReloadedBuckets(es, m, o);
    }
  }
}
