/** Digit-run templates: scanning a headword, expanding `#n` markers, and the capped `#4` expansion. */
module NumTemplate {
  import opened Text

  // ── Scanning ────────────────────────────────────────────────────────────────

  /** The length of the digit run at the start of `s`. */
  function RunLength(s: string): (n: nat)
    ensures n <= |s|
    ensures forall i | 0 <= i < n :: IsAsciiDigit(s[i])
    ensures n < |s| ==> !IsAsciiDigit(s[n])
  {
    if s != "" && IsAsciiDigit(s[0]) then 1 + RunLength(s[1..]) else 0
  }

  datatype Scanned = Scanned(template: string, runs: seq<string>)

  /** Every maximal digit run becomes one `#`; the runs are kept in order. */
  function ScanOf(s: string): Scanned
    decreases |s|
  {
    if s == "" then Scanned("", [])
    else if IsAsciiDigit(s[0]) then
      var n := RunLength(s);
      var rest := ScanOf(s[n..]);
      Scanned("#" + rest.template, [s[..n]] + rest.runs)
    else
      var rest := ScanOf(s[1..]);
      Scanned([s[0]] + rest.template, rest.runs)
  }

  predicate AllDigits(s: string) {
    forall i | 0 <= i < |s| :: IsAsciiDigit(s[i])
  }

  function Glue(done: Scanned, rest: Scanned): Scanned {
    Scanned(done.template + rest.template, done.runs + rest.runs)
  }

  lemma {:induction false} RunLengthOf(run: string, rest: string)
    requires AllDigits(run) && (rest == "" || !IsAsciiDigit(rest[0]))
    ensures RunLength(run + rest) == |run|
  {
    if run != "" {
      assert (run + rest)[1..] == run[1..] + rest;
      RunLengthOf(run[1..], rest);
    } else {
      assert run + rest == rest;
    }
  }

  lemma ScanRun(run: string, rest: string)
    requires run != "" && AllDigits(run) && (rest == "" || !IsAsciiDigit(rest[0]))
    ensures ScanOf(run + rest) == Glue(Scanned("#", [run]), ScanOf(rest))
  {
    RunLengthOf(run, rest);
    assert (run + rest)[..|run|] == run && (run + rest)[|run|..] == rest;
  }

  lemma ScanFlush(template: string, runs: seq<string>, run: string, rest: string)
    requires run != "" && AllDigits(run) && (rest == "" || !IsAsciiDigit(rest[0]))
    ensures Glue(Scanned(template, runs), ScanOf(run + rest))
         == Glue(Scanned(template + "#", runs + [run]), ScanOf(rest))
  {
    ScanRun(run, rest);
    assert template + ("#" + ScanOf(rest).template) == template + "#" + ScanOf(rest).template;
    assert runs + ([run] + ScanOf(rest).runs) == runs + [run] + ScanOf(rest).runs;
  }

  lemma ScanEnds(template: string, runs: seq<string>)
    ensures Glue(Scanned(template, runs), ScanOf("")) == Scanned(template, runs)
  {
    assert template + "" == template && runs + [] == runs;
  }

  lemma ScanPlain(template: string, runs: seq<string>, ch: char, rest: string)
    requires !IsAsciiDigit(ch)
    ensures Glue(Scanned(template, runs), ScanOf([ch] + rest)) == Glue(Scanned(template + [ch], runs), ScanOf(rest))
  {
    assert ([ch] + rest)[1..] == rest;
    assert template + ([ch] + ScanOf(rest).template) == template + [ch] + ScanOf(rest).template;
  }

  lemma GlueNothing(s: Scanned)
    ensures Glue(Scanned("", []), s) == s
  {
  }

  /** `scan`: one pass with a run buffer that is flushed at the end of each run. */
  method Scan(midashi: string) returns (template: string, runs: seq<string>)
    ensures Scanned(template, runs) == ScanOf(midashi)
  {
    template, runs := "", [];
    var inRun := false;
    var runBuf := "";
    hide ScanOf, Glue;
    assert runBuf + midashi[0..] == midashi;
    GlueNothing(ScanOf(midashi));
    for i := 0 to |midashi|
      invariant inRun <==> runBuf != ""
      invariant AllDigits(runBuf)
      invariant ScanOf(midashi) == Glue(Scanned(template, runs), ScanOf(runBuf + midashi[i..]))
    {
      var ch := midashi[i];
      var rest := midashi[i..];
      assert rest == [ch] + midashi[i + 1..] && rest[1..] == midashi[i + 1..];
      if IsAsciiDigit(ch) {
        inRun := true;
        assert runBuf + rest == runBuf + [ch] + midashi[i + 1..];
        runBuf := runBuf + [ch];
      } else {
        if inRun {
          ScanFlush(template, runs, runBuf, rest);
          runs := runs + [runBuf];
          template := template + "#";
          runBuf := "";
          inRun := false;
        } else {
          assert runBuf + rest == rest;
        }
        ScanPlain(template, runs, ch, midashi[i + 1..]);
        template := template + [ch];
        assert runBuf + midashi[i + 1..] == midashi[i + 1..];
      }
    }
    assert runBuf + midashi[|midashi|..] == runBuf;
    if inRun {
      ScanFlush(template, runs, runBuf, "");
      assert runBuf + "" == runBuf;
      runs := runs + [runBuf];
      template := template + "#";
    }
    ScanEnds(template, runs);
  }

  /** Puts the runs back in order; markers beyond the last run stay. */
  function Refill(template: string, runs: seq<string>): string {
    if template == "" then ""
    else if template[0] == '#' && runs != [] then runs[0] + Refill(template[1..], runs[1..])
    else [template[0]] + Refill(template[1..], runs)
  }

  /** No literal `#` stands before a digit. */
  predicate HashesAfterDigits(s: string) {
    forall i, j | 0 <= i < j < |s| :: s[i] == '#' ==> !IsAsciiDigit(s[j])
  }

  function CountHashes(s: string): nat {
    if s == "" then 0 else (if s[0] == '#' then 1 else 0) + CountHashes(s[1..])
  }

  lemma {:induction false} CountHashesSplit(a: string, b: string)
    ensures CountHashes(a + b) == CountHashes(a) + CountHashes(b)
  {
    if a == "" {
      assert a + b == b;
    } else {
      assert (a + b)[1..] == a[1..] + b;
      CountHashesSplit(a[1..], b);
    }
  }

  lemma {:induction false} NoHashes(s: string)
    requires forall i | 0 <= i < |s| :: s[i] != '#'
    ensures CountHashes(s) == 0
  {
    if s != "" {
      NoHashes(s[1..]);
    }
  }

  /** The shape of a scan, for every headword. */
  lemma {:induction false} ScanShape(s: string)
    ensures var r := ScanOf(s);
      && (forall i | 0 <= i < |r.template| :: !IsAsciiDigit(r.template[i]))
      && (forall run | run in r.runs :: run != "" && AllDigits(run))
      && CountHashes(r.template) == |r.runs| + CountHashes(s)
      && (r.runs == [] <==> forall i | 0 <= i < |s| :: !IsAsciiDigit(s[i]))
    decreases |s|
  {
    if s != "" {
      if IsAsciiDigit(s[0]) {
        var n := RunLength(s);
        ScanShape(s[n..]);
        assert s == s[..n] + s[n..];
        CountHashesSplit(s[..n], s[n..]);
        NoHashes(s[..n]);
        assert ScanOf(s).template[1..] == ScanOf(s[n..]).template;
      } else {
        ScanShape(s[1..]);
        assert ScanOf(s).template[1..] == ScanOf(s[1..]).template;
      }
    }
  }

  predicate NoAdjacentHashes(t: string) {
    forall i | 0 <= i < |t| - 1 :: !(t[i] == '#' && t[i + 1] == '#')
  }

  /** Without literal `#`, runs are separated: a template never has two markers in a row. */
  lemma {:induction false} ScanSeparatesRuns(s: string)
    requires '#' !in s
    ensures NoAdjacentHashes(ScanOf(s).template)
    ensures ScanOf(s).template != "" && ScanOf(s).template[0] == '#' ==> IsAsciiDigit(s[0])
    decreases |s|
  {
    if s != "" {
      var n := if IsAsciiDigit(s[0]) then RunLength(s) else 1;
      ScanSeparatesRuns(s[n..]);
      assert ScanOf(s).template[1..] == ScanOf(s[n..]).template;
      assert s[0] in s;
    }
  }

  function Refilled(s: Scanned): string {
    Refill(s.template, s.runs)
  }

  lemma RefillRun(s: string, n: nat)
    requires s != "" && IsAsciiDigit(s[0]) && n == RunLength(s)
    ensures Refilled(ScanOf(s)) == s[..n] + Refilled(ScanOf(s[n..]))
    ensures Refilled(ScanOf(s)) == s <==> Refilled(ScanOf(s[n..])) == s[n..]
  {
    hide RunLength;
    var r, tail := ScanOf(s), ScanOf(s[n..]);
    assert r.template[1..] == tail.template && r.runs[1..] == tail.runs;
    assert s == s[..n] + s[n..];
    assert (s[..n] + Refilled(tail))[n..] == Refilled(tail);
  }

  lemma RefillPlain(s: string)
    requires s != "" && !IsAsciiDigit(s[0]) && (s[0] == '#' ==> ScanOf(s[1..]).runs == [])
    ensures Refilled(ScanOf(s)) == [s[0]] + Refilled(ScanOf(s[1..]))
    ensures Refilled(ScanOf(s)) == s <==> Refilled(ScanOf(s[1..])) == s[1..]
  {
    var r, tail := ScanOf(s), ScanOf(s[1..]);
    assert r.template[1..] == tail.template && r.runs == tail.runs;
    assert s == [s[0]] + s[1..];
    assert ([s[0]] + Refilled(tail))[1..] == Refilled(tail);
  }

  /** A literal `#` takes the first run, which starts with a digit. */
  lemma RefillHash(s: string)
    requires s != "" && s[0] == '#' && ScanOf(s[1..]).runs != []
    ensures Refilled(ScanOf(s)) != s && !HashesAfterDigits(s)
  {
    var r, tail := ScanOf(s), ScanOf(s[1..]);
    ScanShape(s[1..]);
    assert tail.runs[0] in tail.runs;
    assert r.template[0] == '#' && r.runs == tail.runs;
    assert Refilled(r)[0] == tail.runs[0][0];
    var j :| 0 <= j < |s| - 1 && IsAsciiDigit(s[1..][j]);
    assert s[0] == '#' && IsAsciiDigit(s[j + 1]);
  }

  /** Refilling undoes scanning exactly when no literal `#` stands before a digit. */
  lemma {:induction false} RefillUndoesScan(s: string)
    ensures Refill(ScanOf(s).template, ScanOf(s).runs) == s <==> HashesAfterDigits(s)
    decreases |s|
  {
    hide ScanOf, Refill;
    if s == "" {
      NothingToRefill();
    } else if IsAsciiDigit(s[0]) {
      var n := RunLength(s);
      RefillRun(s, n);
      RefillUndoesScan(s[n..]);
      HashesInTail(s, n);
    } else {
      RefillUndoesScan(s[1..]);
      if s[0] == '#' && ScanOf(s[1..]).runs != [] {
        RefillHash(s);
      } else {
        RefillPlain(s);
        ScanShape(s[1..]);
        assert s[0] == '#' ==> forall j | 0 < j < |s| :: s[j] == s[1..][j - 1] && !IsAsciiDigit(s[j]);
        HashesInTail(s, 1);
      }
    }
  }

  lemma NothingToRefill()
    ensures Refill(ScanOf("").template, ScanOf("").runs) == "" && HashesAfterDigits("")
  {
  }

  lemma HashesInTail(s: string, n: nat)
    requires n <= |s|
    requires forall i, j | 0 <= i < n && i < j < |s| :: s[i] == '#' ==> !IsAsciiDigit(s[j])
    ensures HashesAfterDigits(s) <==> HashesAfterDigits(s[n..])
  {
    var t := s[n..];
    assert forall i | n <= i < |s| :: s[i] == t[i - n];
    if HashesAfterDigits(s) {
      forall i, j | 0 <= i < j < |t| ensures t[i] == '#' ==> !IsAsciiDigit(t[j]) {
        assert s[i + n] == t[i] && s[j + n] == t[j];
      }
    }
  }

  /** On headwords without literal `#`, template and runs determine the headword. */
  lemma ScanInjective(a: string, b: string)
    requires '#' !in a && '#' !in b && ScanOf(a) == ScanOf(b)
    ensures a == b
  {
    assert HashesAfterDigits(a) && HashesAfterDigits(b);
    RefillUndoesScan(a);
    RefillUndoesScan(b);
  }

  /** With a literal `#` they need not. */
  lemma ScanCollision()
    ensures ScanOf("1#") == ScanOf("#1")
  {
    assert "1#"[1..] == "#" && "#1"[1..] == "1" && "1"[1..] == "" && "#"[1..] == "";
    assert RunLength("1#") == 1 && RunLength("1") == 1;
    assert "1#"[..1] == "1" && "1"[..1] == "1";
    assert ScanOf("#") == Scanned("#", []) && ScanOf("1") == Scanned("#", ["1"]);
  }

  // ── Markers ─────────────────────────────────────────────────────────────────

  datatype NumType =
    | Raw | Zenkaku | KanjiPos | KanjiSeq | Daiji | Shogi
    | RomanUpperUnicode | RomanLowerUnicode | RomanUpperAscii | RomanLowerAscii | Circled

  function FromMarker(c: char): Option<NumType> {
    match c
    case '0' => Some(Raw)
    case '1' => Some(Zenkaku)
    case '2' => Some(KanjiPos)
    case '3' => Some(KanjiSeq)
    case '5' => Some(Daiji)
    case '9' => Some(Shogi)
    case '6' => Some(RomanUpperUnicode)
    case '7' => Some(RomanLowerUnicode)
    case 'a' => Some(RomanUpperAscii)
    case 'b' => Some(RomanLowerAscii)
    case 'c' => Some(Circled)
    case _ => None
  }

  const SYNTH_TYPES: seq<NumType> :=
    [Raw, Zenkaku, KanjiPos, KanjiSeq, Daiji, Shogi,
     RomanUpperUnicode, RomanLowerUnicode, RomanUpperAscii, RomanLowerAscii, Circled]

  /** The conversion of a digit string, taken as a parameter throughout. */
  type Conversion = (string, NumType) -> Option<string>

  /** The type of the marker that starts at the front of `word`, if there is one. */
  function MarkerAt(word: string): Option<NumType> {
    if |word| >= 2 && word[0] == '#' then FromMarker(word[1]) else None
  }

  predicate IsRecursiveMarker(word: string) {
    |word| >= 2 && word[0] == '#' && word[1] == '4'
  }

  function PrependTo(front: string, r: Option<string>): Option<string> {
    match r case None => None case Some(s) => Some(front + s)
  }

  /** Each known marker becomes the conversion of the next run; anything else stays. */
  function Expansion(word: string, runs: seq<string>, convert: Conversion): Option<string>
    decreases |word|
  {
    if word == "" then Some("")
    else match MarkerAt(word)
      case Some(ty) =>
        if runs == [] then None
        else (match convert(runs[0], ty)
              case None => None
              case Some(text) => PrependTo(text, Expansion(word[2..], runs[1..], convert)))
      case None => PrependTo([word[0]], Expansion(word[1..], runs, convert))
  }

  lemma PrependTwice(a: string, b: string, r: Option<string>)
    ensures PrependTo(a, PrependTo(b, r)) == PrependTo(a + b, r)
  {
    if r.Some? {
      assert a + (b + r.value) == a + b + r.value;
    }
  }

  /** `expand`. */
  method Expand(word: string, runs: seq<string>, convert: Conversion) returns (r: Option<string>)
    ensures r == Expansion(word, runs, convert)
  {
    var result := "";
    var rest := word;
    var runIndex := 0;
    assert PrependTo("", Expansion(word, runs, convert)) == Expansion(word, runs, convert) by {
      if Expansion(word, runs, convert).Some? {
        assert "" + Expansion(word, runs, convert).value == Expansion(word, runs, convert).value;
      }
    }
    while rest != ""
      invariant 0 <= runIndex <= |runs|
      invariant Expansion(word, runs, convert) == PrependTo(result, Expansion(rest, runs[runIndex..], convert))
      decreases |rest|
    {
      var marker := MarkerAt(rest);
      if marker.Some? {
        if runIndex >= |runs| { return None; }
        var digits := runs[runIndex];
        assert runs[runIndex..][1..] == runs[runIndex + 1..];
        runIndex := runIndex + 1;
        var converted := convert(digits, marker.value);
        if converted.None? { return None; }
        PrependTwice(result, converted.value, Expansion(rest[2..], runs[runIndex..], convert));
        result := result + converted.value;
        rest := rest[2..];
      } else {
        PrependTwice(result, [rest[0]], Expansion(rest[1..], runs[runIndex..], convert));
        result := result + [rest[0]];
        rest := rest[1..];
      }
    }
    assert result + "" == result;
    return Some(result);
  }

  // ── Recursive expansion ─────────────────────────────────────────────────────

  const MAX_RECURSIVE_EXPANSIONS: nat := 256

  function PrefixAll(r: string, ts: seq<string>): (res: seq<string>)
    ensures |res| == |ts|
    ensures forall i | 0 <= i < |ts| :: res[i] == r + ts[i]
  {
    if ts == [] then [] else [r + ts[0]] + PrefixAll(r, ts[1..])
  }

  /** Every element of `rs` followed by every element of `ts`, the first varying slowest. */
  function Cross(rs: seq<string>, ts: seq<string>): seq<string> {
    if rs == [] then [] else PrefixAll(rs[0], ts) + Cross(rs[1..], ts)
  }

  function Cap(s: seq<string>): seq<string> {
    if |s| <= MAX_RECURSIVE_EXPANSIONS then s else s[..MAX_RECURSIVE_EXPANSIONS]
  }

  /** What the front of a template stands for: a choice of texts, and what is left to expand. */
  datatype Piece = Failure | Choice(alternatives: seq<string>, word: string, runs: seq<string>)

  function NextPiece(word: string, runs: seq<string>, convert: Conversion, lookup: string -> seq<string>): (p: Piece)
    requires word != ""
    ensures p.Choice? ==> |p.word| < |word|
  {
    if IsRecursiveMarker(word) then
      if runs == [] || lookup(runs[0]) == [] then Failure
      else Choice(lookup(runs[0]), word[2..], runs[1..])
    else match MarkerAt(word)
      case Some(ty) =>
        if runs == [] || convert(runs[0], ty).None? then Failure
        else Choice([convert(runs[0], ty).value], word[2..], runs[1..])
      case None => Choice([[word[0]]], word[1..], runs)
  }

  /** All expansions, without any cap. */
  function Expansions(word: string, runs: seq<string>, convert: Conversion, lookup: string -> seq<string>): seq<string>
    decreases |word|
  {
    if word == "" then [""]
    else match NextPiece(word, runs, convert, lookup)
      case Failure => []
      case Choice(alternatives, rest, runs') => Cross(alternatives, Expansions(rest, runs', convert, lookup))
  }

  lemma {:induction false} CrossLength(rs: seq<string>, ts: seq<string>)
    ensures |Cross(rs, ts)| == |rs| * |ts|
  {
    if rs != [] {
      CrossLength(rs[1..], ts);
      assert |rs| * |ts| == |ts| + (|rs| - 1) * |ts|;
    }
  }

  lemma {:induction false} CrossSplit(a: seq<string>, b: seq<string>, ts: seq<string>)
    ensures Cross(a + b, ts) == Cross(a, ts) + Cross(b, ts)
  {
    if a == [] {
      assert a + b == b;
    } else {
      assert (a + b)[1..] == a[1..] + b;
      CrossSplit(a[1..], b, ts);
    }
  }

  lemma PrefixSplit(r: string, x: seq<string>, y: seq<string>)
    ensures PrefixAll(r, x + y) == PrefixAll(r, x) + PrefixAll(r, y)
  {
  }

  lemma PrefixTwice(r: string, b: string, c: seq<string>)
    ensures PrefixAll(r, PrefixAll(b, c)) == PrefixAll(r + b, c)
  {
    assert forall i | 0 <= i < |c| :: r + (b + c[i]) == r + b + c[i];
  }

  lemma {:induction false} PrefixCross(r: string, b: seq<string>, c: seq<string>)
    ensures Cross(PrefixAll(r, b), c) == PrefixAll(r, Cross(b, c))
  {
    if b != [] {
      PrefixCross(r, b[1..], c);
      assert PrefixAll(r, b)[1..] == PrefixAll(r, b[1..]);
      PrefixTwice(r, b[0], c);
      PrefixSplit(r, PrefixAll(b[0], c), Cross(b[1..], c));
    }
  }

  lemma {:induction false} CrossAssociative(a: seq<string>, b: seq<string>, c: seq<string>)
    ensures Cross(Cross(a, b), c) == Cross(a, Cross(b, c))
  {
    if a != [] {
      CrossAssociative(a[1..], b, c);
      CrossSplit(PrefixAll(a[0], b), Cross(a[1..], b), c);
      PrefixCross(a[0], b, c);
    }
  }

  /** Capping early loses nothing that a cap at the end would keep. */
  lemma CapEarly(rs: seq<string>, ts: seq<string>)
    ensures Cap(Cross(Cap(rs), ts)) == Cap(Cross(rs, ts))
  {
    if |rs| > MAX_RECURSIVE_EXPANSIONS {
      var kept, dropped := rs[..MAX_RECURSIVE_EXPANSIONS], rs[MAX_RECURSIVE_EXPANSIONS..];
      assert rs == kept + dropped;
      CrossSplit(kept, dropped, ts);
      CrossLength(kept, ts);
      CrossLength(dropped, ts);
      if ts != [] {
        assert |Cross(kept, ts)| >= MAX_RECURSIVE_EXPANSIONS;
        assert Cap(Cross(kept, ts)) == Cross(kept, ts)[..MAX_RECURSIVE_EXPANSIONS];
      } else {
        assert Cross(kept, ts) == [] && Cross(dropped, ts) == [];
      }
    }
  }

  lemma {:induction false} CrossUnit(rs: seq<string>)
    ensures Cross(rs, [""]) == rs
  {
    if rs != [] {
      CrossUnit(rs[1..]);
      assert rs[0] + "" == rs[0];
      assert PrefixAll(rs[0], [""]) == [rs[0]];
      assert rs == [rs[0]] + rs[1..];
    }
  }

  lemma UnitCross(ts: seq<string>)
    ensures Cross([""], ts) == ts
  {
    assert forall i | 0 <= i < |ts| :: "" + ts[i] == ts[i];
    assert PrefixAll("", ts) == ts;
  }

  /** The inner loop: one result with each alternative, until the list is full. */
  method ExtendCapped(before: seq<string>, result: string, alternatives: seq<string>) returns (r: seq<string>)
    requires |before| <= MAX_RECURSIVE_EXPANSIONS
    ensures r == Cap(before + PrefixAll(result, alternatives))
  {
    r := before;
    var j := 0;
    while j < |alternatives| && |r| < MAX_RECURSIVE_EXPANSIONS
      invariant 0 <= j <= |alternatives|
      invariant |r| <= MAX_RECURSIVE_EXPANSIONS
      invariant r == before + PrefixAll(result, alternatives)[..j]
    {
      r := r + [result + alternatives[j]];
      j := j + 1;
    }
  }

  lemma CapTwice(x: seq<string>, y: seq<string>)
    ensures Cap(Cap(x) + y) == Cap(x + y)
  {
  }

  /** The outer loop, which ends as soon as the cap is reached. */
  method CrossCapped(results: seq<string>, alternatives: seq<string>) returns (r: seq<string>)
    ensures r == Cap(Cross(results, alternatives))
  {
    r := [];
    var i := 0;
    assert [] + Cross(results, alternatives) == Cross(results, alternatives);
    while i < |results| && |r| < MAX_RECURSIVE_EXPANSIONS
      invariant 0 <= i <= |results|
      invariant |r| <= MAX_RECURSIVE_EXPANSIONS
      invariant Cap(Cross(results, alternatives)) == Cap(r + Cross(results[i..], alternatives))
    {
      assert results[i..][1..] == results[i + 1..];
      ghost var row, tail := PrefixAll(results[i], alternatives), Cross(results[i + 1..], alternatives);
      assert r + (row + tail) == r + row + tail;
      CapTwice(r + row, tail);
      r := ExtendCapped(r, results[i], alternatives);
      i := i + 1;
    }
  }

  /** `for r in &mut results { r.push_str(..) }`. */
  method AppendToAll(results: seq<string>, text: string) returns (r: seq<string>)
    ensures r == Cross(results, [text])
  {
    r := results;
    var i := 0;
    while i < |results|
      invariant 0 <= i <= |results| && |r| == |results|
      invariant forall k | 0 <= k < i :: r[k] == results[k] + text
      invariant forall k | i <= k < |results| :: r[k] == results[k]
    {
      r := r[i := r[i] + text];
      i := i + 1;
    }
    CrossWithOne(results, text);
  }

  lemma {:induction false} CrossWithOne(results: seq<string>, text: string)
    ensures |Cross(results, [text])| == |results|
    ensures forall k | 0 <= k < |results| :: Cross(results, [text])[k] == results[k] + text
  {
    if results != [] {
      CrossWithOne(results[1..], text);
    }
  }

  lemma CrossStep(results: seq<string>, alternatives: seq<string>, tail: seq<string>)
    ensures Cap(Cross(Cap(Cross(results, alternatives)), tail)) == Cap(Cross(results, Cross(alternatives, tail)))
  {
    CapEarly(Cross(results, alternatives), tail);
    CrossAssociative(results, alternatives, tail);
  }

  lemma {:induction false} CrossEmpty(rs: seq<string>)
    ensures Cross(rs, []) == []
  {
    if rs != [] {
      CrossEmpty(rs[1..]);
    }
  }

  /** What the results so far and the rest of the template still come to. */
  function Completed(
      results: seq<string>, word: string, runs: seq<string>, convert: Conversion, lookup: string -> seq<string>)
    : seq<string>
  {
    Cap(Cross(results, Expansions(word, runs, convert, lookup)))
  }

  lemma CompletedStart(word: string, runs: seq<string>, convert: Conversion, lookup: string -> seq<string>)
    ensures Completed([""], word, runs, convert, lookup) == Cap(Expansions(word, runs, convert, lookup))
  {
    hide Expansions, Cross;
    UnitCross(Expansions(word, runs, convert, lookup));
  }

  lemma CompletedEnd(results: seq<string>, runs: seq<string>, convert: Conversion, lookup: string -> seq<string>)
    requires |results| <= MAX_RECURSIVE_EXPANSIONS
    ensures Completed(results, "", runs, convert, lookup) == results
  {
    hide Cross;
    CrossUnit(results);
  }

  lemma CompletedFailure(
      results: seq<string>, word: string, runs: seq<string>, convert: Conversion, lookup: string -> seq<string>)
    requires word != "" && NextPiece(word, runs, convert, lookup).Failure?
    ensures Completed(results, word, runs, convert, lookup) == []
  {
    hide Cross, NextPiece;
    CrossEmpty(results);
  }

  lemma CompletedChoice(
      results: seq<string>, word: string, runs: seq<string>, convert: Conversion, lookup: string -> seq<string>, p: Piece)
    requires word != "" && p.Choice? && NextPiece(word, runs, convert, lookup) == p
    ensures Completed(results, word, runs, convert, lookup)
         == Completed(Cap(Cross(results, p.alternatives)), p.word, p.runs, convert, lookup)
  {
    hide Cross, NextPiece, Cap;
    CrossStep(results, p.alternatives, Expansions(p.word, p.runs, convert, lookup));
  }

  lemma CappedSize(results: seq<string>, alternatives: seq<string>)
    requires 0 < |results| <= MAX_RECURSIVE_EXPANSIONS && alternatives != []
    ensures 0 < |Cap(Cross(results, alternatives))| <= MAX_RECURSIVE_EXPANSIONS
    ensures |alternatives| == 1 ==> Cap(Cross(results, alternatives)) == Cross(results, alternatives)
  {
    hide Cross;
    CrossLength(results, alternatives);
  }

  lemma NextPieceShape(
      word: string, runs: seq<string>, runIndex: nat, convert: Conversion, lookup: string -> seq<string>)
    requires word != "" && runIndex <= |runs|
    ensures var p := NextPiece(word, runs[runIndex..], convert, lookup);
      if IsRecursiveMarker(word) then
        p == if runIndex == |runs| || lookup(runs[runIndex]) == [] then Failure
             else Choice(lookup(runs[runIndex]), word[2..], runs[runIndex + 1..])
      else match MarkerAt(word)
        case Some(ty) =>
          p == (if runIndex == |runs| || convert(runs[runIndex], ty).None? then Failure
                else Choice([convert(runs[runIndex], ty).value], word[2..], runs[runIndex + 1..]))
        case None => p == Choice([[word[0]]], word[1..], runs[runIndex..])
  {
    assert runIndex < |runs| ==> runs[runIndex..][1..] == runs[runIndex + 1..];
  }

  /** `expand_with_recursive_lookup`: the result list is capped after every `#4` marker, and yet it is
      exactly the front of the full list of expansions. */
  method ExpandWithRecursiveLookup(word: string, runs: seq<string>, convert: Conversion, lookup: string -> seq<string>)
    returns (results: seq<string>)
    ensures results == Cap(Expansions(word, runs, convert, lookup))
  {
    hide Completed, Expansions, Cross, Cap, PrefixAll, NextPiece, FromMarker;
    results := [""];
    var rest := word;
    var runIndex := 0;
    CompletedStart(word, runs, convert, lookup);
    assert runs[0..] == runs;
    while rest != ""
      invariant 0 <= runIndex <= |runs|
      invariant 0 < |results| <= MAX_RECURSIVE_EXPANSIONS
      invariant Cap(Expansions(word, runs, convert, lookup)) == Completed(results, rest, runs[runIndex..], convert, lookup)
      decreases |rest|
    {
      ghost var piece := NextPiece(rest, runs[runIndex..], convert, lookup);
      NextPieceShape(rest, runs, runIndex, convert, lookup);
      if piece.Failure? {
        CompletedFailure(results, rest, runs[runIndex..], convert, lookup);
      } else {
        CompletedChoice(results, rest, runs[runIndex..], convert, lookup, piece);
        CappedSize(results, piece.alternatives);
      }
      if IsRecursiveMarker(rest) {
        if runIndex >= |runs| { return []; }
        var run := runs[runIndex];
        runIndex := runIndex + 1;
        var alternatives := lookup(run);
        if alternatives == [] { return []; }
        results := CrossCapped(results, alternatives);
        rest := rest[2..];
      } else if MarkerAt(rest).Some? {
        var ty := MarkerAt(rest).value;
        if runIndex >= |runs| { return []; }
        var digits := runs[runIndex];
        runIndex := runIndex + 1;
        var converted := convert(digits, ty);
        if converted.None? { return []; }
        results := AppendToAll(results, converted.value);
        rest := rest[2..];
      } else {
        results := AppendToAll(results, [rest[0]]);
        rest := rest[1..];
      }
    }
    CompletedEnd(results, runs[runIndex..], convert, lookup);
  }

  /** The capped list is empty exactly when there is no expansion at all. */
  lemma CappedEmptiness(word: string, runs: seq<string>, convert: Conversion, lookup: string -> seq<string>)
    ensures Cap(Expansions(word, runs, convert, lookup)) == [] <==> Expansions(word, runs, convert, lookup) == []
  {
  }

  /** Expansions fail exactly when some marker on the way cannot be resolved. */
  ghost predicate Resolvable(word: string, runs: seq<string>, convert: Conversion, lookup: string -> seq<string>)
    decreases |word|
  {
    word == ""
    || var p := NextPiece(word, runs, convert, lookup);
       p.Choice? && Resolvable(p.word, p.runs, convert, lookup)
  }

  lemma {:induction false} EmptyMeansUnresolvable(
      word: string, runs: seq<string>, convert: Conversion, lookup: string -> seq<string>)
    ensures Expansions(word, runs, convert, lookup) == [] <==> !Resolvable(word, runs, convert, lookup)
    decreases |word|
  {
    if word != "" {
      var p := NextPiece(word, runs, convert, lookup);
      if p.Choice? {
        EmptyMeansUnresolvable(p.word, p.runs, convert, lookup);
        var tail := Expansions(p.word, p.runs, convert, lookup);
        CrossLength(p.alternatives, tail);
        if tail != [] {
          assert |p.alternatives| * |tail| >= 1;
        }
      }
    }
  }

  /** What it means that a template expands to a text: it splits into one alternative for each piece. */
  ghost predicate ExpandsTo(
      word: string, runs: seq<string>, convert: Conversion, lookup: string -> seq<string>, text: string)
    decreases |word|
  {
    if word == "" then text == ""
    else
      var p := NextPiece(word, runs, convert, lookup);
      p.Choice? && exists a | a in p.alternatives ::
        a <= text && ExpandsTo(p.word, p.runs, convert, lookup, text[|a|..])
  }

  lemma {:induction false} InCross(rs: seq<string>, ts: seq<string>, text: string)
    ensures text in Cross(rs, ts) <==> exists a | a in rs :: a <= text && text[|a|..] in ts
  {
    if rs != [] {
      InCross(rs[1..], ts, text);
      InPrefixAll(rs[0], ts, text);
      assert rs == [rs[0]] + rs[1..];
    }
  }

  lemma {:induction false} InPrefixAll(r: string, ts: seq<string>, text: string)
    ensures text in PrefixAll(r, ts) <==> r <= text && text[|r|..] in ts
  {
    if ts != [] {
      InPrefixAll(r, ts[1..], text);
      assert ts == [ts[0]] + ts[1..];
      assert (r + ts[0])[|r|..] == ts[0];
      if r <= text && text[|r|..] == ts[0] {
        assert text == r + ts[0];
      }
    }
  }

  /** The list of expansions holds exactly the texts that the template expands to. */
  lemma {:induction false} ExpansionsAreSound(
      word: string, runs: seq<string>, convert: Conversion, lookup: string -> seq<string>, text: string)
    ensures text in Expansions(word, runs, convert, lookup) <==> ExpandsTo(word, runs, convert, lookup, text)
    decreases |word|
  {
    if word != "" {
      var p := NextPiece(word, runs, convert, lookup);
      if p.Choice? {
        InCross(p.alternatives, Expansions(p.word, p.runs, convert, lookup), text);
        forall a | a in p.alternatives && a <= text
          ensures text[|a|..] in Expansions(p.word, p.runs, convert, lookup)
             <==> ExpandsTo(p.word, p.runs, convert, lookup, text[|a|..])
        {
          ExpansionsAreSound(p.word, p.runs, convert, lookup, text[|a|..]);
        }
      }
    }
  }

  predicate NoRecursiveMarkers(word: string) {
    forall i | 0 <= i <= |word| :: !IsRecursiveMarker(word[i..])
  }

  /** A word without `#4` expands to what `expand` gives, as a list of at most one element. */
  lemma {:induction false} WithoutRecursiveMarker(
      word: string, runs: seq<string>, convert: Conversion, lookup: string -> seq<string>)
    requires NoRecursiveMarkers(word)
    ensures Expansions(word, runs, convert, lookup)
         == match Expansion(word, runs, convert) { case None => [] case Some(s) => [s] }
    decreases |word|
  {
    if word != "" {
      assert !IsRecursiveMarker(word[0..]) && word[0..] == word;
      var p := NextPiece(word, runs, convert, lookup);
      if p.Choice? {
        var k := |word| - |p.word|;
        assert p.word == word[k..];
        assert forall i | 0 <= i <= |p.word| :: p.word[i..] == word[i + k..];
        WithoutRecursiveMarker(p.word, p.runs, convert, lookup);
        var text := p.alternatives[0];
        assert p.alternatives == [text];
        match Expansion(p.word, p.runs, convert) {
          case None => CrossEmpty([text]);
          case Some(s) => assert Cross([text], [s]) == [text + s];
        }
      }
    }
  }

  // ── Synthetic candidates ────────────────────────────────────────────────────

  /** Every run converted with one type; None as soon as one run cannot be. */
  function ConvertAll(runs: seq<string>, ty: NumType, convert: Conversion): Option<string> {
    if runs == [] then Some("")
    else match convert(runs[0], ty)
      case None => None
      case Some(text) => PrependTo(text, ConvertAll(runs[1..], ty, convert))
  }

  /** `synthesize`: one candidate for each type that can represent all runs, in the order of `types`. */
  function Synthesize(runs: seq<string>, types: seq<NumType>, convert: Conversion): seq<string> {
    if runs == [] || types == [] then []
    else
      var rest := Synthesize(runs, types[1..], convert);
      match ConvertAll(runs, types[0], convert)
      case None => rest
      case Some(text) => [text] + rest
  }

  lemma PrependNothing(r: Option<string>)
    ensures PrependTo("", r) == r
  {
    if r.Some? {
      assert "" + r.value == r.value;
    }
  }

  /** The inner loop of `synthesize`: all runs with one type. */
  method ConvertRuns(runs: seq<string>, ty: NumType, convert: Conversion) returns (r: Option<string>)
    ensures r == ConvertAll(runs, ty, convert)
  {
    var combined := "";
    PrependNothing(ConvertAll(runs, ty, convert));
    for i := 0 to |runs|
      invariant PrependTo(combined, ConvertAll(runs[i..], ty, convert)) == ConvertAll(runs, ty, convert)
    {
      assert runs[i..][1..] == runs[i + 1..];
      var part := convert(runs[i], ty);
      if part.None? { return None; }
      PrependTwice(combined, part.value, ConvertAll(runs[i + 1..], ty, convert));
      combined := combined + part.value;
    }
    assert combined + "" == combined;
    return Some(combined);
  }

  method SynthesizeWords(runs: seq<string>, types: seq<NumType>, convert: Conversion) returns (words: seq<string>)
    ensures words == Synthesize(runs, types, convert)
  {
    words := [];
    if runs == [] { return; }
    for i := 0 to |types|
      invariant words + Synthesize(runs, types[i..], convert) == Synthesize(runs, types, convert)
    {
      assert types[i..][1..] == types[i + 1..];
      var word := ConvertRuns(runs, types[i], convert);
      if word.Some? {
        words := words + [word.value];
      }
    }
  }
}
