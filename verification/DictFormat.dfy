/** The dictionary text format: candidate fields, entry lines, whole files, and writing them back. */
module DictFormat {
  import opened Text
  import opened Lisp
  import opened Dict

  // ── Candidate fields ────────────────────────────────────────────────────────

  function DecodeAnnotation(raw: string): string {
    match ParseConcat(raw)
    case Some(s) => s
    case None => raw
  }

  /** The form at the start of a field and what follows it: nothing, or `;annotation`. */
  function CutForm(field: string): (string, string) {
    match SexpEnd(field)
    case Some(end) => if end == |field| || field[end] == ';' then (field[..end], field[end..]) else (field, "")
    case None => (field, "")
  }

  function AnnotationOf(rest: string): Option<string> {
    if rest == "" then None else Some(DecodeAnnotation(rest[1..]))
  }

  function FormCandidate(sexp: string, annotation: Option<string>): Candidate {
    match ParseConcat(sexp)
    case Some(word) => Candidate(word, annotation, None)
    case None =>
      Candidate(sexp, annotation, match Classify(sexp) case Some(form) => Some(form) case None => Some(Unknown))
  }

  function PlainCandidate(field: string): Candidate {
    match Find(field, ';')
    case Some(semi) => Candidate(field[..semi], Some(DecodeAnnotation(field[semi + 1..])), None)
    case None => Candidate(field, None, None)
  }

  function ParseField(field: string): Candidate {
    if field != "" && field[0] == '(' then
      var (sexp, rest) := CutForm(field);
      FormCandidate(sexp, AnnotationOf(rest))
    else
      PlainCandidate(field)
  }

  function WordText(c: Candidate): string {
    match c.lispForm
    case Some(IgnoreDicWord(words)) => RenderIgnore(words)
    case Some(Unknown) => c.word
    case None => QuoteIfNeeded(c.word)
  }

  function AnnotationText(annotation: Option<string>): string {
    match annotation
    case Some(a) => ";" + QuoteIfNeeded(a)
    case None => ""
  }

  function RenderCandidate(c: Candidate): string {
    WordText(c) + AnnotationText(c.annotation)
  }

  /** A directive is written from its word list, so that is what its text becomes. */
  function Normal(c: Candidate): Candidate {
    match c.lispForm
    case Some(IgnoreDicWord(words)) => c.(word := RenderIgnore(words))
    case _ => c
  }

  /** An unquoted annotation that reads as a `concat` form without literals. */
  predicate BareConcat(a: string) {
    !NeedsQuoting(a)
    && match Unwrap(Trim(a), '(', ')')
       case Some(body) => Trim(body) == "concat"
       case None => false
  }

  /** An opaque form that reading leaves opaque and cuts at its end. */
  predicate OpaqueForm(word: string, annotated: bool) {
    && word != "" && word[0] == '('
    && ParseConcat(word).None? && ParseIgnoreDicWord(word).None?
    && var end := SexpEnd(word);
       if annotated then end == Some(|word|)
       else !(end.Some? && end.value < |word| && word[end.value] == ';')
  }

  predicate Survives(c: Candidate) {
    && (c.annotation.Some? ==> !BareConcat(c.annotation.value))
    && (c.lispForm == Some(Unknown) ==> OpaqueForm(c.word, c.annotation.Some?))
  }

  lemma {:induction false} ScanPrefix(x: string, y: string, depth: nat, mode: ScanMode)
    ensures SexpScan(x, depth, mode).Some? ==> SexpScan(x + y, depth, mode) == SexpScan(x, depth, mode)
    ensures SexpScan(x + y, depth, mode).Some? && SexpScan(x + y, depth, mode).value <= |x|
            ==> SexpScan(x, depth, mode) == SexpScan(x + y, depth, mode)
  {
    if x != "" {
      assert (x + y)[1..] == x[1..] + y;
      match mode {
        case Escaped => ScanPrefix(x[1..], y, depth, InString);
        case InString =>
          ScanPrefix(x[1..], y, depth, if x[0] == '\\' then Escaped else if x[0] == '"' then Outside else InString);
        case Outside =>
          if x[0] == '"' {
            ScanPrefix(x[1..], y, depth, InString);
          } else if x[0] == '(' {
            ScanPrefix(x[1..], y, depth + 1, Outside);
          } else if x[0] == ')' {
            if depth > 1 {
              ScanPrefix(x[1..], y, depth - 1, Outside);
            }
          } else {
            ScanPrefix(x[1..], y, depth, Outside);
          }
      }
    }
  }

  /** Without a quote character a list holds no literal, so only blanks are accepted. */
  lemma {:induction false} ListWithoutQuotes(s: string)
    requires '"' !in s
    ensures ParseList(s).Some? <==> forall i | 0 <= i < |s| :: IsAsciiWhitespace(s[i])
    ensures ParseList(s).Some? ==> ParseList(s).value == []
  {
    if s != "" && IsAsciiWhitespace(s[0]) {
      ListWithoutQuotes(s[1..]);
    }
  }

  /** After the head `concat`, text without literals is accepted only when there is none. */
  lemma HeadWithoutLiterals(inner: string)
    requires "concat" <= inner && '"' !in inner && !IsWhitespace(inner[|inner| - 1])
    ensures ParseList(TrimStart(inner[6..])) == (if inner == "concat" then Some([]) else None)
  {
    var rest := inner[6..];
    TrimStartIsSuffix(rest);
    SliceElements(rest, |rest| - |TrimStart(rest)|, |rest|);
    ListWithoutQuotes(TrimStart(rest));
    if rest == "" {
      assert inner == "concat";
    } else if TrimStart(rest) == "" {
      TrimStartOfBlank(rest);
      assert false;
    }
  }

  /** The exact reading of an unquoted text as `concat`: only the literal-free form is taken. */
  lemma UnquotedConcat(a: string)
    requires !NeedsQuoting(a)
    ensures ParseConcat(a) == (if BareConcat(a) then Some("") else None)
  {
    TrimIsSlice(a);
    var body := Unwrap(Trim(a), '(', ')');
    if body.Some? {
      SliceElements(Trim(a), 1, |Trim(a)| - 1);
      TrimIsSlice(body.value);
      var inner := Trim(body.value);
      if "concat" <= inner {
        HeadWithoutLiterals(inner);
      }
    }
  }

  lemma {:induction false} TrimStartOfBlank(s: string)
    requires TrimStart(s) == "" && s != ""
    ensures IsWhitespace(s[|s| - 1])
  {
    if |s| > 1 {
      TrimStartOfBlank(s[1..]);
    }
  }

  /** An annotation is read back exactly when it is not a bare `concat`. */
  lemma AnnotationRoundTrip(a: string)
    ensures DecodeAnnotation(QuoteIfNeeded(a)) == a <==> !BareConcat(a)
  {
    if NeedsQuoting(a) {
      QuoteConcatRoundTrip(a, "");
    } else {
      UnquotedConcat(a);
      assert BareConcat(a) ==> a != "";
    }
  }

  /** An annotation that does not come back: it is written as it stands and read as an empty `concat`. */
  lemma BareConcatExample()
    ensures BareConcat(" (concat)") && QuoteIfNeeded(" (concat)") == " (concat)" && DecodeAnnotation(" (concat)") == ""
  {
    var a := " (concat)";
    assert a[1..] == "(concat)";
    TrimNothing("(concat)");
    assert Trim(a) == Trim("(concat)") == "(concat)";
    assert Unwrap("(concat)", '(', ')') == Some("concat") by { assert "(concat)"[1..7] == "concat"; }
    TrimNothing("concat");
    UnquotedConcat(a);
  }

  /** A clean delimited form in front of an annotation is cut where it was glued. */
  lemma CutRendered(form: string, annotation: Option<string>)
    requires form != "" && form[0] == '('
    requires SexpEnd(form + AnnotationText(annotation)) == Some(|form|)
    ensures CutForm(form + AnnotationText(annotation)) == (form, AnnotationText(annotation))
  {
    var field := form + AnnotationText(annotation);
    assert field[..|form|] == form && field[|form|..] == AnnotationText(annotation);
  }

  lemma AnnotationTextRead(annotation: Option<string>)
    ensures annotation.Some? ==> AnnotationText(annotation)[1..] == QuoteIfNeeded(annotation.value)
    ensures AnnotationOf(AnnotationText(annotation)) == annotation
            <==> (annotation.Some? ==> !BareConcat(annotation.value))
  {
    if annotation.Some? {
      assert AnnotationText(annotation)[1..] == QuoteIfNeeded(annotation.value);
      AnnotationRoundTrip(annotation.value);
    }
  }

  lemma FindAfter(x: string, c: char, rest: string)
    requires c !in x
    ensures Find(x + [c] + rest, c) == Some(|x|)
  {
    var s := x + [c] + rest;
    assert s[|x|] == c && forall i | 0 <= i < |x| :: s[i] == x[i] && x[i] in x;
  }

  lemma ReadPlain(c: Candidate)
    requires c.lispForm.None? && !NeedsQuoting(c.word)
    ensures ParseField(RenderCandidate(c)) == Candidate(c.word, AnnotationOf(AnnotationText(c.annotation)), None)
  {
    var field := RenderCandidate(c);
    if c.annotation.Some? {
      var q := QuoteIfNeeded(c.annotation.value);
      assert field == c.word + [';'] + q;
      FindAfter(c.word, ';', q);
      assert field[..|c.word|] == c.word && field[|c.word| + 1..] == q;
      AnnotationTextRead(c.annotation);
    } else {
      assert field == c.word;
    }
  }

  lemma ReadQuoted(c: Candidate)
    requires c.lispForm.None? && NeedsQuoting(c.word)
    ensures ParseField(RenderCandidate(c)) == Candidate(c.word, AnnotationOf(AnnotationText(c.annotation)), None)
  {
    QuoteConcatRoundTrip(c.word, AnnotationText(c.annotation));
    CutRendered(QuoteConcat(c.word), c.annotation);
  }

  lemma ReadIgnore(c: Candidate)
    requires c.lispForm.Some? && c.lispForm.value.IgnoreDicWord?
    ensures ParseField(RenderCandidate(c))
         == Candidate(RenderIgnore(c.lispForm.value.words), AnnotationOf(AnnotationText(c.annotation)), c.lispForm)
  {
    var form := RenderIgnore(c.lispForm.value.words);
    RenderIgnoreRoundTrip(c.lispForm.value.words, AnnotationText(c.annotation));
    IgnoreIsForm(c.lispForm.value.words);
    CutRendered(form, c.annotation);
  }

  lemma ReadOpaque(c: Candidate)
    requires c.lispForm == Some(Unknown) && OpaqueForm(c.word, c.annotation.Some?)
    ensures ParseField(RenderCandidate(c)) == Candidate(c.word, AnnotationOf(AnnotationText(c.annotation)), c.lispForm)
  {
    if c.annotation.Some? {
      ScanPrefix(c.word, AnnotationText(c.annotation), 0, Outside);
      CutRendered(c.word, c.annotation);
    } else {
      assert RenderCandidate(c) == c.word;
      var end := SexpEnd(c.word);
      assert end.Some? ==> c.word[..|c.word|] == c.word;
    }
  }

  /** Only an opaque form is read back as one. */
  lemma OpaqueOnly(c: Candidate)
    requires c.lispForm == Some(Unknown) && ParseField(RenderCandidate(c)) == c
    ensures OpaqueForm(c.word, c.annotation.Some?)
  {
    var field := RenderCandidate(c);
    assert field != "" && field[0] == '(';
    var (sexp, rest) := CutForm(field);
    assert sexp == c.word;
    if c.annotation.Some? {
      assert rest != "";
      assert SexpEnd(field) == Some(|c.word|);
      ScanPrefix(c.word, AnnotationText(c.annotation), 0, Outside);
    } else {
      assert field == c.word;
    }
  }

  /** Writing a candidate and reading the field back normalises it, exactly for the surviving ones. */
  lemma FieldRoundTrip(c: Candidate)
    ensures ParseField(RenderCandidate(c)) == Normal(c) <==> Survives(c)
  {
    AnnotationTextRead(c.annotation);
    match c.lispForm {
      case None =>
        if NeedsQuoting(c.word) { ReadQuoted(c); } else { ReadPlain(c); }
      case Some(IgnoreDicWord(_)) => ReadIgnore(c);
      case Some(Unknown) =>
        if OpaqueForm(c.word, c.annotation.Some?) {
          ReadOpaque(c);
        } else if ParseField(RenderCandidate(c)) == c {
          OpaqueOnly(c);
        }
    }
  }

  // ── Entry lines ─────────────────────────────────────────────────────────────

  /** A trailing ASCII letter is the okurigana key unless the headword is all ASCII. */
  function SplitMidashi(raw: string): (string, Option<string>) {
    if raw != "" && IsAsciiAlphabetic(raw[|raw| - 1]) && !IsAscii(raw)
    then (raw[..|raw| - 1], Some(raw[|raw| - 1..]))
    else (raw, None)
  }

  function OkuriText(okuri: Option<string>): string {
    match okuri
    case Some(key) => key
    case None => ""
  }

  /** The keys that the line format can tell apart. */
  predicate Recoverable(midashi: string, okuri: Option<string>) {
    match okuri
    case None => midashi == "" || !IsAsciiAlphabetic(midashi[|midashi| - 1]) || IsAscii(midashi)
    case Some(key) => |key| == 1 && IsAsciiAlphabetic(key[0]) && !IsAscii(midashi)
  }

  lemma SplitRoundTrip(midashi: string, okuri: Option<string>)
    ensures SplitMidashi(midashi + OkuriText(okuri)) == (midashi, okuri) <==> Recoverable(midashi, okuri)
  {
    var raw := midashi + OkuriText(okuri);
    match okuri {
      case None =>
        assert raw == midashi;
      case Some(key) =>
        if |key| == 1 {
          assert raw[..|raw| - 1] == midashi && raw[|raw| - 1..] == key;
          assert IsAsciiAlphabetic(key[0]) ==> (IsAscii(raw) <==> IsAscii(midashi)) by {
            assert forall i | 0 <= i < |midashi| :: raw[i] == midashi[i];
          }
        }
    }
  }

  /** A headword that does not come back: its last letter is taken for an okurigana key. */
  lemma LetterExample()
    ensures SplitMidashi("かa" + OkuriText(None)) == ("か", Some("a")) && !Recoverable("かa", None)
  {
    var raw := "かa" + OkuriText(None);
    assert raw == "かa" && raw[..1] == "か" && raw[1..] == "a";
    assert !IsAscii(raw) by { assert raw[0] >= '\U{0080}'; }
  }

  /** `str::split` on one character. */
  function SplitOn(s: string, c: char): (r: seq<string>)
    ensures r != []
    decreases |s|
  {
    match Find(s, c)
    case None => [s]
    case Some(k) => [s[..k]] + SplitOn(s[k + 1..], c)
  }

  /** Empty fields are skipped; a field whose word is empty makes the line an error. */
  function ParseFields(fields: seq<string>): Option<seq<Candidate>> {
    if fields == [] then Some([])
    else if fields[0] == "" then ParseFields(fields[1..])
    else
      var c := ParseField(fields[0]);
      if c.word == "" then None
      else match ParseFields(fields[1..])
        case None => None
        case Some(more) => Some([c] + more)
  }

  /** The first position of ` /`. */
  function FindSeparator(s: string): (r: Option<nat>)
    ensures r.Some? ==> r.value + 2 <= |s|
  {
    if |s| < 2 then None
    else if s[0] == ' ' && s[1] == '/' then Some(0)
    else match FindSeparator(s[1..])
      case None => None
      case Some(k) => Some(k + 1)
  }

  datatype Row = Row(midashi: string, okuri: Option<string>, candidates: seq<Candidate>)

  datatype LineResult = Skipped | NoSeparator | NoWord | Parsed(row: Row)

  function ParseLine(line: string): LineResult {
    if line != "" && line[0] == ';' then Skipped
    else
      var t := Trim(line);
      if t == "" then Skipped
      else match FindSeparator(t)
        case None => NoSeparator
        case Some(k) =>
          var (midashi, okuri) := SplitMidashi(t[..k]);
          match ParseFields(SplitOn(t[k + 2..], '/'))
          case None => NoWord
          case Some(candidates) => Parsed(Row(midashi, okuri, candidates))
  }

  function RenderAll(cs: seq<Candidate>): (r: seq<string>)
    ensures |r| == |cs|
  {
    if cs == [] then [] else [RenderCandidate(cs[0])] + RenderAll(cs[1..])
  }

  function NormalAll(cs: seq<Candidate>): (r: seq<Candidate>)
    ensures |r| == |cs|
  {
    if cs == [] then [] else [Normal(cs[0])] + NormalAll(cs[1..])
  }

  function RenderRow(r: Row): string {
    r.midashi + OkuriText(r.okuri) + " /" + Join(RenderAll(r.candidates), "/") + "/"
  }

  /** A candidate that a field can carry: it comes back, and it does not end the field. */
  predicate FieldSafe(c: Candidate) {
    Normal(c).word != "" && (c.lispForm == Some(Unknown) ==> '/' !in c.word)
  }

  /** A candidate that a line can carry. */
  predicate Writable(c: Candidate) {
    FieldSafe(c) && Survives(c) && StaysInLine(c)
  }

  /** A headword that is found again in front of its fields. */
  predicate WritableHead(midashi: string, okuri: Option<string>) {
    && midashi != "" && !IsWhitespace(midashi[0]) && midashi[0] != ';'
    && FindSeparator(midashi).None?
    && Recoverable(midashi, okuri)
  }

  predicate WritableRow(r: Row) {
    WritableHead(r.midashi, r.okuri) && '\n' !in r.midashi && forall c | c in r.candidates :: Writable(c)
  }

  lemma QuoteIfNeededIsClean(s: string)
    ensures Clean(QuoteIfNeeded(s))
  {
    QuoteConcatIsClean(s);
  }

  /** A candidate whose field holds no newline. */
  predicate StaysInLine(c: Candidate) {
    c.lispForm == Some(Unknown) ==> '\n' !in c.word
  }

  lemma RenderedStaysInLine(c: Candidate)
    requires StaysInLine(c)
    ensures '\n' !in RenderCandidate(c)
  {
    QuoteIfNeededIsClean(c.word);
    if c.annotation.Some? {
      QuoteIfNeededIsClean(c.annotation.value);
    }
    if c.lispForm.Some? && c.lispForm.value.IgnoreDicWord? {
      RenderIgnoreRoundTrip(c.lispForm.value.words, "");
    }
  }

  lemma {:induction false} FieldsStayInLine(cs: seq<Candidate>)
    requires forall c | c in cs :: StaysInLine(c)
    ensures '\n' !in Join(RenderAll(cs), "/")
  {
    hide RenderCandidate, StaysInLine;
    if cs != [] {
      RenderedStaysInLine(cs[0]);
      assert cs == [cs[0]] + cs[1..];
      assert RenderAll(cs)[0] == RenderCandidate(cs[0]) && RenderAll(cs)[1..] == RenderAll(cs[1..]);
      FieldsStayInLine(cs[1..]);
    }
  }

  lemma RowStaysInLine(r: Row)
    requires '\n' !in r.midashi && Recoverable(r.midashi, r.okuri) && forall c | c in r.candidates :: StaysInLine(c)
    ensures '\n' !in RenderRow(r)
  {
    hide Join, RenderAll, StaysInLine;
    FieldsStayInLine(r.candidates);
  }

  /** A written candidate stays inside its field. */
  lemma RenderedStaysInField(c: Candidate)
    requires FieldSafe(c)
    ensures RenderCandidate(c) != "" && '/' !in RenderCandidate(c)
  {
    QuoteIfNeededIsClean(c.word);
    if c.annotation.Some? {
      QuoteIfNeededIsClean(c.annotation.value);
    }
    if c.lispForm.Some? && c.lispForm.value.IgnoreDicWord? {
      RenderIgnoreRoundTrip(c.lispForm.value.words, "");
    }
  }

  lemma SplitOnAfter(x: string, c: char, rest: string)
    requires c !in x
    ensures SplitOn(x + [c] + rest, c) == [x] + SplitOn(rest, c)
  {
    FindAfter(x, c, rest);
    var s := x + [c] + rest;
    assert s[..|x|] == x && s[|x| + 1..] == rest;
  }

  /** The fields of written candidates: one each, and the empty one after the last slash. */
  lemma {:induction false} FieldsOfRendered(cs: seq<Candidate>)
    requires forall c | c in cs :: FieldSafe(c)
    ensures SplitOn(Join(RenderAll(cs), "/") + "/", '/') == if cs == [] then ["", ""] else RenderAll(cs) + [""]
  {
    hide FieldSafe, RenderCandidate;
    assert SplitOn("", '/') == [""];
    if cs == [] {
      assert "" + ['/'] + "" == "/";
      SplitOnAfter("", '/', "");
    } else {
      var x := RenderCandidate(cs[0]);
      RenderedStaysInField(cs[0]);
      if |cs| == 1 {
        assert RenderAll(cs) == [x] && Join([x], "/") + "/" == x + ['/'] + "";
        SplitOnAfter(x, '/', "");
      } else {
        var rest := Join(RenderAll(cs[1..]), "/") + "/";
        assert RenderAll(cs) == [x] + RenderAll(cs[1..]) && RenderAll(cs)[1..] == RenderAll(cs[1..]);
        assert Join(RenderAll(cs), "/") + "/" == x + ['/'] + rest;
        SplitOnAfter(x, '/', rest);
        FieldsOfRendered(cs[1..]);
      }
    }
  }

  /** Non-empty fields are read one by one. */
  lemma {:induction false} FieldsRead(cs: seq<Candidate>)
    requires forall c | c in cs :: FieldSafe(c)
    ensures ParseFields(RenderAll(cs) + [""]) == Some(NormalAll(cs)) <==> forall c | c in cs :: Survives(c)
  {
    hide FieldSafe, RenderCandidate, ParseField, Survives, Normal;
    if cs == [] {
      NoFields();
    } else {
      var x, fields := RenderCandidate(cs[0]), RenderAll(cs) + [""];
      RenderedStaysInField(cs[0]);
      FieldRoundTrip(cs[0]);
      SafeWord(cs[0]);
      FieldsRead(cs[1..]);
      assert fields[0] == x && fields[1..] == RenderAll(cs[1..]) + [""];
      assert NormalAll(cs) == [Normal(cs[0])] + NormalAll(cs[1..]);
      assert cs == [cs[0]] + cs[1..];
      if ParseFields(fields[1..]).Some? {
        ConsEqual(ParseField(x), ParseFields(fields[1..]).value, Normal(cs[0]), NormalAll(cs[1..]));
      }
    }
  }

  lemma ConsEqual(a: Candidate, x: seq<Candidate>, b: Candidate, y: seq<Candidate>)
    ensures [a] + x == [b] + y <==> a == b && x == y
  {
    assert ([a] + x)[1..] == x && ([b] + y)[1..] == y && ([a] + x)[0] == a && ([b] + y)[0] == b;
  }

  lemma SafeWord(c: Candidate)
    requires FieldSafe(c)
    ensures Normal(c).word != ""
  {
  }

  /** Whatever the fields are, no candidate without a word is read, and no opaque one with a slash. */
  lemma {:induction false} ReadIsSafe(fields: seq<string>, c: Candidate)
    requires forall f | f in fields :: '/' !in f
    requires ParseFields(fields).Some? && c in ParseFields(fields).value
    ensures c.word != "" && (c.lispForm == Some(Unknown) ==> '/' !in c.word)
  {
    hide ParseField;
    if fields[0] != "" && c == ParseField(fields[0]) {
      FieldHoldsForm(fields[0]);
    } else {
      ReadIsSafe(fields[1..], c);
    }
  }

  lemma FieldHoldsForm(field: string)
    ensures ParseField(field).lispForm == Some(Unknown) ==> forall x | x in ParseField(field).word :: x in field
  {
  }

  lemma {:induction false} SplitOnHoldsNone(s: string, c: char)
    ensures forall f | f in SplitOn(s, c) :: c !in f
    decreases |s|
  {
    if Find(s, c).Some? {
      SplitOnHoldsNone(s[Find(s, c).value + 1..], c);
    }
  }

  /** The candidates of a line come back exactly when a field can carry each of them. */
  lemma FieldsRoundTrip(cs: seq<Candidate>)
    ensures ParseFields(SplitOn(Join(RenderAll(cs), "/") + "/", '/')) == Some(NormalAll(cs))
       <==> forall c | c in cs :: FieldSafe(c) && Survives(c)
  {
    hide RenderAll, Join, SplitOn, ParseFields, Survives, Normal;
    var fields := SplitOn(Join(RenderAll(cs), "/") + "/", '/');
    if forall c | c in cs :: FieldSafe(c) {
      FieldsOfRendered(cs);
      FieldsRead(cs);
      NoFields();
    } else {
      var c :| c in cs && !FieldSafe(c);
      if ParseFields(fields) == Some(NormalAll(cs)) {
        var i :| 0 <= i < |cs| && cs[i] == c;
        NormalAt(cs, i);
        SplitOnHoldsNone(Join(RenderAll(cs), "/") + "/", '/');
        ReadIsSafe(fields, Normal(c));
        NormalIsSafe(c);
      }
    }
  }

  lemma NoFields()
    ensures ParseFields(["", ""]) == Some([]) == ParseFields([""]) && RenderAll([]) == [] && NormalAll([]) == []
    ensures RenderAll([]) + [""] == [""]
  {
    assert ParseFields([""]) == ParseFields([]);
    assert ParseFields(["", ""]) == ParseFields([""]);
  }

  lemma NormalIsSafe(c: Candidate)
    requires Normal(c).word != "" && (Normal(c).lispForm == Some(Unknown) ==> '/' !in Normal(c).word)
    ensures FieldSafe(c)
  {
  }

  lemma {:induction false} NormalAt(cs: seq<Candidate>, i: nat)
    requires i < |cs|
    ensures NormalAll(cs)[i] == Normal(cs[i])
  {
    if i > 0 {
      NormalAt(cs[1..], i - 1);
    }
  }

  lemma {:induction false} SeparatorAfter(raw: string, rest: string)
    requires FindSeparator(raw).None?
    ensures FindSeparator(raw + " /" + rest) == Some(|raw|)
  {
    var s := raw + " /" + rest;
    if raw != "" {
      assert s[1..] == raw[1..] + " /" + rest;
      SeparatorAfter(raw[1..], rest);
    }
  }

  /** An okurigana letter cannot complete a separator. */
  lemma {:induction false} NoSeparatorInKey(midashi: string, key: string)
    requires FindSeparator(midashi).None? && |key| == 1 && key[0] != '/'
    ensures FindSeparator(midashi + key).None?
  {
    if |midashi| > 1 {
      assert (midashi + key)[1..] == midashi[1..] + key;
      NoSeparatorInKey(midashi[1..], key);
    } else if |midashi| == 1 {
      assert (midashi + key)[1..] == key;
    }
  }

  /** The separator of a written line is the one after its headword, if there is none inside. */
  lemma {:induction false} SeparatorInside(raw: string, rest: string)
    requires FindSeparator(raw).Some?
    ensures FindSeparator(raw + " /" + rest).Some? && FindSeparator(raw + " /" + rest).value < |raw|
  {
    var s := raw + " /" + rest;
    if !(raw[0] == ' ' && raw[1] == '/') {
      assert s[1..] == raw[1..] + " /" + rest;
      SeparatorInside(raw[1..], rest);
    }
  }

  /** No separator begins before the first one. */
  lemma {:induction false} SeparatorIsFirst(s: string, k: nat)
    requires k <= |s| && (FindSeparator(s).Some? ==> k <= FindSeparator(s).value)
    ensures FindSeparator(s[..k]).None?
  {
    if k >= 2 {
      assert s[..k][1..] == s[1..][..k - 1];
      SeparatorIsFirst(s[1..], k - 1);
    }
  }

  /** What stands in front of a separator splits into a headword without one. */
  lemma SplitIsRecoverable(raw: string)
    ensures var (m, o) := SplitMidashi(raw); m + OkuriText(o) == raw && Recoverable(m, o) && m <= raw
    ensures raw != "" ==> SplitMidashi(raw).0 != ""
    ensures FindSeparator(raw).None? ==> FindSeparator(SplitMidashi(raw).0).None?
  {
    var (m, o) := SplitMidashi(raw);
    assert m + OkuriText(o) == raw;
    SplitRoundTrip(m, o);
    if FindSeparator(raw).None? {
      SeparatorIsFirst(raw, |m|);
    }
  }

  /** The part of a line before the separator. */
  lemma RawRoundTrip(midashi: string, okuri: Option<string>)
    requires FindSeparator(midashi).None? && Recoverable(midashi, okuri)
    ensures var raw := midashi + OkuriText(okuri);
      FindSeparator(raw).None? && SplitMidashi(raw) == (midashi, okuri)
  {
    if okuri.Some? {
      NoSeparatorInKey(midashi, okuri.value);
    } else {
      assert midashi + "" == midashi;
    }
    SplitRoundTrip(midashi, okuri);
  }

  lemma LineIsTrimmed(line: string)
    requires line != "" && !IsWhitespace(line[0]) && !IsWhitespace(line[|line| - 1])
    ensures Trim(line) == line
  {
    TrimNothing(line);
  }

  /** A line that starts with neither a blank nor a semicolon, by its separator. */
  lemma ReadLine(line: string, k: nat)
    requires line != "" && !IsWhitespace(line[0]) && !IsWhitespace(line[|line| - 1]) && line[0] != ';'
    requires FindSeparator(line) == Some(k)
    ensures var head, fields := SplitMidashi(line[..k]), ParseFields(SplitOn(line[k + 2..], '/'));
      ParseLine(line) == if fields.None? then NoWord else Parsed(Row(head.0, head.1, fields.value))
  {
    hide Trim, FindSeparator, ParseFields, SplitOn, SplitMidashi, IsWhitespace;
    LineIsTrimmed(line);
  }

  /** A line read as a row has a headword that a line can carry, but for a leading semicolon. */
  lemma ReadHead(line: string)
    requires ParseLine(line).Parsed?
    ensures var r := ParseLine(line).row;
      && r.midashi != "" && !IsWhitespace(r.midashi[0]) && FindSeparator(r.midashi).None?
      && Recoverable(r.midashi, r.okuri) && forall c | c in r.midashi :: c in line
  {
    hide ParseFields, SplitOn, SplitMidashi, FindSeparator, Trim, IsWhitespace;
    var t := Trim(line);
    TrimIsSlice(line);
    var k := FindSeparator(t).value;
    SeparatorStart(t);
    SeparatorIsFirst(t, k);
    SplitIsRecoverable(t[..k]);
    SliceElements(t, 0, k);
    assert t[0..k] == t[..k];
  }

  lemma SeparatorStart(t: string)
    requires t != "" && !IsWhitespace(t[0])
    ensures FindSeparator(t) != Some(0)
  {
  }

  /** A line is read back as its row, with directives normalised, exactly when it can carry the headword and every
      candidate. */
  lemma RowRoundTrip(r: Row)
    ensures ParseLine(RenderRow(r)) == Parsed(Row(r.midashi, r.okuri, NormalAll(r.candidates)))
       <==> WritableHead(r.midashi, r.okuri) && forall c | c in r.candidates :: FieldSafe(c) && Survives(c)
  {
    hide ParseLine, FindSeparator, SplitMidashi, RenderAll, Join, ParseFields, SplitOn, IsWhitespace, FieldSafe, Survives;
    var raw := r.midashi + OkuriText(r.okuri);
    var fields := Join(RenderAll(r.candidates), "/") + "/";
    var line := RenderRow(r);
    assert line == raw + " /" + fields;
    FieldsRoundTrip(r.candidates);
    if r.midashi != "" && !IsWhitespace(r.midashi[0]) && r.midashi[0] != ';' {
      SlashIsNoBlank();
      if FindSeparator(raw).None? {
        SeparatorAfter(raw, fields);
        ReadLine(line, |raw|);
        assert line[..|raw|] == raw && line[|raw| + 2..] == fields;
        SplitRoundTrip(r.midashi, r.okuri);
        SplitIsRecoverable(raw);
      } else {
        SeparatorInside(raw, fields);
        RowIsCutShort(r, FindSeparator(line).value);
      }
      if FindSeparator(r.midashi).None? && Recoverable(r.midashi, r.okuri) {
        RawRoundTrip(r.midashi, r.okuri);
      }
    } else {
      HeadIsLost(r);
    }
  }

  lemma SlashIsNoBlank()
    ensures !IsWhitespace('/')
  {
  }

  /** A separator inside the headword cuts the row short. */
  lemma RowIsCutShort(r: Row, k: nat)
    requires r.midashi != "" && !IsWhitespace(r.midashi[0]) && r.midashi[0] != ';'
    requires FindSeparator(RenderRow(r)) == Some(k) && k < |r.midashi + OkuriText(r.okuri)|
    ensures ParseLine(RenderRow(r)) != Parsed(Row(r.midashi, r.okuri, NormalAll(r.candidates)))
  {
    hide ParseLine, FindSeparator, SplitMidashi, RenderAll, Join, ParseFields, SplitOn, IsWhitespace;
    var line := RenderRow(r);
    SlashIsNoBlank();
    ReadLine(line, k);
    SplitIsRecoverable(line[..k]);
  }

  /** A row whose headword is empty or starts with a blank or a semicolon is not read back. */
  lemma HeadIsLost(r: Row)
    requires r.midashi == "" || IsWhitespace(r.midashi[0]) || r.midashi[0] == ';'
    ensures ParseLine(RenderRow(r)) != Parsed(Row(r.midashi, r.okuri, NormalAll(r.candidates)))
  {
    hide FindSeparator, SplitMidashi, RenderAll, Join, ParseFields, SplitOn, Trim, IsWhitespace;
    if ParseLine(RenderRow(r)).Parsed? {
      ReadHead(RenderRow(r));
    }
  }

  /** A written line holds no newline and ends in a slash. */
  lemma RowIsOneLine(r: Row)
    requires WritableRow(r)
    ensures '\n' !in RenderRow(r) && RenderRow(r)[|RenderRow(r)| - 1] == '/'
  {
    hide Join, RenderAll;
    forall c | c in r.candidates ensures StaysInLine(c) {
      assert Writable(c);
    }
    RowStaysInLine(r);
  }

  /** Abbreviated input that starts with a semicolon is learned under such a headword: the line reads as a comment. */
  lemma CommentExample(cs: seq<Candidate>)
    ensures !WritableHead(";a", None) && ParseLine(RenderRow(Row(";a", None, cs))) == Skipped
  {
    assert RenderRow(Row(";a", None, cs))[0] == ';';
  }

  // ── Whole files ─────────────────────────────────────────────────────────────

  function StripCarriageReturn(line: string): string {
    if line != "" && line[|line| - 1] == '\r' then line[..|line| - 1] else line
  }

  /** `str::lines`. */
  function Lines(text: string): seq<string> {
    if text == "" then []
    else match Find(text, '\n')
      case None => [text]
      case Some(k) => [StripCarriageReturn(text[..k])] + Lines(text[k + 1..])
  }

  /** What one more line does to the map read so far. */
  function ParseStep(es: seq<Entry>, line: string, number: nat): Result<seq<Entry>, DictError> {
    match ParseLine(line)
    case Skipped => Ok(es)
    case NoSeparator => Err(MissingSeparator(number))
    case NoWord => Err(EmptyWord(number))
    case Parsed(row) => Ok(AddTo(es, row.midashi, row.okuri, row.candidates))
  }

  /** Reads `lines`, the first of which is line `number`, on top of `es`; the first bad line ends it. */
  function ParseLines(lines: seq<string>, number: nat, es: seq<Entry>): Result<seq<Entry>, DictError> {
    if lines == [] then Ok(es)
    else match ParseStep(es, lines[0], number)
      case Err(e) => Err(e)
      case Ok(next) => ParseLines(lines[1..], number + 1, next)
  }

  function ParseText(text: string): Result<seq<Entry>, DictError> {
    ParseLines(Lines(text), 1, [])
  }

  /** One line at the front of what is left. */
  lemma ParseLinesStep(lines: seq<string>, i: nat, es: seq<Entry>)
    requires i < |lines|
    ensures ParseLines(lines[i..], i + 1, es)
         == match ParseStep(es, lines[i], i + 1) {
              case Err(e) => Err(e)
              case Ok(next) => ParseLines(lines[i + 1..], i + 2, next)
            }
  {
    hide ParseStep;
    assert lines[i..][1..] == lines[i + 1..];
  }

  /** `parse_skk_dict_ordered`: one line after the other into an insertion-ordered map. */
  method ParseSkkDictOrdered(text: string) returns (r: Result<seq<Entry>, DictError>)
    ensures r == ParseText(text)
  {
    hide ParseLines, Lines, Trim, FindSeparator, SplitMidashi, ParseFields, SplitOn, AddTo;
    var entries: seq<Entry> := [];
    var lines := Lines(text);
    var i := 0;
    assert lines[0..] == lines;
    while i < |lines|
      invariant 0 <= i <= |lines|
      invariant ParseText(text) == ParseLines(lines[i..], i + 1, entries)
    {
      ParseLinesStep(lines, i, entries);
      var line := lines[i];
      var lineNumber := i + 1;
      i := i + 1;
      if line != "" && line[0] == ';' { continue; }
      var trimmed := Trim(line);
      if trimmed == "" { continue; }
      var separator := FindSeparator(trimmed);
      if separator.None? { return Err(MissingSeparator(lineNumber)); }
      var midashi, okuri := SplitMidashi(trimmed[..separator.value]).0, SplitMidashi(trimmed[..separator.value]).1;
      var candidates := ParseFields(SplitOn(trimmed[separator.value + 2..], '/'));
      if candidates.None? { return Err(EmptyWord(lineNumber)); }
      entries := AddTo(entries, midashi, okuri, candidates.value);
    }
    assert lines[i..] == [];
    NoLines(i + 1, entries);
    return Ok(entries);
  }

  lemma NoLines(number: nat, es: seq<Entry>)
    ensures ParseLines([], number, es) == Ok(es)
  {
  }

  const HEADER := ";; y2skk user dictionary"
  const OKURI_ARI := ";;; okuri-ari entries."
  const OKURI_NASI := ";;; okuri-nasi entries."

  /** The layout of a saved file: two header lines, a section, its separator line, a section. */
  function Layout(h1: string, h2: string, ari: seq<string>, h3: string, nasi: seq<string>): string {
    h1 + "\n" + (h2 + "\n" + (Join(ari, "\n") + "\n" + (h3 + "\n" + (Join(nasi, "\n") + "\n" + ""))))
  }

  function TextOf(ari: seq<string>, nasi: seq<string>): string {
    Layout(HEADER, OKURI_ARI, ari, OKURI_NASI, nasi)
  }

  predicate IsLine(x: string) {
    '\n' !in x && (x == "" || x[|x| - 1] != '\r')
  }

  lemma LinesAfter(x: string, rest: string)
    requires IsLine(x)
    ensures Lines(x + "\n" + rest) == [x] + Lines(rest)
  {
    var s := x + ['\n'] + rest;
    FindAfter(x, '\n', rest);
    assert s[..|x|] == x && s[|x| + 1..] == rest;
  }

  function OrBlank(lines: seq<string>): seq<string> {
    if lines == [] then [""] else lines
  }

  lemma Regroup(a: string, b: string, c: string, d: string, e: string)
    ensures (a + b + c) + d + e == a + b + (c + d + e)
  {
  }

  lemma JoinCons(xs: seq<string>, rest: string)
    ensures |xs| <= 1 ==> Join(xs, "\n") == if xs == [] then "" else xs[0]
    ensures |xs| > 1 ==> Join(xs, "\n") + "\n" + rest == xs[0] + "\n" + (Join(xs[1..], "\n") + "\n" + rest)
  {
    if |xs| > 1 {
      Regroup(xs[0], "\n", Join(xs[1..], "\n"), "\n", rest);
    }
  }

  lemma {:induction false} LinesAfterJoin(xs: seq<string>, rest: string)
    requires forall x | x in xs :: IsLine(x)
    ensures Lines(Join(xs, "\n") + "\n" + rest) == OrBlank(xs) + Lines(rest)
  {
    hide Lines, Join;
    JoinCons(xs, rest);
    if |xs| <= 1 {
      LinesAfter(if xs == [] then "" else xs[0], rest);
      assert xs == [] || xs == [xs[0]];
    } else {
      LinesAfter(xs[0], Join(xs[1..], "\n") + "\n" + rest);
      LinesAfterJoin(xs[1..], rest);
      assert xs == [xs[0]] + xs[1..];
    }
  }

  lemma LinesOfLayout(h1: string, h2: string, ari: seq<string>, h3: string, nasi: seq<string>)
    requires IsLine(h1) && IsLine(h2) && IsLine(h3)
    requires forall x | x in ari :: IsLine(x)
    requires forall x | x in nasi :: IsLine(x)
    ensures Lines(Layout(h1, h2, ari, h3, nasi)) == [h1] + ([h2] + (OrBlank(ari) + ([h3] + OrBlank(nasi))))
  {
    var s4 := Join(nasi, "\n") + "\n" + "";
    var s3 := h3 + "\n" + s4;
    var s2 := Join(ari, "\n") + "\n" + s3;
    var s1 := h2 + "\n" + s2;
    assert Lines(s4) == OrBlank(nasi) by {
      LinesAfterJoin(nasi, "");
      assert OrBlank(nasi) + Lines("") == OrBlank(nasi);
    }
    assert Lines(s3) == [h3] + Lines(s4) by { LinesAfter(h3, s4); }
    assert Lines(s2) == OrBlank(ari) + Lines(s3) by { LinesAfterJoin(ari, s3); }
    assert Lines(s1) == [h2] + Lines(s2) by { LinesAfter(h2, s2); }
    assert Lines(h1 + "\n" + s1) == [h1] + Lines(s1) by { LinesAfter(h1, s1); }
    assert Layout(h1, h2, ari, h3, nasi) == h1 + "\n" + s1;
  }
}
