/** Lisp-form dictionary candidates: string literals, `concat`, `skk-ignore-dic-word`. */
module Lisp {
  import opened Text

  /** Parsed form of a candidate that starts with `(`. */
  datatype LispForm = IgnoreDicWord(words: seq<string>) | Unknown

  // ── String literals ─────────────────────────────────────────────────────────

  datatype Literal = Bad | Literal(text: string, rest: string)

  predicate IsOctal(c: char) {
    '0' <= c <= '7'
  }

  /** Reads up to `left` further octal digits after a value `code`. */
  function ReadOctal(s: string, code: nat, left: nat): (r: (nat, string))
    requires left <= 2
    ensures left == 0 ==> r.0 == code
    ensures left == 1 ==> r.0 < 8 * (code + 1)
    ensures left == 2 ==> r.0 < 64 * (code + 1)
    ensures |r.1| <= |s|
  {
    if left > 0 && s != "" && IsOctal(s[0])
    then ReadOctal(s[1..], code * 8 + (s[0] as int - '0' as int), left - 1)
    else (code, s)
  }

  /** The next unit of a literal: its closing quote, or one character however it is spelled. */
  datatype Unit = Invalid | Close(rest: string) | Char(c: char, rest: string)

  function NextUnit(s: string): (u: Unit)
    ensures !u.Invalid? ==> |u.rest| < |s|
  {
    if s == "" then Invalid
    else if s[0] == '"' then Close(s[1..])
    else if s[0] != '\\' then Char(s[0], s[1..])
    else if |s| == 1 then Invalid
    else if s[1] == '"' || s[1] == '\\' then Char(s[1], s[2..])
    else if s[1] == 'n' then Char('\n', s[2..])
    else if s[1] == 't' then Char('\t', s[2..])
    else if s[1] == 'r' then Char('\r', s[2..])
    else if IsOctal(s[1]) then
      var (code, rest) := ReadOctal(s[2..], s[1] as int - '0' as int, 2);
      Char(code as char, rest)
    else Invalid
  }

  /** `out` followed by what a literal means; `s` starts just after the opening quote. */
  function ReadOnto(out: string, s: string): (r: Literal)
    ensures r.Literal? ==> |r.rest| < |s|
    decreases |s|
  {
    match NextUnit(s)
    case Invalid => Bad
    case Close(rest) => Literal(out, rest)
    case Char(c, rest) => ReadOnto(out + [c], rest)
  }

  function ReadLiteral(s: string): (r: Literal)
    ensures r.Literal? ==> |r.rest| < |s|
  {
    ReadOnto("", s)
  }

  /** `read_string_literal`: one pass over a character iterator with one character of look-ahead. */
  method ReadStringLiteral(s: string) returns (r: Literal)
    ensures r == ReadLiteral(s)
  {
    var out := "";
    var rest := s;
    while true
      invariant ReadLiteral(s) == ReadOnto(out, rest)
      decreases |rest|
    {
      ghost var unit := NextUnit(rest);
      if rest == "" { return Bad; }
      var c := rest[0];
      if c == '"' {
        return Literal(out, rest[1..]);
      } else if c != '\\' {
        out, rest := out + [c], rest[1..];
        continue;
      }
      if |rest| == 1 { return Bad; }
      var e := rest[1];
      if e == '"' || e == '\\' {
        out, rest := out + [e], rest[2..];
      } else if e == 'n' {
        out, rest := out + ['\n'], rest[2..];
      } else if e == 't' {
        out, rest := out + ['\t'], rest[2..];
      } else if e == 'r' {
        out, rest := out + ['\r'], rest[2..];
      } else if IsOctal(e) {
        var code, tail := TakeOctal(rest[2..], e as int - '0' as int);
        out, rest := out + [code as char], tail;
      } else {
        return Bad;
      }
    }
  }

  /** The octal branch of the reader: at most two more digits are consumed. */
  method TakeOctal(s: string, first: nat) returns (code: nat, tail: string)
    requires first < 8
    ensures (code, tail) == ReadOctal(s, first, 2)
  {
    code, tail := first, s;
    for k := 0 to 2
      invariant ReadOctal(tail, code, 2 - k) == ReadOctal(s, first, 2)
    {
      if tail == "" || !IsOctal(tail[0]) { break; }
      code, tail := code * 8 + (tail[0] as int - '0' as int), tail[1..];
    }
  }

  /** How one character is written inside a literal. */
  function EscapeChar(c: char): string {
    if c == '/' then "\\057"
    else if c == ';' then "\\073"
    else if c == '"' then "\\\""
    else if c == '\\' then "\\\\"
    else if c == '\n' then "\\n"
    else if c == '\r' then "\\r"
    else [c]
  }

  function Escape(s: string): string {
    if s == "" then "" else EscapeChar(s[0]) + Escape(s[1..])
  }

  function Quote(s: string): string {
    "\"" + Escape(s) + "\""
  }

  /** The escaped text of `s`, its closing quote and then `rest`. */
  function Closing(s: string, rest: string): (r: string)
    ensures |r| > |rest|
  {
    if s == "" then "\"" + rest else EscapeChar(s[0]) + Closing(s[1..], rest)
  }

  lemma {:induction false} ClosingIsQuote(s: string, rest: string)
    ensures "\"" + Closing(s, rest) == Quote(s) + rest
    ensures Closing(s, rest) == Escape(s) + "\"" + rest
  {
    if s != "" {
      ClosingIsQuote(s[1..], rest);
    }
  }

  /** `write_string_literal`: appends the quoted form of `s` to `out`. */
  method WriteStringLiteral(out: string, s: string) returns (r: string)
    ensures r == out + Quote(s)
  {
    r := out + "\"";
    var i := 0;
    while i < |s|
      invariant 0 <= i <= |s|
      invariant r + Escape(s[i..]) == out + "\"" + Escape(s)
    {
      assert s[i..][1..] == s[i + 1..];
      ghost var before := r;
      r := r + EscapeChar(s[i]);
      assert r + Escape(s[i + 1..]) == before + Escape(s[i..]);
      i := i + 1;
    }
    assert r == out + "\"" + Escape(s);
    r := r + "\"";
    assert r == out + Quote(s);
  }

  // ── Lists of literals and heads ─────────────────────────────────────────────

  /** The words of a whitespace-separated list of literals, or None on any other token. */
  function ParseList(s: string): (r: Option<seq<string>>)
    decreases |s|
  {
    if s == "" then Some([])
    else if IsAsciiWhitespace(s[0]) then ParseList(s[1..])
    else if s[0] == '"' then
      match ReadLiteral(s[1..])
      case Bad => None
      case Literal(text, rest) =>
        match ParseList(rest)
        case None => None
        case Some(words) => Some([text] + words)
    else None
  }

  function PrependAll(words: seq<string>, r: Option<seq<string>>): Option<seq<string>> {
    match r case None => None case Some(more) => Some(words + more)
  }

  /** `parse_string_list`: skip blanks, read a literal, until the text is used up. */
  method ParseStringList(s: string) returns (r: Option<seq<string>>)
    ensures r == ParseList(s)
  {
    var words: seq<string> := [];
    var rest := s;
    assert ParseList(s) == PrependAll(words, ParseList(rest)) by {
      if ParseList(s).Some? { assert [] + ParseList(s).value == ParseList(s).value; }
    }
    while true
      invariant ParseList(s) == PrependAll(words, ParseList(rest))
      decreases |rest|
    {
      rest := SkipBlanks(rest);
      if rest == "" {
        assert words + [] == words;
        return Some(words);
      }
      if rest[0] != '"' { return None; }
      var literal := ReadStringLiteral(rest[1..]);
      if literal.Bad? { return None; }
      assert ParseList(literal.rest).Some?
        ==> words + ([literal.text] + ParseList(literal.rest).value)
            == words + [literal.text] + ParseList(literal.rest).value;
      words, rest := words + [literal.text], literal.rest;
    }
  }

  method SkipBlanks(s: string) returns (rest: string)
    ensures ParseList(rest) == ParseList(s) && |rest| <= |s|
    ensures rest == "" || !IsAsciiWhitespace(rest[0])
  {
    rest := s;
    while rest != "" && IsAsciiWhitespace(rest[0])
      invariant ParseList(rest) == ParseList(s) && |rest| <= |s|
      decreases |rest|
    {
      rest := rest[1..];
    }
  }

  /** The text after the head symbol of a form, or None when the shape is wrong. */
  function SplitHead(s: string, head: string): Option<string> {
    match Unwrap(Trim(s), '(', ')')
    case None => None
    case Some(body) =>
      var inner := Trim(body);
      if head <= inner && (|inner| == |head| || IsAsciiWhitespace(inner[|head|]))
      then Some(TrimStart(inner[|head|..]))
      else None
  }

  function ParseForm(s: string, head: string): Option<seq<string>> {
    match SplitHead(s, head)
    case None => None
    case Some(rest) => ParseList(rest)
  }

  function ParseIgnoreDicWord(s: string): Option<seq<string>> {
    ParseForm(s, "skk-ignore-dic-word")
  }

  /** Evaluates a `concat` form made only of string literals. */
  function ParseConcat(s: string): Option<string> {
    match ParseForm(s, "concat")
    case None => None
    case Some(words) => Some(Concat(words))
  }

  function Classify(word: string): Option<LispForm> {
    if word == "" || word[0] != '(' then None
    else match ParseIgnoreDicWord(word)
      case Some(words) => Some(IgnoreDicWord(words))
      case None => Some(Unknown)
  }

  // ── Delimiting an S-expression ──────────────────────────────────────────────

  datatype ScanMode = Outside | InString | Escaped

  function Shift(k: nat, r: Option<nat>): Option<nat> {
    match r case None => None case Some(n) => Some(k + n)
  }

  /** The number of characters up to the parenthesis that brings `depth` back to zero. */
  function SexpScan(s: string, depth: nat, mode: ScanMode): (r: Option<nat>)
    ensures r.Some? ==> 0 < r.value <= |s|
  {
    if s == "" then None
    else match mode
      case Escaped => Shift(1, SexpScan(s[1..], depth, InString))
      case InString =>
        Shift(1, SexpScan(s[1..], depth, if s[0] == '\\' then Escaped else if s[0] == '"' then Outside else InString))
      case Outside =>
        if s[0] == '"' then Shift(1, SexpScan(s[1..], depth, InString))
        else if s[0] == '(' then Shift(1, SexpScan(s[1..], depth + 1, Outside))
        else if s[0] == ')' then if depth <= 1 then Some(1) else Shift(1, SexpScan(s[1..], depth - 1, Outside))
        else Shift(1, SexpScan(s[1..], depth, Outside))
  }

  function SexpEnd(s: string): (r: Option<nat>)
    ensures r.Some? ==> 0 < r.value <= |s|
  {
    if s == "" || s[0] != '(' then None else SexpScan(s, 0, Outside)
  }

  /** `sexp_end`: a single scan with a depth counter and two flags; the counter never drops below zero. */
  method FindSexpEnd(s: string) returns (r: Option<nat>)
    ensures r == SexpEnd(s)
  {
    if s == "" || s[0] != '(' { return None; }
    hide SexpScan, Shift;
    var depth: nat := 0;
    var inString, escaped := false, false;
    var i := 0;
    ghost var mode := Outside;
    assert s[0..] == s;
    ShiftNothing(SexpScan(s, 0, Outside));
    while i < |s|
      invariant 0 <= i <= |s|
      invariant mode == if escaped then Escaped else if inString then InString else Outside
      invariant escaped ==> inString
      invariant i > 0 ==> depth > 0
      invariant i == 0 ==> !inString
      invariant SexpScan(s, 0, Outside) == Shift(i, SexpScan(s[i..], depth, mode))
    {
      var c := s[i];
      assert s[i..][1..] == s[i + 1..] && s[i..][0] == c;
      ScanOne(s[i..], depth, mode);
      ghost var rest := SexpScan(s[i + 1..], DepthAfter(c, depth, mode), ModeAfter(c, mode));
      ShiftTwice(i, 1, rest);
      mode := ModeAfter(c, mode);
      if inString {
        if escaped {
          escaped := false;
        } else if c == '\\' {
          escaped := true;
        } else if c == '"' {
          inString := false;
        }
      } else if c == '"' {
        inString := true;
      } else if c == '(' {
        depth := depth + 1;
      } else if c == ')' {
        depth := depth - 1;
        if depth == 0 { return Some(i + 1); }
      }
      i := i + 1;
    }
    assert s[i..] == "";
    ScanNothing(depth, mode);
    return None;
  }

  lemma ShiftNothing(r: Option<nat>)
    ensures Shift(0, r) == r
  {
  }

  lemma ShiftTwice(a: nat, b: nat, r: Option<nat>)
    ensures Shift(a, Shift(b, r)) == Shift(a + b, r) && Shift(a, Some(b)) == Some(a + b) && Shift(a, None) == None
  {
  }

  lemma ScanNothing(depth: nat, mode: ScanMode)
    ensures SexpScan("", depth, mode) == None && forall k: nat :: Shift(k, None) == None
  {
  }

  /** One character of a scan. */
  lemma ScanOne(s: string, depth: nat, mode: ScanMode)
    requires s != ""
    ensures mode == Outside && s[0] == ')' && depth <= 1 ==> SexpScan(s, depth, mode) == Some(1)
    ensures !(mode == Outside && s[0] == ')' && depth <= 1) ==>
              SexpScan(s, depth, mode)
              == Shift(1, SexpScan(s[1..], DepthAfter(s[0], depth, mode), ModeAfter(s[0], mode)))
  {
  }

  function ModeAfter(c: char, mode: ScanMode): ScanMode {
    match mode
    case Escaped => InString
    case InString => if c == '\\' then Escaped else if c == '"' then Outside else InString
    case Outside => if c == '"' then InString else Outside
  }

  function DepthAfter(c: char, depth: nat, mode: ScanMode): nat {
    if mode != Outside then depth
    else if c == '(' then depth + 1
    else if c == ')' && depth > 0 then depth - 1
    else depth
  }

  // ── Writing ─────────────────────────────────────────────────────────────────

  predicate NeedsQuoting(s: string) {
    (s != "" && s[0] == '(')
    || '/' in s || ';' in s || '"' in s || '\\' in s || '\n' in s || '\r' in s
  }

  function QuoteConcat(s: string): string {
    "(concat " + Quote(s) + ")"
  }

  function QuoteIfNeeded(s: string): string {
    if NeedsQuoting(s) then QuoteConcat(s) else s
  }

  /** Each word as a literal after one blank. */
  function RenderWords(words: seq<string>): string {
    if words == [] then "" else " " + Quote(words[0]) + RenderWords(words[1..])
  }

  function RenderIgnore(words: seq<string>): string {
    "(skk-ignore-dic-word" + RenderWords(words) + ")"
  }

  /** The rendered words followed by `rest`, nested the way a reader meets them. */
  function WordsThen(words: seq<string>, rest: string): (r: string)
    ensures |r| >= |rest|
  {
    if words == [] then rest else " " + ("\"" + Closing(words[0], WordsThen(words[1..], rest)))
  }

  lemma AppendNested(a: string, b: string, c: string, d: string)
    ensures a + (b + (c + d)) == a + b + c + d
  {
  }

  lemma {:induction false} WordsThenIsRender(words: seq<string>, rest: string)
    ensures WordsThen(words, rest) == RenderWords(words) + rest
  {
    if words != [] {
      hide Closing, Quote;
      WordsThenIsRender(words[1..], rest);
      ClosingIsQuote(words[0], WordsThen(words[1..], rest));
      AppendNested(" ", Quote(words[0]), RenderWords(words[1..]), rest);
    } else {
      assert RenderWords(words) + rest == rest;
    }
  }

  lemma RenderSnoc(words: seq<string>, i: nat)
    requires i < |words|
    ensures RenderWords(words[i..]) == " " + Quote(words[i]) + RenderWords(words[i + 1..])
  {
    assert words[i..][1..] == words[i + 1..];
  }

  lemma Regrouped(out: string, quoted: string, tail: string)
    ensures out + (" " + quoted + tail) == (out + " ") + quoted + tail
  {
  }

  /** `render_ignore_dic_word`. */
  method RenderIgnoreDicWord(words: seq<string>) returns (out: string)
    ensures out == RenderIgnore(words)
  {
    hide RenderWords, Quote;
    out := "(skk-ignore-dic-word";
    var i := 0;
    assert words[0..] == words;
    while i < |words|
      invariant 0 <= i <= |words|
      invariant out + RenderWords(words[i..]) == "(skk-ignore-dic-word" + RenderWords(words)
    {
      RenderSnoc(words, i);
      Regrouped(out, Quote(words[i]), RenderWords(words[i + 1..]));
      out := WriteStringLiteral(out + " ", words[i]);
      i := i + 1;
    }
    assert words[i..] == [];
    NoWords();
    assert out + "" == out;
    out := out + ")";
  }

  // ── What the writers promise ────────────────────────────────────────────────

  /** One written character is read back as that character, whatever comes next. */
  lemma EscapedUnit(c: char, tail: string)
    ensures NextUnit(EscapeChar(c) + tail) == Char(c, tail)
  {
    var text := EscapeChar(c) + tail;
    if |EscapeChar(c)| == 4 {
      // exactly three octal digits are taken, even when `tail` begins with more of them
      assert text[2..] == [text[2]] + ([text[3]] + tail);
      assert text[2..][1..] == [text[3]] + tail;
      assert text[2..][1..][1..] == tail;
      var high := text[1] as int * 8 + text[2] as int - 9 * '0' as int;
      assert ReadOctal(tail, c as int, 0) == (c as int, tail);
      assert ReadOctal([text[3]] + tail, high, 1) == (c as int, tail);
    } else if |EscapeChar(c)| == 2 {
      assert text[2..] == tail;
    } else {
      assert text[1..] == tail;
    }
  }

  lemma ClosingQuoteEnds(rest: string)
    ensures NextUnit(Closing("", rest)) == Close(rest)
  {
    assert ("\"" + rest)[1..] == rest;
  }

  lemma {:induction false} ReadOntoClosing(out: string, s: string, rest: string)
    ensures ReadOnto(out, Closing(s, rest)) == Literal(out + s, rest)
    decreases |s|
  {
    hide NextUnit, EscapeChar;
    if s == "" {
      ClosingQuoteEnds(rest);
      assert out + s == out;
    } else {
      EscapedUnit(s[0], Closing(s[1..], rest));
      ReadOntoClosing(out + [s[0]], s[1..], rest);
      assert out + [s[0]] + s[1..] == out + s;
    }
  }

  /** Reading undoes escaping for every string and whatever follows the literal. */
  lemma ReadUndoesEscape(s: string, rest: string)
    ensures ReadLiteral(Escape(s) + "\"" + rest) == Literal(s, rest)
  {
    ClosingIsQuote(s, rest);
    ReadOntoClosing("", s, rest);
    assert "" + s == s;
  }

  /** The characters the dictionary line format reserves. */
  predicate Clean(s: string) {
    forall i | 0 <= i < |s| :: s[i] != '/' && s[i] != ';' && s[i] != '\n' && s[i] != '\r'
  }

  lemma {:induction false} EscapeIsClean(s: string)
    ensures Clean(Escape(s))
  {
    if s != "" {
      EscapeIsClean(s[1..]);
    }
  }

  lemma ScanQuote(rest: string, depth: nat)
    ensures SexpScan("\"" + rest, depth, InString) == Shift(1, SexpScan(rest, depth, Outside))
  {
    assert ("\"" + rest)[1..] == rest;
  }

  /** A parenthesis or quote inside a literal never ends the form it stands in. */
  lemma {:induction false} ScanSkipsLiteral(s: string, rest: string, depth: nat)
    ensures SexpScan(Closing(s, rest), depth, InString)
         == Shift(|Closing(s, rest)| - |rest|, SexpScan(rest, depth, Outside))
  {
    hide SexpScan, EscapeChar;
    if s == "" {
      ScanQuote(rest, depth);
    } else {
      var tail := Closing(s[1..], rest);
      ScanSkipsLiteral(s[1..], rest, depth);
      ScanSkipsEscape(s[0], tail, depth);
    }
  }

  lemma ScanSkipsEscape(c: char, tail: string, depth: nat)
    ensures SexpScan(EscapeChar(c) + tail, depth, InString)
         == Shift(|EscapeChar(c)|, SexpScan(tail, depth, InString))
  {
    hide EscapeChar, SexpScan;
    EscapeShape(c);
    var e := EscapeChar(c);
    if |e| == 1 {
      ScanCharacter(c, tail, depth);
    } else if |e| == 2 {
      ScanBackslash(e[1], tail, depth);
      assert e == ['\\', e[1]];
    } else {
      ScanCharacter(e[3], tail, depth);
      ScanCharacter(e[2], [e[3]] + tail, depth);
      ScanBackslash(e[1], [e[2]] + ([e[3]] + tail), depth);
      assert e + tail == ['\\', e[1]] + ([e[2]] + ([e[3]] + tail));
    }
  }

  lemma EscapeShape(c: char)
    ensures var e := EscapeChar(c);
      || (e == [c] && c != '\\' && c != '"')
      || (|e| == 2 && e[0] == '\\')
      || (|e| == 4 && e[0] == '\\' && forall i | 2 <= i < 4 :: '0' <= e[i] <= '7')
  {
  }

  lemma ScanCharacter(c: char, tail: string, depth: nat)
    requires c != '\\' && c != '"'
    ensures SexpScan([c] + tail, depth, InString) == Shift(1, SexpScan(tail, depth, InString))
  {
    assert ([c] + tail)[1..] == tail;
  }

  lemma ScanBackslash(c: char, tail: string, depth: nat)
    ensures SexpScan(['\\', c] + tail, depth, InString) == Shift(2, SexpScan(tail, depth, InString))
  {
    var text := ['\\', c] + tail;
    assert text[1..] == [c] + tail && ([c] + tail)[1..] == tail;
    assert SexpScan([c] + tail, depth, Escaped) == Shift(1, SexpScan(tail, depth, InString));
  }

  predicate Plain(p: string) {
    forall i | 0 <= i < |p| :: p[i] != '"' && p[i] != '(' && p[i] != ')'
  }

  lemma {:induction false} ScanSkipsPlain(p: string, rest: string, depth: nat)
    requires Plain(p)
    ensures SexpScan(p + rest, depth, Outside) == Shift(|p|, SexpScan(rest, depth, Outside))
  {
    if p == "" {
      assert p + rest == rest;
    } else {
      assert (p + rest)[1..] == p[1..] + rest;
      ScanSkipsPlain(p[1..], rest, depth);
    }
  }

  lemma {:induction false} ScanSkipsWords(words: seq<string>, rest: string, depth: nat)
    ensures SexpScan(WordsThen(words, rest), depth, Outside)
         == Shift(|WordsThen(words, rest)| - |rest|, SexpScan(rest, depth, Outside))
    ensures |WordsThen(words, rest)| == |RenderWords(words)| + |rest|
  {
    hide Closing, RenderWords;
    WordsThenIsRender(words, rest);
    if words != [] {
      var tail := WordsThen(words[1..], rest);
      var body := Closing(words[0], tail);
      var text := " " + ("\"" + body);
      ScanSkipsWords(words[1..], rest, depth);
      ScanSkipsLiteral(words[0], tail, depth);
      assert text[1..] == "\"" + body && text[1..][1..] == body;
    }
  }

  /** `(` + plain head + literals + `)` is delimited exactly, whatever the words contain. */
  lemma FormIsDelimited(head: string, words: seq<string>, rest: string)
    requires Plain(head)
    ensures SexpEnd("(" + head + RenderWords(words) + ")" + rest) == Some(|head| + |RenderWords(words)| + 2)
  {
    var form := "(" + head + RenderWords(words) + ")" + rest;
    var tail := ")" + rest;
    hide WordsThen, RenderWords;
    WordsThenIsRender(words, tail);
    assert form[1..] == head + WordsThen(words, tail);
    ScanSkipsPlain(head, WordsThen(words, tail), 1);
    ScanSkipsWords(words, tail, 1);
  }

  lemma {:induction false} ParseUndoesRender(words: seq<string>)
    ensures ParseList(WordsThen(words, "")) == Some(words)
    ensures ParseList(TrimStart(WordsThen(words, ""))) == Some(words)
  {
    hide Closing, ParseList, TrimStart;
    if words != [] {
      ParseUndoesRender(words[1..]);
      ReadOntoClosing("", words[0], WordsThen(words[1..], ""));
      assert "" + words[0] == words[0] && words == [words[0]] + words[1..];
      LiteralParsed(Closing(words[0], WordsThen(words[1..], "")), words[0], WordsThen(words[1..], ""), words[1..]);
    } else {
      NothingParsed();
    }
  }

  lemma NothingParsed()
    ensures ParseList("") == Some([]) && TrimStart("") == ""
  {
  }

  /** A blank, a quote and the rest of a literal, then a list. */
  lemma LiteralParsed(body: string, word: string, rest: string, words: seq<string>)
    requires ReadOnto("", body) == Literal(word, rest) && ParseList(rest) == Some(words)
    ensures var text := " " + ("\"" + body);
      ParseList(text) == Some([word] + words) == ParseList(TrimStart(text))
  {
    var text := " " + ("\"" + body);
    assert text[1..] == "\"" + body && text[1..][1..] == body;
    assert TrimStart(text) == TrimStart(text[1..]) == text[1..];
    assert ParseList(text[1..]) == Some([word] + words);
  }

  lemma {:induction false} RenderWordsEnds(words: seq<string>)
    requires words != []
    ensures RenderWords(words) != "" && RenderWords(words)[0] == ' '
    ensures RenderWords(words)[|RenderWords(words)| - 1] == '"'
  {
    if |words| > 1 {
      RenderWordsEnds(words[1..]);
    } else {
      assert RenderWords(words) == " " + Quote(words[0]);
    }
  }

  lemma NoWords()
    ensures RenderWords([]) == ""
  {
  }

  /** Splitting the head off a rendered form leaves exactly the rendered words. */
  lemma SplitHeadUndoesRender(head: string, words: seq<string>)
    requires head != "" && !IsWhitespace(head[0]) && !IsWhitespace(head[|head| - 1])
    ensures SplitHead("(" + head + RenderWords(words) + ")", head) == Some(TrimStart(RenderWords(words)))
  {
    var form := "(" + head + RenderWords(words) + ")";
    var inner := head + RenderWords(words);
    hide RenderWords, Trim;
    TrimNothing(form);
    assert form[1..|form| - 1] == inner;
    if words != [] {
      RenderWordsEnds(words);
    } else {
      NoWords();
    }
    TrimNothing(inner);
    assert inner[|head|..] == RenderWords(words);
  }

  lemma ParseFormUndoesRender(head: string, words: seq<string>)
    requires head != "" && !IsWhitespace(head[0]) && !IsWhitespace(head[|head| - 1])
    ensures ParseForm("(" + head + RenderWords(words) + ")", head) == Some(words)
  {
    SplitHeadUndoesRender(head, words);
    ParseUndoesRender(words);
    WordsThenIsRender(words, "");
    assert RenderWords(words) + "" == RenderWords(words);
  }

  /** `concat` forms are one rendered word. */
  lemma QuoteConcatIsForm(s: string)
    ensures QuoteConcat(s) == "(" + "concat" + RenderWords([s]) + ")"
  {
    assert RenderWords([s]) == " " + Quote(s);
  }

  lemma QuoteConcatIsClean(s: string)
    ensures Clean(QuoteConcat(s))
  {
    EscapeIsClean(s);
  }

  /** Main result for `concat`: exact delimiting, reading back, and no reserved character. */
  lemma QuoteConcatRoundTrip(s: string, rest: string)
    ensures ParseConcat(QuoteConcat(s)) == Some(s)
    ensures SexpEnd(QuoteConcat(s) + rest) == Some(|QuoteConcat(s)|)
    ensures Clean(QuoteConcat(s))
  {
    hide RenderWords, ParseForm, SexpEnd, QuoteConcat, Clean;
    QuoteConcatIsForm(s);
    ParseFormUndoesRender("concat", [s]);
    assert Concat([s]) == s;
    FormIsDelimited("concat", [s], rest);
    QuoteConcatIsClean(s);
  }

  lemma {:induction false} RenderWordsIsClean(words: seq<string>)
    ensures Clean(RenderWords(words))
  {
    if words != [] {
      EscapeIsClean(words[0]);
      RenderWordsIsClean(words[1..]);
      assert Clean(Quote(words[0]));
    }
  }

  lemma RenderIgnoreIsClean(words: seq<string>)
    ensures Clean(RenderIgnore(words))
  {
    hide RenderWords;
    RenderWordsIsClean(words);
  }

  /** A `concat` reading of an ignore form is impossible: the heads differ. */
  lemma IgnoreIsNotConcat(words: seq<string>)
    ensures ParseConcat(RenderIgnore(words)) == None
  {
    var form := RenderIgnore(words);
    var inner := "skk-ignore-dic-word" + RenderWords(words);
    hide RenderWords, Trim;
    TrimNothing(form);
    assert form[1..|form| - 1] == inner;
    if words != [] {
      RenderWordsEnds(words);
    } else {
      NoWords();
    }
    TrimNothing(inner);
    assert inner[0] == 's';
  }

  lemma ClassifyUndoesRender(words: seq<string>)
    ensures Classify(RenderIgnore(words)) == Some(IgnoreDicWord(words))
  {
    IgnoreIsForm(words);
    ParseFormUndoesRender("skk-ignore-dic-word", words);
    ClassifyFromParse(RenderIgnore(words), words);
  }

  lemma ClassifyFromParse(s: string, words: seq<string>)
    requires s != "" && s[0] == '(' && ParseIgnoreDicWord(s) == Some(words)
    ensures Classify(s) == Some(IgnoreDicWord(words))
  {
  }

  lemma IgnoreIsForm(words: seq<string>)
    ensures RenderIgnore(words) == "(" + "skk-ignore-dic-word" + RenderWords(words) + ")"
    ensures RenderIgnore(words)[0] == '('
  {
  }

  lemma IgnoreIsDelimited(words: seq<string>, rest: string)
    ensures SexpEnd(RenderIgnore(words) + rest) == Some(|RenderIgnore(words)|)
  {
    var head := "skk-ignore-dic-word";
    FormIsDelimited(head, words, rest);
    IgnoreIsForm(words);
  }

  /** Main result for directives: the same facts for a whole rendered ignore list. */
  lemma RenderIgnoreRoundTrip(words: seq<string>, rest: string)
    ensures Classify(RenderIgnore(words)) == Some(IgnoreDicWord(words))
    ensures ParseConcat(RenderIgnore(words)) == None
    ensures SexpEnd(RenderIgnore(words) + rest) == Some(|RenderIgnore(words)|)
    ensures Clean(RenderIgnore(words))
  {
    hide *;
    ClassifyUndoesRender(words);
    IgnoreIsNotConcat(words);
    IgnoreIsDelimited(words, rest);
    RenderIgnoreIsClean(words);
  }

  /** Distinct ignore lists have distinct renderings. */
  lemma RenderIgnoreInjective(a: seq<string>, b: seq<string>)
    requires RenderIgnore(a) == RenderIgnore(b)
    ensures a == b
  {
    RenderIgnoreRoundTrip(a, "");
    RenderIgnoreRoundTrip(b, "");
  }
}
