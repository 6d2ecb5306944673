/** Keys, actions, phases and registration frames: the vocabulary of the engine. */
module EngineTypes {
  import opened Text
  import opened Dict
  import opened KanaTables
  import opened RegisterBuffer
  import opened Paging
  import opened Conversion

  // ── Input ───────────────────────────────────────────────────────────────────

  datatype Key =
    | Char(c: char) | Space | Return | BackSpace | Delete | Escape | Tab
    | Up | Down | Left | Right | PageUp | PageDown | F(n: nat) | Other(code: nat)

  datatype Modifiers = Modifiers(shift: bool, ctrl: bool, alt: bool, meta: bool)

  const NO_MODIFIERS := Modifiers(false, false, false, false)

  datatype KeyEvent = KeyEvent(key: Key, modifiers: Modifiers, isPress: bool)
  {
    function PrintableChar(): Option<char> {
      match key
      case Char(c) => Some(c)
      case Space => Some(' ')
      case _ => None
    }

    predicate IsCtrl(c: char) {
      key == Char(c) && modifiers.ctrl
    }

    predicate PrintsOneOf(cs: seq<char>) {
      PrintableChar().Some? && PrintableChar().value in cs
    }

    predicate IsOneOf(keys: seq<(Key, Modifiers)>) {
      (key, modifiers) in keys
    }
  }

  datatype Keybindings = Keybindings(
    asciiMode: seq<char>, wideAsciiMode: seq<char>, katakanaMode: seq<char>, abbrevMode: seq<char>,
    cancel: seq<char>, pager: Pager, conversionTriggerChars: seq<char>,
    toggleKeys: seq<(Key, Modifiers)>, rawModeToggleKeys: seq<(Key, Modifiers)>, viEscape: bool)

  // ── Output ──────────────────────────────────────────────────────────────────

  /** Preedit text with the cursor and the start of the ghost text as byte offsets. */
  datatype Preedit = Preedit(text: string, cursor: nat, ghostStart: Option<nat>)
  {
    /** Both offsets are character boundaries, and ghost text starts at the cursor. */
    predicate Valid() {
      IsBoundary(text, cursor) && (ghostStart.Some? ==> ghostStart.value == cursor)
    }
  }

  datatype Action =
    | Commit(text: string)
    | UpdatePreedit(preedit: Preedit)
    | ClearPreedit
    | ShowCandidates(page: seq<Candidate>, focus: nat, keys: seq<char>)
    | HideCandidates
    | UpdateStatus(indicator: string)
    | Passthrough
    | DeleteBack

  /** Nothing that reaches the application's text. */
  predicate IsQuiet(a: Action) {
    !a.Commit? && !a.Passthrough? && !a.DeleteBack?
  }

  predicate AllQuiet(actions: seq<Action>) {
    forall i | 0 <= i < |actions| :: IsQuiet(actions[i])
  }

  /** Every preedit that is sent has its offsets on character boundaries, and every page shown fits its keys. */
  predicate WellFormed(actions: seq<Action>) {
    forall i | 0 <= i < |actions| ::
      && (actions[i].UpdatePreedit? ==> actions[i].preedit.Valid())
      && (actions[i].ShowCandidates? ==> |actions[i].page| == |actions[i].keys| > 0)
  }

  /** The texts committed by a list of actions, in order. */
  function CommitsOf(actions: seq<Action>): seq<string> {
    if actions == [] then [] else CommitOf(actions[0]) + CommitsOf(actions[1..])
  }

  function CommitOf(a: Action): seq<string> {
    if a.Commit? then [a.text] else []
  }

  lemma {:induction false} CommitsSplit(a: seq<Action>, b: seq<Action>)
    ensures CommitsOf(a + b) == CommitsOf(a) + CommitsOf(b)
  {
    if a == [] {
      assert a + b == b;
    } else {
      hide CommitOf;
      CommitsSplit(a[1..], b);
      assert (a + b)[1..] == a[1..] + b && (a + b)[0] == a[0];
    }
  }

  lemma NoCommits(shown: Action)
    requires !shown.Commit?
    ensures CommitsOf([shown]) == [] && CommitsOf([shown, Passthrough]) == []
  {
    assert [shown, Passthrough] == [shown] + [Passthrough];
    CommitsSplit([shown], [Passthrough]);
  }

  lemma CommitThen(text: string, rest: seq<Action>)
    ensures CommitsOf([Commit(text)] + rest) == [text] + CommitsOf(rest)
  {
    CommitsSplit([Commit(text)], rest);
  }

  /** What a list of actions does to the application's text: the texts committed in order, and whether the key itself
      is passed on, which comes last; nothing is deleted. */
  predicate Sends(actions: seq<Action>, texts: seq<string>, passes: bool) {
    && CommitsOf(actions) == texts
    && (Passthrough in actions <==> passes)
    && (passes ==> actions[|actions| - 1] == Passthrough)
    && DeleteBack !in actions
  }

  lemma {:induction false} QuietSends(actions: seq<Action>)
    requires AllQuiet(actions)
    ensures Sends(actions, [], false)
  {
    if actions != [] {
      QuietSends(actions[1..]);
      assert IsQuiet(actions[0]) && actions == [actions[0]] + actions[1..];
    }
  }

  lemma {:induction false} SendsNothing(actions: seq<Action>)
    requires Sends(actions, [], false)
    ensures AllQuiet(actions)
  {
    if actions != [] {
      assert actions == [actions[0]] + actions[1..];
      assert CommitsOf(actions) == CommitOf(actions[0]) + CommitsOf(actions[1..]);
      assert |CommitOf(actions[0])| == 0;
      SendsNothing(actions[1..]);
    }
  }

  lemma CommitSends(text: string, rest: seq<Action>, texts: seq<string>, passes: bool)
    requires Sends(rest, texts, passes)
    ensures Sends([Commit(text)] + rest, [text] + texts, passes)
  {
    CommitThen(text, rest);
  }

  lemma PassSends()
    ensures Sends([Passthrough], [], true) && Sends([ClearPreedit, Passthrough], [], true)
    ensures forall a | IsQuiet(a) :: Sends([a], [], false)
  {
    assert [ClearPreedit, Passthrough][1..] == [Passthrough] && [Passthrough][1..] == [];
    forall a | IsQuiet(a) ensures Sends([a], [], false) {
      QuietSends([a]);
    }
  }

  lemma TextSends(text: string)
    ensures Sends([Commit(text)], [text], false) && Sends([Commit(text), ClearPreedit], [text], false)
    ensures Sends([Commit(text), ClearPreedit, Passthrough], [text], true)
  {
    PassSends();
    QuietSends([]);
    assert Sends([ClearPreedit], [], false);
    assert [Commit(text)] == [Commit(text)] + [];
    assert [Commit(text), ClearPreedit] == [Commit(text)] + [ClearPreedit];
    assert [Commit(text), ClearPreedit, Passthrough] == [Commit(text)] + [ClearPreedit, Passthrough];
    CommitSends(text, [], [], false);
    CommitSends(text, [ClearPreedit], [], false);
    CommitSends(text, [ClearPreedit, Passthrough], [], true);
  }

  // ── State ───────────────────────────────────────────────────────────────────

  datatype CodeInputPrefix = Jis | Unicode

  /** The candidates on offer for a headword, and the one that is focused. */
  datatype Selection = Selection(
    midashi: string, okuri: Option<string>, okuriKey: Option<string>,
    candidates: seq<Candidate>, origin: seq<CandidateOrigin>, index: nat)

  /** The three kana modes of the engine are one constructor with the script as its argument. */
  datatype Phase =
    | Kana(mode: KanaMode)
    | WideAscii
    | Ascii
    | CodeInput(prefix: CodeInputPrefix, code: string)
    | Abbrev(ascii: string)
    | Midashi(kanaBuf: string, romanBuf: string)
    | Okuri(midashi: string, okuriPrefix: char, okuriBuf: string)
    | Selecting(selection: Selection)
    | PurgeConfirm(purging: Selection, answer: string, returnMode: KanaMode)

  /** One level of dictionary registration. */
  datatype RegisterFrame = RegisterFrame(
    midashi: string, originalMidashi: string, digitRuns: seq<string>,
    okuriKey: Option<string>, okuriKana: Option<string>, buffer: Buffer, isAbbrev: bool)

  datatype CompletionState = CompletionState(cyclePrefix: string, nextIndex: nat, preview: string)

  function OrEmpty(s: Option<string>): string {
    if s.Some? then s.value else ""
  }

  /** The frame that registration of a headword starts with: nothing typed, cursor at 0. */
  function FreshFrame(midashi: string, okuriKey: Option<string>, okuriKana: Option<string>, isAbbrev: bool)
      : (f: RegisterFrame)
    ensures f.buffer.Valid()
  {
    var scanned := NumTemplate.ScanOf(midashi);
    RegisterFrame(scanned.template, midashi, scanned.runs, okuriKey, okuriKana, Buffer("", 0), isAbbrev)
  }

  predicate FramesValid(stack: seq<RegisterFrame>) {
    forall i | 0 <= i < |stack| :: stack[i].buffer.Valid()
  }

  function Top(stack: seq<RegisterFrame>): RegisterFrame
    requires stack != []
  {
    stack[|stack| - 1]
  }

  /** The stack with the innermost buffer replaced. */
  function WithTop(stack: seq<RegisterFrame>, b: Buffer): seq<RegisterFrame>
    requires stack != []
  {
    stack[|stack| - 1 := Top(stack).(buffer := b)]
  }

  lemma WithTopTwice(stack: seq<RegisterFrame>, b: Buffer, c: Buffer)
    requires stack != []
    ensures WithTop(stack, b) != [] && Top(WithTop(stack, b)).buffer == b
    ensures WithTop(WithTop(stack, b), c) == WithTop(stack, c)
    ensures WithTop(stack, Top(stack).buffer) == stack
  {
  }

  /** A key either leaves the frames alone or opens one empty frame on top of them. */
  predicate SameOrOpened(before: seq<RegisterFrame>, after: seq<RegisterFrame>) {
    after == before
    || (|after| == |before| + 1 && after[..|before|] == before && after[|before|].buffer == Buffer("", 0))
  }

  /** A selection lists exactly what the dictionaries offer for its headword, and its index is at the
      start of a display. */
  ghost predicate SelectionOk(s: Setting, p: Pager, sel: Selection) {
    var list := CandidateList(s, sel.midashi, sel.okuriKey);
    && sel.candidates == CandidatesOf(list)
    && sel.origin == OriginsOf(list)
    && OnRun(p, sel.index, |sel.candidates|)
  }

  lemma SelectionBounds(s: Setting, p: Pager, sel: Selection)
    requires SelectionOk(s, p, sel)
    ensures sel.index < |sel.candidates| == |sel.origin|
  {
  }

  /** Hence, in every reachable state, the words on offer are distinct, and each candidate is what its origin
      says it is in the dictionaries of the moment of the conversion. */
  lemma OfferedCandidates(s: Setting, p: Pager, sel: Selection, i: nat)
    requires SelectionOk(s, p, sel) && i < |sel.candidates|
    ensures |sel.origin| == |sel.candidates| && Distinct(WordList(sel.candidates))
    ensures var o := Offer(sel.candidates[i], sel.origin[i]);
      IsDictCandidate(s, sel.midashi, sel.okuriKey, o) || IsSynthetic(s, sel.midashi, o)
  {
    var list := CandidateList(s, sel.midashi, sel.okuriKey);
    hide CandidateList, IsDictCandidate, IsSynthetic;
    WordsAreDistinct(s, sel.midashi, sel.okuriKey);
    assert WordList(sel.candidates) == WordsOf(list);
    CandidatesAreSound(s, sel.midashi, sel.okuriKey, list[i]);
    assert list[i] == Offer(sel.candidates[i], sel.origin[i]);
  }

  /** Where a key leads outside a selection: to a phase with some pending romaji, or to the conversion of a headword,
      with a character that will follow the word. */
  datatype Target =
    | Settles(phase: Phase, state: string)
    | Converts(midashi: string, okuriKey: Option<string>, okuri: Option<string>, trigger: Option<string>)

  /** What a key does outside a selection: the texts it commits, whether it is passed on, and where it leads. */
  datatype Effect = Effect(texts: seq<string>, passes: bool, target: Target)

  function Quietly(phase: Phase, state: string): Effect {
    Effect([], false, Settles(phase, state))
  }

  /** The meanings of a key while candidates are offered; a confirmation may send something more. */
  datatype SelectKey =
    Abort | Back | Confirm(index: nat, more: seq<Action>) | Advance | AskPurge | Suffix | Retype(event: KeyEvent) | Ignore

  // ── Registration text ───────────────────────────────────────────────────────

  /** The last position of a character, as `str::rfind`. */
  function FindLast(s: string, c: char): (r: Option<nat>)
    ensures r.Some? ==> r.value < |s| && s[r.value] == c && c !in s[r.value + 1..]
    ensures r.None? ==> c !in s
  {
    if s == "" then None
    else if s[|s| - 1] == c then Some(|s| - 1)
    else
      var t := s[..|s| - 1];
      assert s == t + [s[|s| - 1]];
      var r := FindLast(t, c);
      assert r.Some? ==> s[r.value + 1..] == t[r.value + 1..] + [s[|s| - 1]];
      r
  }

  datatype Annotated = Annotated(word: string, annotation: Option<string>)

  /** `split_register_annotation`: what follows the last ';' is the annotation, unless that ';' comes first. */
  function SplitRegisterAnnotation(buf: string): Annotated {
    match FindLast(buf, ';')
    case None => Annotated(buf, None)
    case Some(i) =>
      if i == 0 then Annotated(buf, None)
      else Annotated(buf[..i], if buf[i + 1..] == "" then None else Some(buf[i + 1..]))
  }

  /** A registered word is never empty, and an annotation is never empty and holds no ';'. Putting the parts
      back together gives the buffer, up to one ';' at its end. */
  lemma SplitKeepsText(buf: string)
    requires buf != ""
    ensures var a := SplitRegisterAnnotation(buf);
      && a.word != ""
      && (a.annotation.Some? ==> a.annotation.value != "" && ';' !in a.annotation.value)
      && (if a.annotation.Some? then buf == a.word + ";" + a.annotation.value
          else buf == a.word || buf == a.word + ";")
  {
    var r := FindLast(buf, ';');
    if r.Some? && r.value > 0 {
      var i := r.value;
      assert buf == buf[..i] + [buf[i]] + buf[i + 1..];
    }
  }

  /** `to_wide_ascii` */
  function ToWideAscii(c: char): Option<char> {
    if c == ' ' then Some('　')
    else if '!' <= c <= '~' then Some((c as int + 0xFEE0) as char)
    else None
  }

  // ── What a frame does with the actions of a key ─────────────────────────────

  /** Commits are typed into the buffer and `DeleteBack` is a backspace in it. */
  function Absorb(b: Buffer, a: Action): (r: Buffer)
    requires b.Valid()
    ensures r.Valid()
  {
    match a
    case Commit(text) => b.Insert(text)
    case DeleteBack => b.Backspace()
    case _ => b
  }

  function Absorbed(b: Buffer, actions: seq<Action>): (r: Buffer)
    requires b.Valid()
    ensures r.Valid()
    decreases |actions|
  {
    if actions == [] then b else Absorbed(Absorb(b, actions[0]), actions[1..])
  }

  function IsWindowAction(): Action -> bool {
    (a: Action) => a.ShowCandidates? || a.HideCandidates? || a.UpdateStatus?
  }

  function IsPreeditAction(): Action -> bool {
    (a: Action) => a.Commit? || a.ClearPreedit? || a.UpdatePreedit? || a.DeleteBack?
  }

  /** What is sent instead: window actions as they are, then the preedit if it may have changed. */
  function Intercepted(actions: seq<Action>, preedit: Preedit): (r: seq<Action>)
    ensures r != [] && AllQuiet(r)
  {
    var windows := Filter(actions, IsWindowAction());
    assert forall i | 0 <= i < |windows| :: windows[i] in windows;
    if windows == [] || Filter(actions, IsPreeditAction()) != [] then windows + [UpdatePreedit(preedit)] else windows
  }

  lemma FilteredWellFormed(actions: seq<Action>, keep: Action -> bool)
    requires WellFormed(actions)
    ensures WellFormed(Filter(actions, keep))
  {
    var kept := Filter(actions, keep);
    forall i | 0 <= i < |kept| ensures WellFormed([kept[i]]) {
      assert kept[i] in actions;
    }
    assert forall i | 0 <= i < |kept| :: WellFormed([kept[i]]) && [kept[i]][0] == kept[i];
  }

  lemma {:induction false} AbsorbedSplit(b: Buffer, x: seq<Action>, y: seq<Action>)
    requires b.Valid()
    ensures Absorbed(b, x + y) == Absorbed(Absorbed(b, x), y)
    decreases |x|
  {
    if x == [] {
      assert x + y == y;
    } else {
      assert (x + y)[1..] == x[1..] + y;
      AbsorbedSplit(Absorb(b, x[0]), x[1..], y);
    }
  }

  lemma AbsorbedSnoc(b: Buffer, x: seq<Action>, a: Action)
    requires b.Valid()
    ensures Absorbed(b, x + [a]) == Absorb(Absorbed(b, x), a)
  {
    AbsorbedSplit(b, x, [a]);
    assert [a][1..] == [];
  }

  /** Registration keeps text: what a key would have committed to the application goes into the buffer at
      the cursor, in order, and nothing else does. */
  lemma {:induction false} CommitsAreAbsorbed(b: Buffer, actions: seq<Action>)
    requires b.Valid() && forall i | 0 <= i < |actions| :: !actions[i].DeleteBack?
    ensures Absorbed(b, actions) == b.Insert(Concat(CommitsOf(actions)))
    decreases |actions|
  {
    if actions == [] {
      InsertNothing(b);
    } else {
      var rest := Concat(CommitsOf(actions[1..]));
      if actions[0].Commit? {
        CommitsAreAbsorbed(b.Insert(actions[0].text), actions[1..]);
        InsertTwice(b, actions[0].text, rest);
        assert CommitsOf(actions) == [actions[0].text] + CommitsOf(actions[1..]);
      } else {
        CommitsAreAbsorbed(b, actions[1..]);
        assert CommitsOf(actions) == CommitsOf(actions[1..]);
      }
    }
  }
}
