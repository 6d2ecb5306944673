/** The SKK engine: a state machine over phases, pending romaji, candidates and registration frames. */
module Engine {
  import opened Text
  import opened Dict
  import opened KanaTables
  import opened RegisterBuffer
  import opened Paging
  import opened Providers
  import opened Conversion
  import opened EngineTypes
  import NumTemplate

  function Repeat(s: string, n: nat): string {
    if n == 0 then "" else s + Repeat(s, n - 1)
  }

  /** What is learned when the candidate at `index` is chosen. */
  function LearnedEntry(sel: Selection, index: nat): DictEntry
    requires index < |sel.candidates| == |sel.origin| && sel.origin[index].FromDict?
  {
    DictEntry(sel.origin[index].templateMidashi, sel.okuriKey,
              [Candidate(sel.origin[index].templateWord, sel.candidates[index].annotation, None)])
  }

  /** The dictionaries after the candidate at `index` was chosen: synthetic candidates are not learned. */
  function AfterChoice(dicts: seq<Dictionary>, sel: Selection, index: nat): seq<Dictionary>
    requires index < |sel.candidates| == |sel.origin|
  {
    if sel.origin[index].FromDict? then LearnEverywhere(dicts, LearnedEntry(sel, index)) else dicts
  }

  /** The actions of committing the candidate at `index`; the trigger character follows the word. */
  function ChoiceActions(sel: Selection, index: nat, trigger: Option<string>): seq<Action>
    requires index < |sel.candidates|
  {
    [HideCandidates, Commit(sel.candidates[index].word + OrEmpty(sel.okuri)), ClearPreedit]
      + (if trigger.Some? then [Commit(trigger.value)] else [])
  }

  /** What is learned when a frame is finished. */
  function RegisteredEntry(frame: RegisterFrame): DictEntry {
    var a := SplitRegisterAnnotation(frame.buffer.text);
    DictEntry(frame.midashi, frame.okuriKey, [Candidate(a.word, a.annotation, None)])
  }

  function RegisteredWord(frame: RegisterFrame): string {
    SplitRegisterAnnotation(frame.buffer.text).word
  }

  /** What the engine holds at one moment. */
  datatype View = View(
    phase: Phase, kanaState: string, frames: seq<RegisterFrame>, dicts: seq<Dictionary>, trigger: Option<string>,
    displayMode: KanaMode, isAbbrev: bool, completion: Option<CompletionState>, rawMode: bool)

  /** How a key was answered: by the engine itself, or by its phase, with the phase's own actions and the frames that
      were open when they were done. */
  datatype Answer = Taken | Dispatched(raw: seq<Action>, stack: seq<RegisterFrame>)

  /** What happens to a session: a key, or a change of the shared dictionaries by another session. */
  datatype Input = Pressed(event: KeyEvent) | DictionariesChanged(shared: seq<Dictionary>)

  class SkkEngine {
    const table: KanaTable
    const keys: Keybindings
    const convert: NumTemplate.Conversion
    const decode: (CodeInputPrefix, string) -> Option<string>
    const lispDirectives: bool

    var dicts: seq<Dictionary>
    var phase: Phase
    var kanaState: string
    /** Innermost frame last. */
    var registerStack: seq<RegisterFrame>
    var displayMode: KanaMode
    var isAbbrev: bool
    var completion: Option<CompletionState>
    var conversionTrigger: Option<string>
    var rawMode: bool
    /** The dictionaries of the moment when the candidates on offer were looked up. */
    ghost var offeredBy: seq<Dictionary>

    // ── Invariant ─────────────────────────────────────────────────────────────

    function Current(): Setting
      reads this`dicts
    {
      Setting(dicts, convert, lispDirectives)
    }

    ghost function Offered(): Setting
      reads this`offeredBy
    {
      Setting(offeredBy, convert, lispDirectives)
    }

    function Now(): View
      reads this`phase, this`kanaState, this`registerStack, this`dicts, this`conversionTrigger, this`displayMode,
            this`isAbbrev, this`completion, this`rawMode
    {
      View(phase, kanaState, registerStack, dicts, conversionTrigger, displayMode, isAbbrev, completion, rawMode)
    }

    /** What every run keeps: registration cursors are on character boundaries; pending romaji belongs to
        the phases that show it and is what the headword phase shows; and the candidates on offer are
        exactly those of the dictionaries of the moment of the conversion, which other sessions may have changed
        since, with the index at the start of a display. */
    ghost predicate Valid()
      reads this
    {
      && FramesValid(registerStack)
      && (phase.Midashi? ==> phase.romanBuf == kanaState)
      && (kanaState != "" ==> phase.Kana? || phase.Midashi? || phase.Okuri?)
      && (phase.Selecting? ==> SelectionOk(Offered(), keys.pager, phase.selection))
      && (phase.PurgeConfirm? ==> SelectionOk(Offered(), keys.pager, phase.purging))
    }

    /** `new` with the builder calls; an initial phase in the middle of a conversion is ignored. */
    constructor (table: KanaTable, keys: Keybindings, convert: NumTemplate.Conversion,
                 decode: (CodeInputPrefix, string) -> Option<string>, dicts: seq<Dictionary>,
                 lispDirectives: bool, initial: Phase)
      ensures Valid() && registerStack == [] && !rawMode && this.dicts == dicts && kanaState == ""
      ensures phase == if initial.Kana? || initial.WideAscii? || initial.Ascii? then initial else Kana(Hiragana)
      ensures this.table == table && this.keys == keys && this.convert == convert
      ensures this.lispDirectives == lispDirectives
    {
      this.table, this.keys, this.convert, this.decode := table, keys, convert, decode;
      this.dicts, this.lispDirectives := dicts, lispDirectives;
      phase := if initial.Kana? || initial.WideAscii? || initial.Ascii? then initial else Kana(Hiragana);
      kanaState, registerStack, displayMode, isAbbrev := "", [], Hiragana, false;
      completion, conversionTrigger, rawMode, offeredBy := None, None, false, dicts;
    }

    // ── Preedit ───────────────────────────────────────────────────────────────

    predicate Displayable()
      reads this
    {
      FramesValid(registerStack)
      && (phase.Selecting? ==> phase.selection.index < |phase.selection.candidates|)
    }

    lemma ValidIsDisplayable()
      requires Valid()
      ensures Displayable()
    {
    }

    function InnerPreedit(): string
      requires Displayable()
      reads this
    {
      match phase
      case Kana(_) => kanaState
      case WideAscii => ""
      case Ascii => ""
      case Abbrev(ascii) => "▽" + ascii
      case CodeInput(prefix, code) => (if prefix == Jis then "\\" else "\\u") + code
      case Midashi(kanaBuf, romanBuf) => "▽" + Convert(kanaBuf, displayMode) + romanBuf
      case Okuri(midashi, _, okuriBuf) => "▽" + midashi + "*" + okuriBuf + kanaState
      case Selecting(sel) =>
        var cand := sel.candidates[sel.index];
        "▼" + cand.word + OrEmpty(sel.okuri) + OrEmpty(conversionTrigger)
          + (if cand.annotation.Some? then ";" + cand.annotation.value else "")
      case PurgeConfirm(_, answer, _) => "really purge? (yes/no): " + answer
    }

    /** The heading of a registration preedit; brackets show the depth. */
    function Heading(): string
      requires registerStack != []
      reads this
    {
      var frame, depth := Top(registerStack), |registerStack|;
      Repeat("[", depth) + "辞書登録" + Repeat("]", depth) + " " + frame.midashi + OrEmpty(frame.okuriKana) + ": "
    }

    /** What is shown left and right of the input cursor. */
    function DisplayZipper(left: string, right: string): Zipper
      requires Displayable()
      reads this
    {
      if registerStack == [] then Zipper(left, right)
      else
        var b := Top(registerStack).buffer;
        Zipper(Heading() + b.Before() + left, right + b.After())
    }

    /** Lays text out inside the innermost frame; the cursor is the sum of the byte lengths before it. */
    function InFrame(left: string, right: string, isGhost: bool): (r: Preedit)
      requires Displayable()
      reads this
      ensures r.Valid() && (r.ghostStart.Some? <==> isGhost)
      ensures Buffer(r.text, r.cursor).Zip() == DisplayZipper(left, right)
    {
      if registerStack == [] then
        PrefixIsBoundary(left, right);
        assert (left + right)[|left|..] == right;
        Preedit(left + right, ByteLen(left), if isGhost then Some(ByteLen(left)) else None)
      else
        var b := Top(registerStack).buffer;
        var z := Zipper(Heading() + b.Before() + left, right + b.After());
        var cursor := ByteLen(Heading()) + ByteLen(b.Before()) + ByteLen(left);
        ByteLenSplit(Heading(), b.Before());
        ByteLenSplit(Heading() + b.Before(), left);
        PrefixIsBoundary(z.left, z.right);
        assert (z.left + z.right)[|z.left|..] == z.right;
        Preedit(z.left + z.right, cursor, if isGhost then Some(cursor) else None)
    }

    /** Whether ghost text is shown: a completion that extends what was typed, with no pending romaji. */
    predicate ShowsGhost()
      reads this
    {
      phase.Midashi? && phase.romanBuf == "" && completion.Some? && phase.kanaBuf <= completion.value.preview
    }

    function BuildPreedit(): (r: Preedit)
      requires Displayable()
      reads this
      ensures r.Valid()
    {
      if ShowsGhost() then
        InFrame("▽" + Convert(phase.kanaBuf, displayMode), "|" + completion.value.preview[|phase.kanaBuf|..], true)
      else InFrame(InnerPreedit(), "", false)
    }

    function PreeditAction(): Action
      requires Displayable()
      reads this
    {
      UpdatePreedit(BuildPreedit())
    }

    // ── Completion ────────────────────────────────────────────────────────────

    function CompletionFrom(prefix: string, start: nat): Option<CompletionState>
      reads this`dicts
    {
      match FindCompletion(dicts, prefix, start)
      case None => None
      case Some((preview, next)) => Some(CompletionState(prefix, next, preview))
    }

    function FreshCompletion(kanaBuf: string): Option<CompletionState>
      reads this`dicts
    {
      if kanaBuf == "" then None else CompletionFrom(kanaBuf, 0)
    }

    // ── Editing the innermost registration buffer ─────────────────────────────

    method RegBackspace()
      requires Valid()
      modifies this`registerStack
      ensures Valid()
      ensures registerStack == if old(registerStack) == [] then []
                               else WithTop(old(registerStack), Top(old(registerStack)).buffer.Backspace())
    {
      if registerStack != [] {
        registerStack := WithTop(registerStack, Top(registerStack).buffer.Backspace());
      }
    }

    method RegDelete()
      requires Valid()
      modifies this`registerStack
      ensures Valid()
      ensures registerStack == if old(registerStack) == [] then []
                               else WithTop(old(registerStack), Top(old(registerStack)).buffer.Delete())
    {
      if registerStack != [] {
        registerStack := WithTop(registerStack, Top(registerStack).buffer.Delete());
      }
    }

    method RegMoveLeft()
      requires Valid()
      modifies this`registerStack
      ensures Valid()
      ensures registerStack == if old(registerStack) == [] then []
                               else WithTop(old(registerStack), Top(old(registerStack)).buffer.Left())
    {
      if registerStack != [] {
        registerStack := WithTop(registerStack, Top(registerStack).buffer.Left());
      }
    }

    method RegMoveRight()
      requires Valid()
      modifies this`registerStack
      ensures Valid()
      ensures registerStack == if old(registerStack) == [] then []
                               else WithTop(old(registerStack), Top(old(registerStack)).buffer.Right())
    {
      if registerStack != [] {
        registerStack := WithTop(registerStack, Top(registerStack).buffer.Right());
      }
    }

    method RegInsert(text: string)
      requires Valid()
      modifies this`registerStack
      ensures Valid()
      ensures registerStack == if old(registerStack) == [] then []
                               else WithTop(old(registerStack), Top(old(registerStack)).buffer.Insert(text))
    {
      if registerStack != [] {
        registerStack := WithTop(registerStack, Top(registerStack).buffer.Insert(text));
      }
    }

    // ── Registration ──────────────────────────────────────────────────────────

    method LearnAll(entry: DictEntry)
      modifies this`dicts
      ensures dicts == LearnEverywhere(old(dicts), entry)
    {
      var i := 0;
      while i < |dicts|
        invariant 0 <= i <= |dicts| == |old(dicts)|
        invariant forall k | 0 <= k < i :: dicts[k] == old(dicts)[k].Learn(entry)
        invariant forall k | i <= k < |dicts| :: dicts[k] == old(dicts)[k]
      {
        dicts := dicts[i := dicts[i].Learn(entry)];
        i := i + 1;
      }
    }

    method PurgeAll(midashi: string, okuri: Option<string>, word: string)
      modifies this`dicts
      ensures dicts == PurgeEverywhere(old(dicts), midashi, okuri, word)
    {
      var i := 0;
      while i < |dicts|
        invariant 0 <= i <= |dicts| == |old(dicts)|
        invariant forall k | 0 <= k < i :: dicts[k] == old(dicts)[k].Purge(midashi, okuri, word)
        invariant forall k | i <= k < |dicts| :: dicts[k] == old(dicts)[k]
      {
        dicts := dicts[i := dicts[i].Purge(midashi, okuri, word)];
        i := i + 1;
      }
    }

    /** Finishes the innermost frame: the entry is learned; the word goes to the application with its
        okurigana, or without it into the enclosing buffer. */
    method FinalizeRegister() returns (actions: seq<Action>)
      requires Valid() && registerStack != []
      modifies this`dicts, this`registerStack, this`phase, this`kanaState
      ensures Valid() && WellFormed(actions) && phase == Kana(Hiragana) && kanaState == ""
      ensures var frame, depth := Top(old(registerStack)), |old(registerStack)| - 1;
        && dicts == LearnEverywhere(old(dicts), RegisteredEntry(frame))
        && (depth == 0 ==>
              && registerStack == []
              && actions == [Commit(RegisteredWord(frame) + OrEmpty(frame.okuriKana)), ClearPreedit])
        && (depth > 0 ==>
              && actions == [PreeditAction()]
              && registerStack == WithTop(old(registerStack)[..depth],
                                          Top(old(registerStack)[..depth]).buffer.Insert(RegisteredWord(frame))))
    {
      var frame := Top(registerStack);
      registerStack := registerStack[..|registerStack| - 1];
      var word := SplitRegisterAnnotation(frame.buffer.text).word;
      phase, kanaState := Kana(Hiragana), "";
      LearnAll(RegisteredEntry(frame));
      if registerStack == [] {
        actions := [Commit(word + OrEmpty(frame.okuriKana)), ClearPreedit];
      } else {
        RegInsert(word);
        actions := [PreeditAction()];
      }
    }

    /** Gives the innermost frame up: back to the headword as it was typed, or to the enclosing frame. */
    method CancelRegister() returns (actions: seq<Action>)
      requires Valid() && registerStack != []
      modifies this`registerStack, this`phase, this`kanaState, this`completion
      ensures Valid() && WellFormed(actions) && AllQuiet(actions) && actions != [] && kanaState == ""
      ensures registerStack == old(registerStack)[..|old(registerStack)| - 1]
      ensures var frame := Top(old(registerStack));
        phase == if registerStack != [] then Kana(Hiragana)
                 else if frame.isAbbrev then Abbrev(frame.originalMidashi)
                 else Midashi(frame.originalMidashi, "")
      ensures phase.Midashi? ==> completion == FreshCompletion(phase.kanaBuf)
    {
      hide SelectionOk, BuildPreedit, CompletionFrom, SplitRegisterAnnotation;
      var frame := Top(registerStack);
      registerStack := registerStack[..|registerStack| - 1];
      phase, kanaState := Kana(Hiragana), "";
      if registerStack == [] {
        if frame.isAbbrev {
          phase := Abbrev(frame.originalMidashi);
        } else {
          phase := Midashi(frame.originalMidashi, "");
          completion := FreshCompletion(frame.originalMidashi);
        }
        actions := [HideCandidates, PreeditAction()];
      } else {
        actions := [PreeditAction()];
      }
    }

    /** Redirects what a key would have done to the application into the innermost frame. */
    method InterceptForRegister(raw: seq<Action>) returns (result: seq<Action>)
      requires Valid() && registerStack != [] && WellFormed(raw)
      modifies this`registerStack
      ensures Valid() && WellFormed(result) && result != [] && AllQuiet(result)
      ensures registerStack == WithTop(old(registerStack), Absorbed(Top(old(registerStack)).buffer, raw))
      ensures result == Intercepted(raw, BuildPreedit())
    {
      hide SelectionOk, BuildPreedit, WithTop, Absorbed, Filter, WellFormed;
      result := [];
      var needPreedit := false;
      ghost var b0 := Top(registerStack).buffer;
      assert raw[..0] == [];
      WithTopTwice(registerStack, b0, b0);
      InterceptNothing(b0, raw);
      for i := 0 to |raw|
        invariant Valid()
        invariant registerStack == WithTop(old(registerStack), Absorbed(b0, raw[..i]))
        invariant result == Filter(raw[..i], IsWindowAction())
        invariant needPreedit <==> Filter(raw[..i], IsPreeditAction()) != []
      {
        InterceptStep(b0, raw, i);
        WithTopTwice(old(registerStack), Absorbed(b0, raw[..i]), Absorb(Absorbed(b0, raw[..i]), raw[i]));
        match raw[i] {
          case Commit(text) =>
            RegInsert(text);
            needPreedit := true;
          case ClearPreedit => needPreedit := true;
          case UpdatePreedit(_) => needPreedit := true;
          case ShowCandidates(_, _, _) => result := result + [raw[i]];
          case HideCandidates => result := result + [raw[i]];
          case UpdateStatus(_) => result := result + [raw[i]];
          case Passthrough =>
          case DeleteBack =>
            RegBackspace();
            needPreedit := true;
        }
      }
      assert raw[..|raw|] == raw;
      ValidIsDisplayable();
      InterceptedWellFormed(raw, BuildPreedit());
      if needPreedit || result == [] {
        result := result + [PreeditAction()];
      }
    }

    static lemma InterceptNothing(b: Buffer, raw: seq<Action>)
      requires b.Valid()
      ensures Absorbed(b, raw[..0]) == b
      ensures Filter(raw[..0], IsWindowAction()) == [] && Filter(raw[..0], IsPreeditAction()) == []
    {
    }

    static lemma InterceptedWellFormed(raw: seq<Action>, preedit: Preedit)
      requires WellFormed(raw) && preedit.Valid()
      ensures WellFormed(Intercepted(raw, preedit))
    {
      FilteredWellFormed(raw, IsWindowAction());
    }

    static lemma InterceptStep(b: Buffer, raw: seq<Action>, i: nat)
      requires b.Valid() && i < |raw|
      ensures Absorbed(b, raw[..i + 1]) == Absorb(Absorbed(b, raw[..i]), raw[i])
      ensures Filter(raw[..i + 1], IsWindowAction())
           == Filter(raw[..i], IsWindowAction()) + (if IsWindowAction()(raw[i]) then [raw[i]] else [])
      ensures Filter(raw[..i + 1], IsPreeditAction())
           == Filter(raw[..i], IsPreeditAction()) + (if IsPreeditAction()(raw[i]) then [raw[i]] else [])
    {
      hide Filter, Absorbed, Absorb;
      assert raw[..i + 1] == raw[..i] + [raw[i]];
      AbsorbedSnoc(b, raw[..i], raw[i]);
      FilterSnoc(raw[..i], raw[i], IsWindowAction());
      FilterSnoc(raw[..i], raw[i], IsPreeditAction());
    }

    // ── Conversion ────────────────────────────────────────────────────────────

    /** `listing_show_action`: the page at an index, with its selection keys. */
    function ListingShow(candidates: seq<Candidate>, index: nat): (r: seq<Action>)
      requires index < |candidates|
      ensures WellFormed(r) && AllQuiet(r)
    {
      if !keys.pager.InListing(index) then []
      else
        var page := keys.pager.Shown(candidates, index);
        [ShowCandidates(page, 0, keys.pager.keys[..|page|])]
    }

    /** The state that a conversion ends in: the candidates of the dictionaries, or a new frame. */
    ghost predicate Converted(v: View, before: seq<RegisterFrame>, midashi: string,
                              okuriKey: Option<string>, okuri: Option<string>)
    {
      var list := CandidateList(Setting(v.dicts, convert, lispDirectives), midashi, okuriKey);
      && v.kanaState == "" && v.completion == None
      && if list == [] then
           v.phase == Kana(Hiragana) && v.frames == before + [FreshFrame(midashi, okuriKey, okuri, v.isAbbrev)]
         else
           && v.frames == before
           && v.phase == Selecting(Selection(midashi, okuri, okuriKey, CandidatesOf(list), OriginsOf(list), 0))
    }

    /** What every handler leaves behind. */
    ghost predicate Handled(before: seq<RegisterFrame>, actions: seq<Action>)
      reads this
    {
      Valid() && WellFormed(actions) && actions != [] && SameOrOpened(before, registerStack)
    }

    method StartConversion(midashi: string, okuri: Option<(string, string)>) returns (actions: seq<Action>)
      requires FramesValid(registerStack) && kanaState == ""
      modifies this`phase, this`completion, this`registerStack, this`kanaState, this`offeredBy
      ensures Handled(old(registerStack), actions) && AllQuiet(actions)
      ensures Converted(Now(), old(registerStack), midashi, if okuri.Some? then Some(okuri.value.0) else None,
                        if okuri.Some? then Some(okuri.value.1) else None)
    {
      hide CandidateList, BuildPreedit, SelectionOk;
      completion := None;
      var okuriKey := if okuri.Some? then Some(okuri.value.0) else None;
      var okuriKana := if okuri.Some? then Some(okuri.value.1) else None;
      var candidates, origin := BuildCandidates(Current(), midashi, okuriKey);
      if candidates == [] {
        registerStack := registerStack + [FreshFrame(midashi, okuriKey, okuriKana, isAbbrev)];
        phase, kanaState := Kana(Hiragana), "";
        return [PreeditAction()];
      }
      var sel := Selection(midashi, okuriKana, okuriKey, candidates, origin, 0);
      FirstSelection(Current(), keys.pager, sel);
      phase, offeredBy := Selecting(sel), dicts;
      actions := ListingShow(candidates, 0) + [PreeditAction()];
    }

    static lemma FirstSelection(s: Setting, p: Pager, sel: Selection)
      requires var list := CandidateList(s, sel.midashi, sel.okuriKey);
        sel.candidates == CandidatesOf(list) && sel.origin == OriginsOf(list)
      requires sel.candidates != [] && sel.index == 0
      ensures SelectionOk(s, p, sel)
    {
      assert p.SpaceRun(0, |sel.candidates|)[0] == 0;
    }

    static lemma NextSelection(s: Setting, p: Pager, sel: Selection)
      requires SelectionOk(s, p, sel) && p.Next(sel.index, |sel.candidates|).Some?
      ensures SelectionOk(s, p, sel.(index := p.Next(sel.index, |sel.candidates|).value))
    {
      StepsStayOnRun(p, sel.index, |sel.candidates|);
    }

    static lemma PreviousSelection(s: Setting, p: Pager, sel: Selection)
      requires SelectionOk(s, p, sel) && sel.index > 0
      ensures SelectionOk(s, p, sel.(index := p.Previous(sel.index)))
    {
      StepsStayOnRun(p, sel.index, |sel.candidates|);
    }

    /** Commits a candidate and learns it in the form it came from. */
    method CommitCandidate(sel: Selection, index: nat) returns (actions: seq<Action>)
      requires index < |sel.candidates| == |sel.origin|
      modifies this`dicts, this`phase, this`kanaState, this`conversionTrigger
      ensures phase == Kana(displayMode) && kanaState == "" && conversionTrigger == None
      ensures dicts == AfterChoice(old(dicts), sel, index)
      ensures actions == ChoiceActions(sel, index, old(conversionTrigger))
    {
      if sel.origin[index].FromDict? {
        LearnAll(LearnedEntry(sel, index));
      }
      phase, kanaState := Kana(displayMode), "";
      actions := [HideCandidates, Commit(sel.candidates[index].word + OrEmpty(sel.okuri)), ClearPreedit];
      if conversionTrigger.Some? {
        actions := actions + [Commit(conversionTrigger.value)];
        conversionTrigger := None;
      }
    }

    // ── What a key does outside a selection ───────────────────────────────────

    /** Kana arrived in the headword, or romaji is pending; a kana trigger at the end starts the conversion. */
    function TakeEffect(kana0: string, output: string, next: string, mode: KanaMode): Effect {
      var kana := kana0 + output;
      if output != "" && next == "" && EndsInKanaTrigger(kana) then
        var last := [kana[|kana| - 1]];
        if |kana| == 1 then Effect([last], false, Settles(Kana(mode), ""))
        else Effect([], false, Converts(kana[..|kana| - 1], None, None, Some(last)))
      else Quietly(Midashi(kana, next), next)
    }

    /** A letter after the start of the okurigana. */
    function OkuriEffect(midashi: string, prefix: char, buf: string, state: string, lower: char): Effect {
      var key := OkuriKey(table, state, lower);
      match Transition(table, state, lower, Hiragana)
      case Moved(output, next) =>
        if output != "" && next == "" then Effect([], false, Converts(midashi, Some(key), Some(buf + output), None))
        else Quietly(Okuri(midashi, prefix, buf + output), next)
      case MovedRetry(output, _) =>
        if output != "" then Effect([], false, Converts(midashi, Some(key), Some(buf + output), None))
        else Quietly(Okuri(midashi, prefix, buf), "")
      case NoMatch(_, _) => Quietly(Okuri(midashi, prefix, buf), "")
    }

    /** A capital after a reading. */
    function CapitalEffect(kana: string, state: string, lower: char): Effect {
      var r := Transition(table, state, lower, Hiragana);
      if state != "" && r.Moved? && r.output != "" && r.nextState != "" then
        Quietly(Okuri(kana + r.output, r.nextState[0], ""), r.nextState)
      else OkuriEffect(kana, if state != "" then state[0] else lower, "", state, lower)
    }

    /** A character in the headword phase. When the automaton asks for it again, it is taken once more with no romaji
        pending, where it may well end the headword. */
    function HeadEffect(ch: char, ctrl: bool, kana: string, state: string, mode: KanaMode): Effect
      decreases state != "", 1
    {
      if state == "" && IsAsciiTrigger(ch) then
        if kana == "" then Effect([TriggerOutput(ch)], false, Settles(Kana(mode), ""))
        else Effect([], false, Converts(kana, None, None, Some(TriggerOutput(ch))))
      else if ch in {'>', '<', '?'} then
        if kana + state == "" then Quietly(Midashi("", ""), "")
        else Effect([], false, Converts(kana + state + ">", None, None, None))
      else if IsAsciiDigit(ch) && !ctrl then Quietly(Midashi(kana + [ch], ""), "")
      else if IsAsciiUppercase(ch) && kana != "" then CapitalEffect(kana, state, ToAsciiLowercase(ch))
      else LetterEffect(ch, ctrl, kana, state, mode)
    }

    /** A character that goes to the automaton; one that starts no kana is dropped, but "q" commits the headword in
        the other script. */
    function LetterEffect(ch: char, ctrl: bool, kana: string, state: string, mode: KanaMode): Effect
      decreases state != "", 0
    {
      match Transition(table, state, ToAsciiLowercase(ch), Hiragana)
      case Moved(output, next) => TakeEffect(kana, output, next, mode)
      case MovedRetry(output, retry) => HeadEffect(retry, false, kana + output, "", mode)
      case NoMatch(_, again) =>
        if again.Some? then HeadEffect(again.value, false, kana, "", mode)
        else if ch == 'q' && !ctrl && kana != "" then
          Effect([if mode == Hiragana then Convert(kana, Katakana) else kana], false, Settles(Kana(mode), ""))
        else Quietly(Midashi(kana, ""), "")
    }

    /** The phase that a completion leads to, if the cursor is at its end. */
    static function Completed(kana: string, state: string, completion: Option<CompletionState>): Phase {
      if state == "" && completion.Some? then Midashi(completion.value.preview, "") else Midashi(kana, state)
    }

    function MidashiEffect(event: KeyEvent, kana: string, state: string, mode: KanaMode,
                           completion: Option<CompletionState>): Effect
    {
      if event.key == Escape then Quietly(Kana(Hiragana), "")
      else if event.key == BackSpace then Erased(kana, state)
      else if event.key == Return then Effect(NonEmpty(Flushed(kana, state)), true, Settles(Kana(mode), ""))
      else if event.key == Key.Space then
        if Flushed(kana, state) == "" then Quietly(Kana(Hiragana), "")
        else Effect([], false, Converts(Flushed(kana, state), None, None, None))
      else if event.key == Tab then Quietly(Completed(kana, state, completion), state)
      else if event.IsCtrl('q') then Effect(NonEmpty(Convert(kana, HalfWidth)), false, Settles(Kana(mode), ""))
      else if event.PrintableChar().None? then Effect([], true, Settles(Midashi(kana, state), state))
      else HeadEffect(event.PrintableChar().value, event.modifiers.ctrl, kana, state, mode)
    }

    function OkuriKeyEffect(event: KeyEvent, midashi: string, prefix: char, buf: string, state: string): Effect {
      if event.key == Escape then Quietly(Kana(Hiragana), "")
      else if event.key == BackSpace then
        var state' := if state != "" then state[..|state| - 1] else state;
        var buf' := if state == "" && buf != "" then buf[..|buf| - 1] else buf;
        Quietly(if state' == "" && buf' == "" then Midashi(midashi, "") else Okuri(midashi, prefix, buf'), state')
      else if event.PrintableChar().None? then Effect([], true, Settles(Okuri(midashi, prefix, buf), state))
      else OkuriEffect(midashi, prefix, buf, state, ToAsciiLowercase(event.PrintableChar().value))
    }

    static function AbbrevEffect(event: KeyEvent, buf: string, mode: KanaMode): Effect {
      if event.key == Escape then Quietly(Kana(mode), "")
      else if event.key == BackSpace then Quietly(if buf == "" then Kana(mode) else Abbrev(buf[..|buf| - 1]), "")
      else if event.key == Key.Space then
        if buf == "" then Quietly(Abbrev(""), "") else Effect([], false, Converts(buf, None, None, None))
      else if event.IsCtrl('j') then Effect(NonEmpty(buf), false, Settles(Kana(mode), ""))
      else if event.key == Return then Effect(NonEmpty(buf), true, Settles(Kana(mode), ""))
      else if event.key.Char? && !event.modifiers.ctrl then Quietly(Abbrev(buf + [event.key.c]), "")
      else Quietly(Abbrev(buf), "")
    }

    function CodeEffect(event: KeyEvent, prefix: CodeInputPrefix, code: string, mode: KanaMode): Effect {
      if event.key == BackSpace then ErasedCode(prefix, code, mode)
      else if !EndsCode(event) then
        Quietly(CodeInput(CodeAfter(event, prefix, code).0, CodeAfter(event, prefix, code).1), "")
      else
        var decoded := if event.key == Return || event.IsCtrl('j') then decode(prefix, code) else None;
        Effect(if decoded.Some? then [decoded.value] else [], false, Settles(Kana(mode), ""))
    }

    static predicate BackToKana(event: KeyEvent) {
      event.IsCtrl('j') || event.IsCtrl('q')
    }

    static function AsciiEffect(event: KeyEvent): Effect {
      if BackToKana(event) then Quietly(Kana(Hiragana), "") else Effect([], true, Settles(Ascii, ""))
    }

    function WideEffect(event: KeyEvent): Effect {
      var c := event.PrintableChar();
      if BackToKana(event) then Quietly(Kana(Hiragana), "")
      else if event.key == Escape then Effect([], true, Settles(if keys.viEscape then Ascii else WideAscii, ""))
      else if c.Some? && ToWideAscii(c.value).Some? then
        Effect([[ToWideAscii(c.value).value]], false, Settles(WideAscii, ""))
      else Effect([], true, Settles(WideAscii, ""))
    }

    function KanaEffect(event: KeyEvent, mode: KanaMode, state: string): Effect {
      if event.IsCtrl('j') then Quietly(Kana(Hiragana), "")
      else if event.IsCtrl('q') then Quietly(Kana(if mode == HalfWidth then Hiragana else HalfWidth), "")
      else if event.key == Escape then Effect([], true, Settles(if keys.viEscape then Ascii else Kana(mode), ""))
      else if event.key == BackSpace && state != "" then Quietly(Kana(mode), state[..|state| - 1])
      else if event.PrintableChar().None? then Effect([], true, Settles(Kana(mode), state))
      else if event.modifiers.ctrl then Effect([], true, Settles(Kana(mode), ""))
      else CharEffect(event.PrintableChar().value, mode, state)
    }

    /** A character in a kana mode: a command, the start of a headword, or input for the automaton. */
    function CharEffect(ch: char, mode: KanaMode, state: string): Effect {
      if state == "" && IsCommand(ch) then
        if IsAsciiUppercase(ch) && !IsModeKey(ch) then HeadEffect(ch, false, "", "", mode)
        else Quietly(CommandPhase(ch, mode), "")
      else
        var fed := Feed(table, state, ch, mode);
        Effect(fed.commits, false, Settles(Kana(mode), fed.state))
    }

    /** The effect of a key in any phase but the two that a selection has. */
    function PhaseEffect(event: KeyEvent, v: View): Effect
      requires !v.phase.Selecting? && !v.phase.PurgeConfirm?
    {
      match v.phase
      case Kana(mode) => KanaEffect(event, mode, v.kanaState)
      case WideAscii => WideEffect(event)
      case Ascii => AsciiEffect(event)
      case CodeInput(prefix, code) => CodeEffect(event, prefix, code, v.displayMode)
      case Abbrev(ascii) => AbbrevEffect(event, ascii, v.displayMode)
      case Midashi(kanaBuf, romanBuf) => MidashiEffect(event, kanaBuf, romanBuf, v.displayMode, v.completion)
      case Okuri(midashi, prefix, buf) => OkuriKeyEffect(event, midashi, prefix, buf, v.kanaState)
    }

    /** A state, and the actions sent, have the effect of a key. */
    ghost predicate Achieved(e: Effect, v: View, frames: seq<RegisterFrame>, trigger: Option<string>,
                             actions: seq<Action>)
    {
      && Sends(actions, e.texts, e.passes)
      && match e.target
         case Settles(p, s) => v.phase == p && v.kanaState == s && v.frames == frames && v.trigger == trigger
         case Converts(midashi, okuriKey, okuri, follow) =>
           Converted(v, frames, midashi, okuriKey, okuri) && v.trigger == (if follow.Some? then follow else trigger)
    }

    static lemma Unopened(frames: seq<RegisterFrame>)
      ensures SameOrOpened(frames, frames)
    {
    }

    /** The short lists that the handlers send are well-formed. */
    static lemma ShortLists()
      ensures WellFormed([ClearPreedit]) && WellFormed([Passthrough]) && WellFormed([ClearPreedit, Passthrough])
      ensures forall p: Preedit | p.Valid() :: WellFormed([UpdatePreedit(p)])
      ensures forall s :: WellFormed([Commit(s)]) && WellFormed([Commit(s), ClearPreedit])
      ensures forall s :: WellFormed([Commit(s), ClearPreedit, Passthrough])
    {
    }

    // ── ASCII, wide ASCII, code input and abbrev modes ────────────────────────

    method HandleAscii(event: KeyEvent) returns (actions: seq<Action>)
      requires Valid() && phase.Ascii?
      modifies this`phase
      ensures Handled(old(registerStack), actions)
      ensures Achieved(AsciiEffect(event), Now(), old(registerStack), old(conversionTrigger), actions)
      ensures event.IsCtrl('j') || event.IsCtrl('q') ==> phase == Kana(Hiragana) && actions == [ClearPreedit]
      ensures !(event.IsCtrl('j') || event.IsCtrl('q')) ==> phase == Ascii && actions == [Passthrough]
    {
      PassSends();
      if event.modifiers.ctrl {
        if event.key == Char('j') || event.key == Char('q') {
          phase := Kana(Hiragana);
          return [ClearPreedit];
        }
      }
      return [Passthrough];
    }

    method HandleWideAscii(event: KeyEvent) returns (actions: seq<Action>)
      requires Valid() && phase.WideAscii?
      modifies this`phase
      ensures Handled(old(registerStack), actions)
      ensures Achieved(WideEffect(event), Now(), old(registerStack), old(conversionTrigger), actions)
      ensures phase == if event.IsCtrl('j') || event.IsCtrl('q') then Kana(Hiragana)
                       else if event.key == Escape && keys.viEscape then Ascii else WideAscii
      ensures var c := event.PrintableChar();
        actions == if event.IsCtrl('j') || event.IsCtrl('q') then [ClearPreedit]
                   else if event.key == Escape then [ClearPreedit, Passthrough]
                   else if c.Some? && ToWideAscii(c.value).Some? then [Commit([ToWideAscii(c.value).value])]
                   else [Passthrough]
    {
      hide SelectionOk, Sends, FramesValid, Converted, ToWideAscii;
      PassSends();
      if event.modifiers.ctrl {
        if event.key == Char('j') || event.key == Char('q') {
          phase := Kana(Hiragana);
          return [ClearPreedit];
        }
      }
      if event.key == Escape {
        if keys.viEscape { phase := Ascii; }
        return [ClearPreedit, Passthrough];
      }
      var ch := event.PrintableChar();
      if ch.Some? && ToWideAscii(ch.value).Some? {
        TextSends([ToWideAscii(ch.value).value]);
        return [Commit([ToWideAscii(ch.value).value])];
      }
      return [Passthrough];
    }

    /** The keys that end code input. "u" right after the backslash asks for a Unicode code point instead. */
    static predicate EndsCode(event: KeyEvent) {
      event.key == Escape || event.key == Return || event.IsCtrl('j')
    }

    /** The code input that a key leaves behind when it does not end it. */
    static function CodeAfter(event: KeyEvent, prefix: CodeInputPrefix, code: string): (CodeInputPrefix, string) {
      if prefix == Jis && code == "" && event.key == Char('u') then (Unicode, "")
      else if event.key.Char? && IsAsciiHexDigit(event.key.c) && !event.modifiers.ctrl
      then (prefix, code + [ToAsciiLowercase(event.key.c)])
      else (prefix, code)
    }

    /** What BackSpace leaves of code input. */
    static function ErasedCode(prefix: CodeInputPrefix, code: string, mode: KanaMode): Effect {
      if code != "" then Quietly(CodeInput(prefix, code[..|code| - 1]), "")
      else if prefix == Unicode then Quietly(CodeInput(Jis, ""), "")
      else Quietly(Kana(mode), "")
    }

    /** The part of `handle_code_input` for BackSpace. */
    method EraseCode(prefix: CodeInputPrefix, code: string) returns (actions: seq<Action>)
      requires Valid() && phase == CodeInput(prefix, code)
      modifies this`phase, this`kanaState
      ensures Handled(old(registerStack), actions)
      ensures Achieved(ErasedCode(prefix, code, displayMode), Now(), old(registerStack),
                       old(conversionTrigger), actions)
    {
      hide SelectionOk, BuildPreedit, CommitsOf, Sends, FramesValid, CandidateList, Converted;
      PassSends();
      if code != "" {
        phase := CodeInput(prefix, code[..|code| - 1]);
      } else if prefix == Unicode {
        phase := CodeInput(Jis, "");
      } else {
        phase, kanaState := Kana(displayMode), "";
        return [ClearPreedit];
      }
      actions := [PreeditAction()];
    }

    method HandleCodeInput(event: KeyEvent, prefix: CodeInputPrefix, code: string) returns (actions: seq<Action>)
      requires Valid() && phase == CodeInput(prefix, code)
      modifies this`phase, this`kanaState
      ensures Handled(old(registerStack), actions) && registerStack == old(registerStack)
      ensures Achieved(CodeEffect(event, prefix, code, displayMode), Now(), old(registerStack), old(conversionTrigger),
                       actions)
    {
      hide SelectionOk, BuildPreedit, CommitsOf, Sends, FramesValid, CandidateList, Converted, ListingShow,
           WellFormed, SameOrOpened, ToAsciiLowercase;
      ShortLists();
      Unopened(registerStack);
      PassSends();
      if event.key == Escape {
        phase, kanaState := Kana(displayMode), "";
        return [ClearPreedit];
      }
      if event.key == BackSpace {
        actions := EraseCode(prefix, code);
        return;
      }
      if prefix == Jis && code == "" && event.PrintableChar() == Some('u') {
        phase := CodeInput(Unicode, "");
        return [PreeditAction()];
      }
      if event.key == Return || event.IsCtrl('j') {
        var text := decode(prefix, code);
        phase, kanaState := Kana(displayMode), "";
        if text.Some? {
          TextSends(text.value);
          return [Commit(text.value), ClearPreedit];
        }
        return [ClearPreedit];
      }
      var ch := event.PrintableChar();
      if ch.Some? && IsAsciiHexDigit(ch.value) && !event.modifiers.ctrl {
        phase := CodeInput(prefix, code + [ToAsciiLowercase(ch.value)]);
        return [PreeditAction()];
      }
      return [PreeditAction()];
    }

    method HandleAbbrev(event: KeyEvent, buf: string) returns (actions: seq<Action>)
      requires Valid() && phase == Abbrev(buf)
      modifies this`phase, this`completion, this`registerStack, this`kanaState, this`offeredBy
      ensures Handled(old(registerStack), actions)
      ensures Achieved(AbbrevEffect(event, buf, displayMode), Now(), old(registerStack),
                       old(conversionTrigger), actions)
      ensures event.key == Escape ==> actions == [ClearPreedit]
    {
      hide SelectionOk, BuildPreedit, Converted, CommitsOf, CandidateList, Sends, FramesValid, ListingShow;
      PassSends();
      if event.key == Escape {
        phase := Kana(displayMode);
        return [ClearPreedit];
      }
      if event.key == BackSpace {
        if buf == "" {
          phase := Kana(displayMode);
          return [ClearPreedit];
        }
        phase := Abbrev(buf[..|buf| - 1]);
        return [PreeditAction()];
      }
      if event.key == Space {
        if buf == "" {
          return [PreeditAction()];
        }
        actions := StartConversion(buf, None);
        QuietSends(actions);
        return;
      }
      TextSends(buf);
      if event.IsCtrl('j') {
        phase := Kana(displayMode);
        if buf == "" { return [ClearPreedit]; }
        return [Commit(buf), ClearPreedit];
      }
      if event.key == Return {
        phase := Kana(displayMode);
        if buf == "" { return [ClearPreedit, Passthrough]; }
        return [Commit(buf), ClearPreedit, Passthrough];
      }
      var ch := event.PrintableChar();
      if ch.None? { return [PreeditAction()]; }
      if event.modifiers.ctrl { return [PreeditAction()]; }
      phase := Abbrev(buf + [ch.value]);
      return [PreeditAction()];
    }

    // ── Kana input ────────────────────────────────────────────────────────────

    /** The actions that a key may leave to a kana mode: nothing is passed on or deleted. */
    static predicate IsTyping(actions: seq<Action>) {
      WellFormed(actions) && forall i | 0 <= i < |actions| :: !actions[i].Passthrough? && !actions[i].DeleteBack?
    }

    static lemma TypingIsWellFormed(actions: seq<Action>)
      requires IsTyping(actions)
      ensures WellFormed(actions)
    {
    }

    static lemma FedActions(output: string, shown: Action)
      requires IsQuiet(shown) && WellFormed([shown])
      ensures var actions := if output == "" then [shown] else [Commit(output), shown];
        CommitsOf(actions) == NonEmpty(output) && IsTyping(actions) && Sends(actions, CommitsOf(actions), false)
    {
      NoCommits(shown);
      assert IsTyping([shown]) by { assert [shown][0] == shown; }
      RetriedActions(output, [shown]);
      hide CommitsOf, IsTyping;
      assert [Commit(output)] + [shown] == [Commit(output), shown];
      assert NonEmpty(output) + [] == NonEmpty(output);
    }

    static lemma RetriedActions(output: string, rest: seq<Action>)
      requires IsTyping(rest)
      ensures var actions := if output == "" then rest else [Commit(output)] + rest;
        && CommitsOf(actions) == NonEmpty(output) + CommitsOf(rest) && IsTyping(actions)
        && Sends(actions, CommitsOf(actions), false)
    {
      CommitThen(output, rest);
    }

    /** Feeds a character into the romaji automaton; a retry restarts from the empty state, so it happens
        at most once. */
    method FeedKana(ch: char) returns (actions: seq<Action>)
      requires Valid() && phase.Kana?
      modifies this`kanaState
      ensures Valid() && IsTyping(actions) && actions != []
      ensures Fed(kanaState, CommitsOf(actions)) == Feed(table, old(kanaState), ch, phase.mode)
      ensures Sends(actions, CommitsOf(actions), false)
      decreases kanaState != ""
    {
      hide SelectionOk, BuildPreedit, Transition, Feed, CommitsOf, IsTyping, Sends;
      StartNeverRetries(table, kanaState, ch, phase.mode);
      FeedSteps(table, kanaState, ch, phase.mode);
      match Transition(table, kanaState, ch, phase.mode) {
        case Moved(output, next) =>
          kanaState := next;
          var shown := if next == "" && output != "" then ClearPreedit else PreeditAction();
          if output == "" {
            actions := [shown];
          } else {
            actions := [Commit(output), shown];
          }
          FedActions(output, shown);
        case MovedRetry(output, retry) =>
          kanaState := "";
          var rest := FeedKana(retry);
          if output == "" {
            actions := rest;
          } else {
            actions := [Commit(output)] + rest;
          }
          RetriedActions(output, rest);
        case NoMatch(_, again) =>
          kanaState := "";
          if again.Some? {
            actions := FeedKana(again.value);
          } else {
            actions := [Commit([ch]), ClearPreedit];
            FedActions([ch], ClearPreedit);
          }
      }
    }

    /** The characters that do something else than feed the automaton when no romaji is pending. */
    predicate IsCommand(ch: char) {
      ch in keys.asciiMode || ch in keys.wideAsciiMode || ch in keys.abbrevMode || ch in keys.katakanaMode
      || IsAsciiUppercase(ch) || ch == '\\'
    }

    /** The phase that a command character leads to, apart from the capitals that begin a headword. */
    function CommandPhase(ch: char, mode: KanaMode): Phase
      requires IsCommand(ch) && !(IsAsciiUppercase(ch) && !IsModeKey(ch))
    {
      if ch in keys.asciiMode then Ascii
      else if ch in keys.wideAsciiMode then WideAscii
      else if ch in keys.abbrevMode then Abbrev("")
      else if ch in keys.katakanaMode then Kana(if mode == Hiragana then Katakana else Hiragana)
      else CodeInput(Jis, "")
    }

    predicate IsModeKey(ch: char) {
      ch in keys.asciiMode || ch in keys.wideAsciiMode || ch in keys.abbrevMode || ch in keys.katakanaMode
    }

    /** The keys that begin code input, an abbreviation or a headword, which remember the kana mode. */
    predicate LatchesMode(event: KeyEvent, state: string) {
      && state == "" && event.PrintableChar().Some? && !event.modifiers.ctrl
      && var ch := event.PrintableChar().value;
         IsCommand(ch)
         && (if IsModeKey(ch) then CommandPhase(ch, Hiragana).Abbrev? else true)
    }

    lemma CapitalBegins(event: KeyEvent, mode: KanaMode, completion: Option<CompletionState>)
      requires event.PrintableChar().Some? && IsAsciiUppercase(event.PrintableChar().value) && !event.modifiers.ctrl
      ensures MidashiEffect(event, "", "", mode, completion)
           == HeadEffect(event.PrintableChar().value, false, "", "", mode)
    {
      hide HeadEffect;
    }

    /** The part of `handle_kana` for command characters. */
    method HandleCommand(event: KeyEvent) returns (actions: seq<Action>)
      requires Valid() && phase.Kana? && kanaState == ""
      requires event.PrintableChar().Some? && !event.modifiers.ctrl && IsCommand(event.PrintableChar().value)
      modifies this`phase, this`kanaState, this`registerStack, this`displayMode, this`isAbbrev, this`completion,
               this`conversionTrigger, this`offeredBy
      ensures Handled(old(registerStack), actions)
      ensures Achieved(CharEffect(event.PrintableChar().value, old(phase).mode, ""), Now(), old(registerStack),
                       old(conversionTrigger), actions)
      ensures displayMode == if LatchesMode(event, "") then old(phase).mode else old(displayMode)
      ensures IsAsciiUppercase(event.PrintableChar().value) && !IsModeKey(event.PrintableChar().value) ==> !isAbbrev
      ensures IsModeKey(event.PrintableChar().value) && phase.Abbrev? ==> isAbbrev
    {
      hide SelectionOk, BuildPreedit, Feed, CommitsOf, CandidateList, FramesValid, Sends, HeadEffect, Converted,
           ListingShow, MidashiEffect;
      PassSends();
      var mode, ch := phase.mode, event.PrintableChar().value;
      if ch in keys.asciiMode {
        phase := Ascii;
        return [ClearPreedit];
      }
      if ch in keys.wideAsciiMode {
        phase := WideAscii;
        return [ClearPreedit];
      }
      if ch in keys.abbrevMode {
        displayMode, isAbbrev, phase := mode, true, Abbrev("");
        return [PreeditAction()];
      }
      if ch in keys.katakanaMode {
        phase := Kana(if mode == Katakana || mode == HalfWidth then Hiragana else Katakana);
        return [ClearPreedit];
      }
      if IsAsciiUppercase(ch) {
        displayMode, isAbbrev, phase := mode, false, Midashi("", "");
        CapitalBegins(event, mode, completion);
        actions := HandleMidashi(event, "", "");
        return;
      }
      displayMode, phase := mode, CodeInput(Jis, "");
      return [PreeditAction()];
    }

    method HandleKana(event: KeyEvent) returns (actions: seq<Action>)
      requires Valid() && phase.Kana?
      modifies this`phase, this`kanaState, this`registerStack, this`displayMode, this`isAbbrev, this`completion,
               this`conversionTrigger, this`offeredBy
      ensures Handled(old(registerStack), actions)
      ensures Achieved(KanaEffect(event, old(phase).mode, old(kanaState)), Now(), old(registerStack),
                       old(conversionTrigger), actions)
      ensures BackToKana(event) ==> actions == [ClearPreedit]
      ensures event.key == Escape ==> actions == [ClearPreedit, Passthrough]
      ensures displayMode == if LatchesMode(event, old(kanaState)) then old(phase).mode else old(displayMode)
    {
      hide SelectionOk, BuildPreedit, Feed, CommitsOf, CandidateList, IsTyping, IsReadingChar, Reading, FramesValid,
           Sends, HeadEffect, Converted, ListingShow;
      var mode := phase.mode;
      PassSends();
      if event.IsCtrl('j') {
        phase, kanaState := Kana(Hiragana), "";
        return [ClearPreedit];
      }
      if event.IsCtrl('q') {
        phase, kanaState := Kana(if mode == HalfWidth then Hiragana else HalfWidth), "";
        return [ClearPreedit];
      }
      if event.key == Escape {
        kanaState := "";
        if keys.viEscape { phase := Ascii; }
        return [ClearPreedit, Passthrough];
      }
      if event.key == BackSpace {
        if kanaState != "" {
          kanaState := kanaState[..|kanaState| - 1];
          return [PreeditAction()];
        }
        return [Passthrough];
      }
      if event.PrintableChar().None? { return [Passthrough]; }
      var ch := event.PrintableChar().value;
      if event.modifiers.ctrl {
        kanaState := "";
        return [Passthrough];
      }
      if kanaState == "" && IsCommand(ch) {
        actions := HandleCommand(event);
        return;
      }
      actions := FeedKana(ch);
      ghost var fed := Feed(table, old(kanaState), ch, mode);
      assert fed == Fed(kanaState, CommitsOf(actions));
      assert WellFormed(actions) by { TypingIsWellFormed(actions); }
    }

    // ── The headword ──────────────────────────────────────────────────────────

    /** A pending "n" counts as "ん" when the headword ends; other pending romaji is dropped. */
    function Flushed(kanaBuf: string, romanBuf: string): string {
      if romanBuf == "n" then kanaBuf + "ん" else kanaBuf
    }

    /** What a conversion trigger prints: its own mapping in the table, if it has a single-step one. */
    function TriggerOutput(ch: char): string {
      match Transition(table, "", ch, Hiragana)
      case Moved(output, next) => if output != "" && next == "" then output else [ch]
      case _ => [ch]
    }

    predicate IsAsciiTrigger(ch: char) {
      ch < '\U{0080}' && ch in keys.conversionTriggerChars
    }

    predicate EndsInKanaTrigger(kana: string) {
      kana != "" && kana[|kana| - 1] >= '\U{0080}' && kana[|kana| - 1] in keys.conversionTriggerChars
    }

    /** What BackSpace leaves of a headword. */
    static function Erased(kana: string, state: string): Effect {
      if state != "" then Quietly(Midashi(kana, state[..|state| - 1]), state[..|state| - 1])
      else if kana != "" then Quietly(Midashi(kana[..|kana| - 1], ""), "")
      else Quietly(Kana(Hiragana), "")
    }

    /** The part of `handle_midashi` for BackSpace. */
    method EraseReading(kanaBuf0: string, romanBuf0: string) returns (actions: seq<Action>)
      requires Valid() && phase == Midashi(kanaBuf0, romanBuf0)
      modifies this`phase, this`kanaState, this`completion
      ensures Handled(old(registerStack), actions)
      ensures Achieved(Erased(kanaBuf0, romanBuf0), Now(), old(registerStack), old(conversionTrigger), actions)
      ensures romanBuf0 == "" ==>
                completion == if kanaBuf0 == "" then None else FreshCompletion(kanaBuf0[..|kanaBuf0| - 1])
    {
      hide SelectionOk, BuildPreedit, CandidateList, CompletionFrom, FreshCompletion, CommitsOf, Sends, FramesValid;
      PassSends();
      var kanaBuf, romanBuf := kanaBuf0, romanBuf0;
      if romanBuf != "" {
        romanBuf := romanBuf[..|romanBuf| - 1];
        kanaState := romanBuf;
      } else if kanaBuf != "" {
        kanaBuf := kanaBuf[..|kanaBuf| - 1];
        kanaState := "";
        completion := FreshCompletion(kanaBuf);
      } else {
        completion, phase, kanaState := None, Kana(Hiragana), "";
        return [ClearPreedit];
      }
      phase := Midashi(kanaBuf, romanBuf);
      actions := [PreeditAction()];
    }

    method HandleMidashi(event: KeyEvent, kanaBuf0: string, romanBuf0: string) returns (actions: seq<Action>)
      requires Valid() && phase == Midashi(kanaBuf0, romanBuf0)
      modifies this`phase, this`kanaState, this`registerStack, this`completion, this`conversionTrigger, this`offeredBy
      ensures Handled(old(registerStack), actions)
      ensures Achieved(MidashiEffect(event, kanaBuf0, romanBuf0, displayMode, old(completion)), Now(),
                       old(registerStack), old(conversionTrigger), actions)
      ensures event.key == Escape ==> phase == Kana(Hiragana) && actions == [ClearPreedit]
      ensures event.key == Tab && romanBuf0 == "" && old(completion).Some? ==>
                completion == CompletionFrom(old(completion).value.cyclePrefix, old(completion).value.nextIndex)
      decreases kanaState != "", 2
    {
      hide SelectionOk, BuildPreedit, CandidateList, Converted, CompletionFrom, FreshCompletion, Transition, Convert,
           CommitsOf, Reading, NoTriggerIn, Sends, HeadEffect, FramesValid, ListingShow;
      PassSends();
      var kanaBuf, romanBuf := kanaBuf0, romanBuf0;
      if event.key == Escape {
        completion, phase, kanaState := None, Kana(Hiragana), "";
        return [ClearPreedit];
      }
      if event.key == BackSpace {
        actions := EraseReading(kanaBuf, romanBuf);
        return;
      }
      if event.key == Return {
        if romanBuf == "n" { kanaBuf := kanaBuf + "ん"; }
        completion, phase, kanaState := None, Kana(displayMode), "";
        if kanaBuf == "" { return [ClearPreedit, Passthrough]; }
        TextSends(kanaBuf);
        return [Commit(kanaBuf), ClearPreedit, Passthrough];
      }
      if event.key == Key.Space {
        if romanBuf == "n" { kanaBuf := kanaBuf + "ん"; }
        completion, kanaState := None, "";
        if kanaBuf == "" {
          phase := Kana(Hiragana);
          return [ClearPreedit];
        }
        actions := StartConversion(kanaBuf, None);
        QuietSends(actions);
        return;
      }
      if event.key == Tab {
        if romanBuf == "" && completion.Some? {
          var state := completion.value;
          completion := CompletionFrom(state.cyclePrefix, state.nextIndex);
          kanaState, phase := "", Midashi(state.preview, "");
        }
        return [PreeditAction()];
      }
      if event.IsCtrl('q') {
        completion, phase, kanaState := None, Kana(displayMode), "";
        ConvertIsEmpty(kanaBuf, HalfWidth);
        if kanaBuf == "" { return [ClearPreedit]; }
        TextSends(Convert(kanaBuf, HalfWidth));
        return [Commit(Convert(kanaBuf, HalfWidth)), ClearPreedit];
      }
      if event.PrintableChar().None? { return [Passthrough]; }
      actions := HandleMidashiChar(event, kanaBuf, romanBuf);
    }

    /** The reading after a letter: what was typed, plus what the automaton makes of the letter. A letter
        that starts no kana is dropped here, not typed. */
    function Reading(kana: string, state: string, ch: char): (string, string)
      decreases state != ""
    {
      match Transition(table, state, ch, Hiragana)
      case Moved(output, next) => (kana + output, next)
      case MovedRetry(output, retry) => Reading(kana + output, "", retry)
      case NoMatch(_, again) => if again.Some? then Reading(kana, "", again.value) else (kana, "")
    }

    predicate NoTriggerIn(s: string) {
      forall i | 0 <= i < |s| :: s[i] !in keys.conversionTriggerChars
    }

    /** A character that just extends the reading: it has no meaning of its own in a headword, and neither it
        nor its reading is a conversion trigger. A capital counts as a small letter at the very beginning. */
    predicate IsReadingChar(kana: string, state: string, ch: char) {
      var lower := ToAsciiLowercase(ch);
      && ch !in {'>', '<', '?', 'q', 'Q'} && !IsAsciiDigit(ch) && (IsAsciiUppercase(ch) ==> kana == "")
      && ch !in keys.conversionTriggerChars && lower !in keys.conversionTriggerChars
      && NoTriggerIn(Reading(kana, state, lower).0)
    }

    /** How okurigana begins with a capital: kana completed while a consonant stays pending belongs to the
        headword; completed okurigana is converted at once; otherwise it is pending. */
    ghost predicate OkuriBegun(v: View, frames: seq<RegisterFrame>, kana: string, state: string, lower: char)
    {
      var r := Transition(table, state, lower, Hiragana);
      var prefix := if state != "" then state[0] else lower;
      && (r.Moved? && r.output != "" && r.nextState == "" ==>
            Converted(v, frames, kana, Some(OkuriKey(table, state, lower)), Some(r.output)))
      && (r.Moved? && r.output != "" && r.nextState != "" && state != "" ==>
            v.phase == Okuri(kana + r.output, r.nextState[0], "") && v.kanaState == r.nextState)
      && (r.Moved? && (r.output == "" || (state == "" && r.nextState != "")) ==>
            v.phase == Okuri(kana, prefix, r.output) && v.kanaState == r.nextState)
      && (r.NoMatch? ==> v.phase == Okuri(kana, prefix, "") && v.kanaState == "")
      && (r.MovedRetry? && r.output != "" ==>
            Converted(v, frames, kana, Some(OkuriKey(table, state, lower)), Some(r.output)))
      && (r.MovedRetry? && r.output == "" ==> v.phase == Okuri(kana, prefix, "") && v.kanaState == "")
    }

    /** What the effect of a capital amounts to; nothing is sent to the application. */
    lemma OkuriBegins(v: View, frames: seq<RegisterFrame>, trigger: Option<string>, actions: seq<Action>,
                      kana: string, state: string, lower: char)
      requires Achieved(CapitalEffect(kana, state, lower), v, frames, trigger, actions)
      ensures OkuriBegun(v, frames, kana, state, lower) && AllQuiet(actions)
    {
      hide Converted, Transition, OkuriKey, Sends;
      var r := Transition(table, state, lower, Hiragana);
      assert !r.NoMatch? ==> "" + r.output == r.output;
      SendsNothing(actions);
    }

    /** The part of `handle_midashi` for characters. */
    method HandleMidashiChar(event: KeyEvent, kanaBuf0: string, romanBuf0: string) returns (actions: seq<Action>)
      requires Valid() && phase == Midashi(kanaBuf0, romanBuf0)
      requires event.key.Char? && !event.IsCtrl('q')
      modifies this`phase, this`kanaState, this`registerStack, this`completion, this`conversionTrigger, this`offeredBy
      ensures Handled(old(registerStack), actions)
      ensures Achieved(HeadEffect(event.key.c, event.modifiers.ctrl, kanaBuf0, romanBuf0, displayMode), Now(),
                       old(registerStack), old(conversionTrigger), actions)
      decreases kanaState != "", 1
    {
      hide SelectionOk, BuildPreedit, CandidateList, Converted, FreshCompletion, Transition, Convert, CommitsOf,
           FramesValid, Reading, Sends, LetterEffect, CapitalEffect, ListingShow;
      PassSends();
      var kanaBuf, romanBuf := kanaBuf0, romanBuf0;
      var ch := event.key.c;
      if kanaState == "" && IsAsciiTrigger(ch) {
        if romanBuf == "n" { kanaBuf := kanaBuf + "ん"; }
        completion, kanaState := None, "";
        var output := TriggerOutput(ch);
        if kanaBuf == "" {
          phase := Kana(displayMode);
          TextSends(output);
          return [Commit(output), ClearPreedit];
        }
        conversionTrigger := Some(output);
        actions := StartConversion(kanaBuf, None);
        QuietSends(actions);
        return;
      }
      if ch == '>' || ch == '<' || ch == '?' {
        completion := None;
        if romanBuf != "" { kanaBuf := kanaBuf + romanBuf; }
        kanaState := "";
        assert kanaBuf == kanaBuf0 + romanBuf0;
        if kanaBuf == "" {
          phase := Midashi(kanaBuf, "");
          return [PreeditAction()];
        }
        actions := StartConversion(kanaBuf + ">", None);
        QuietSends(actions);
        return;
      }
      if IsAsciiDigit(ch) && !event.modifiers.ctrl {
        kanaState, completion, phase := "", None, Midashi(kanaBuf + [ch], "");
        return [PreeditAction()];
      }
      if IsAsciiUppercase(ch) && kanaBuf != "" {
        actions := StartOkuri(event, kanaBuf);
        return;
      }
      actions := TypeReading(event, kanaBuf, romanBuf);
    }

    lemma RetriedEffect(retry: char, kana: string, mode: KanaMode, completion: Option<CompletionState>)
      ensures MidashiEffect(KeyEvent(Char(retry), NO_MODIFIERS, true), kana, "", mode, completion)
           == HeadEffect(retry, false, kana, "", mode)
    {
      hide HeadEffect;
    }

    /** The character goes to the automaton, and what comes out goes into the reading. */
    method TypeReading(event: KeyEvent, kanaBuf0: string, romanBuf0: string) returns (actions: seq<Action>)
      requires Valid() && phase == Midashi(kanaBuf0, romanBuf0)
      requires event.key.Char? && !event.IsCtrl('q')
      modifies this`phase, this`kanaState, this`registerStack, this`completion, this`conversionTrigger, this`offeredBy
      ensures Handled(old(registerStack), actions)
      ensures Achieved(LetterEffect(event.key.c, event.modifiers.ctrl, kanaBuf0, romanBuf0, displayMode), Now(),
                       old(registerStack), old(conversionTrigger), actions)
      decreases kanaState != "", 0
    {
      hide SelectionOk, BuildPreedit, CandidateList, Converted, FreshCompletion, Transition, Convert, CommitsOf,
           FramesValid, Sends, TakeEffect, HeadEffect, ListingShow, MidashiEffect;
      PassSends();
      var kanaBuf := kanaBuf0;
      var ch := event.key.c;
      var lower := ToAsciiLowercase(ch);
      StartNeverRetries(table, kanaState, lower, Hiragana);
      match Transition(table, kanaState, lower, Hiragana) {
        case Moved(output, next) =>
          actions := TakeKana(kanaBuf, output, next);
        case MovedRetry(output, retry) =>
          kanaState, kanaBuf := "", kanaBuf + output;
          phase := Midashi(kanaBuf, "");
          RetriedEffect(retry, kanaBuf, displayMode, completion);
          actions := HandleMidashi(KeyEvent(Char(retry), NO_MODIFIERS, true), kanaBuf, "");
        case NoMatch(_, again) =>
          kanaState := "";
          phase := Midashi(kanaBuf, "");
          if again.Some? {
            RetriedEffect(again.value, kanaBuf, displayMode, completion);
            actions := HandleMidashi(KeyEvent(Char(again.value), NO_MODIFIERS, true), kanaBuf, "");
          } else if ch == 'q' && !event.modifiers.ctrl && kanaBuf != "" {
            var text := if displayMode == Hiragana then Convert(kanaBuf, Katakana) else kanaBuf;
            completion, phase, kanaState := None, Kana(displayMode), "";
            TextSends(text);
            actions := [Commit(text), ClearPreedit];
          } else {
            actions := [PreeditAction()];
          }
      }
    }

    /** The headword ends in a kana trigger: what is before it is converted, and it will follow the word. */
    method EndAtKanaTrigger(kana: string) returns (actions: seq<Action>)
      requires FramesValid(registerStack) && EndsInKanaTrigger(kana)
      modifies this`phase, this`kanaState, this`registerStack, this`completion, this`conversionTrigger, this`offeredBy
      ensures Handled(old(registerStack), actions)
      ensures Achieved(TakeEffect("", kana, "", displayMode), Now(), old(registerStack),
                       old(conversionTrigger), actions)
    {
      hide SelectionOk, BuildPreedit, CandidateList, Converted, Sends, FramesValid, ListingShow;
      var last := kana[|kana| - 1];
      assert "" + kana == kana;
      var kanaBuf := kana[..|kana| - 1];
      assert |kana| == 1 ==> kana == [last];
      completion, kanaState := None, "";
      if kanaBuf == "" {
        phase := Kana(displayMode);
        TextSends([last]);
        return [Commit([last]), ClearPreedit];
      }
      conversionTrigger := Some([last]);
      actions := StartConversion(kanaBuf, None);
      QuietSends(actions);
    }

    /** Kana arrived in the headword, or romaji is pending. */
    method TakeKana(kanaBuf0: string, output: string, next: string) returns (actions: seq<Action>)
      requires FramesValid(registerStack)
      modifies this`phase, this`kanaState, this`registerStack, this`completion, this`conversionTrigger, this`offeredBy
      ensures Handled(old(registerStack), actions)
      ensures Achieved(TakeEffect(kanaBuf0, output, next, displayMode), Now(), old(registerStack),
                       old(conversionTrigger), actions)
    {
      hide SelectionOk, BuildPreedit, CandidateList, Converted, FreshCompletion, EndsInKanaTrigger, Sends,
           FramesValid, ListingShow;
      PassSends();
      var kanaBuf := kanaBuf0 + output;
      assert "" + kanaBuf == kanaBuf;
      if output != "" {
        kanaState := next;
        if next == "" {
          if EndsInKanaTrigger(kanaBuf) {
            actions := EndAtKanaTrigger(kanaBuf);
            return;
          }
          completion := FreshCompletion(kanaBuf);
        } else {
          completion := None;
        }
      } else {
        completion, kanaState := None, next;
      }
      phase := Midashi(kanaBuf, next);
      actions := [PreeditAction()];
    }

    // ── Okurigana ─────────────────────────────────────────────────────────────

    /** An upper-case letter after a reading starts the okurigana. Kana that the letter completes while a
        consonant stays pending still belongs to the headword. */
    method StartOkuri(event: KeyEvent, kanaBuf: string) returns (actions: seq<Action>)
      requires Valid() && phase.Midashi? && event.key.Char? && IsAsciiUppercase(event.key.c)
      modifies this`phase, this`kanaState, this`registerStack, this`completion, this`offeredBy
      ensures Handled(old(registerStack), actions)
      ensures Achieved(CapitalEffect(kanaBuf, old(kanaState), ToAsciiLowercase(event.key.c)), Now(), old(registerStack),
                       old(conversionTrigger), actions)
    {
      hide SelectionOk, BuildPreedit, Transition, FreshCompletion, Converted, OkuriKey, CandidateList, Sends,
           FramesValid, ListingShow;
      PassSends();
      completion := None;
      var lower := ToAsciiLowercase(event.key.c);
      if kanaState != "" {
        var r := Transition(table, kanaState, lower, Hiragana);
        if r.Moved? && r.output != "" && r.nextState != "" {
          kanaState := r.nextState;
          phase := Okuri(kanaBuf + r.output, kanaState[0], "");
          return [PreeditAction()];
        }
      }
      var prefix := if kanaState != "" then kanaState[0] else lower;
      var r := Transition(table, kanaState, lower, Hiragana);
      assert !r.NoMatch? ==> "" + r.output == r.output;
      phase := Okuri(kanaBuf, prefix, "");
      actions := HandleOkuri(event, kanaBuf, prefix, "");
    }

    /** The part of `handle_okuri` for characters. */
    method OkuriLetter(lower: char, midashi: string, okuriPrefix: char, okuriBuf0: string) returns (actions: seq<Action>)
      requires Valid() && phase == Okuri(midashi, okuriPrefix, okuriBuf0)
      modifies this`phase, this`kanaState, this`registerStack, this`completion, this`offeredBy
      ensures Handled(old(registerStack), actions) && AllQuiet(actions)
      ensures Achieved(OkuriEffect(midashi, okuriPrefix, okuriBuf0, old(kanaState), lower), Now(), old(registerStack),
                       old(conversionTrigger), actions)
    {
      hide SelectionOk, BuildPreedit, CandidateList, Converted, FreshCompletion, Transition, OkuriKey, Sends,
           FramesValid, ListingShow;
      PassSends();
      var okuriBuf := okuriBuf0;
      var preState := kanaState;
      match Transition(table, preState, lower, Hiragana) {
        case Moved(output, next) =>
          kanaState := next;
          okuriBuf := okuriBuf + output;
          if output != "" && next == "" {
            phase := Kana(Hiragana);
            actions := StartConversion(midashi, Some((OkuriKey(table, preState, lower), okuriBuf)));
            QuietSends(actions);
            return;
          }
          phase := Okuri(midashi, okuriPrefix, okuriBuf);
          actions := [PreeditAction()];
        case MovedRetry(output, _) =>
          kanaState := "";
          if output != "" {
            okuriBuf := okuriBuf + output;
            phase := Kana(Hiragana);
            actions := StartConversion(midashi, Some((OkuriKey(table, preState, lower), okuriBuf)));
            QuietSends(actions);
            return;
          }
          phase := Okuri(midashi, okuriPrefix, okuriBuf);
          actions := [PreeditAction()];
        case NoMatch(_, _) =>
          kanaState := "";
          phase := Okuri(midashi, okuriPrefix, okuriBuf);
          actions := [PreeditAction()];
      }
    }

    method HandleOkuri(event: KeyEvent, midashi: string, okuriPrefix: char, okuriBuf0: string)
      returns (actions: seq<Action>)
      requires Valid() && phase == Okuri(midashi, okuriPrefix, okuriBuf0)
      modifies this`phase, this`kanaState, this`registerStack, this`completion, this`offeredBy
      ensures Handled(old(registerStack), actions)
      ensures Achieved(OkuriKeyEffect(event, midashi, okuriPrefix, okuriBuf0, old(kanaState)), Now(), old(registerStack),
                       old(conversionTrigger), actions)
      ensures event.key.Char? ==> AllQuiet(actions)
      ensures event.key == Escape ==> phase == Kana(Hiragana) && kanaState == "" && actions == [ClearPreedit]
    {
      hide SelectionOk, BuildPreedit, CandidateList, Converted, FreshCompletion, Transition, OkuriKey, Sends,
           FramesValid, ListingShow, WellFormed, SameOrOpened, ToAsciiLowercase;
      ShortLists();
      Unopened(registerStack);
      PassSends();
      var okuriBuf := okuriBuf0;
      if event.key == Escape {
        phase, kanaState := Kana(Hiragana), "";
        return [ClearPreedit];
      }
      if event.key == BackSpace {
        if kanaState != "" {
          kanaState := kanaState[..|kanaState| - 1];
        } else if okuriBuf != "" {
          okuriBuf := okuriBuf[..|okuriBuf| - 1];
        }
        if kanaState == "" && okuriBuf == "" {
          completion := FreshCompletion(midashi);
          phase := Midashi(midashi, "");
          return [PreeditAction()];
        }
        phase := Okuri(midashi, okuriPrefix, okuriBuf);
        return [PreeditAction()];
      }
      if event.PrintableChar().None? { return [Passthrough]; }
      actions := OkuriLetter(ToAsciiLowercase(event.PrintableChar().value), midashi, okuriPrefix, okuriBuf);
    }

    // ── Candidate selection ───────────────────────────────────────────────────

    /** What a key means while candidates are offered; earlier lines take precedence. */
    function SelectKeyOf(event: KeyEvent, sel: Selection): SelectKey {
      var count := |sel.candidates|;
      if event.key == Escape || (event.PrintsOneOf(keys.cancel) && sel.index == 0) then Abort
      else if event.PrintsOneOf(keys.cancel) then Back
      else if event.key == BackSpace then Confirm(sel.index, [DeleteBack])
      else if event.key == Return then Confirm(sel.index, [Passthrough])
      else if event.IsCtrl('j') then Confirm(sel.index, [])
      else if event.key == Key.Space then Advance
      else if event.key.Char? && keys.pager.Picked(event.key.c, sel.index, count).Some? then
        Confirm(keys.pager.Picked(event.key.c, sel.index, count).value, [])
      else if event.key == Char('X') && !event.modifiers.ctrl && !keys.pager.InListing(sel.index) then AskPurge
      else if event.key.Char? && event.key.c in {'>', '<', '?'} then Suffix
      else if event.key.Char? && !event.modifiers.ctrl then Retype(event)
      else Ignore
    }

    /** What each meaning leads to, from the frames, dictionaries and trigger before the key. */
    ghost predicate Selected(v: View, key: SelectKey, sel: Selection, frames: seq<RegisterFrame>, dicts0: seq<Dictionary>,
                             trigger: Option<string>, actions: seq<Action>)
      requires sel.index < |sel.candidates| == |sel.origin|
    {
      match key
      case Abort =>
        && v.phase == Midashi(sel.midashi, "") && v.kanaState == "" && v.trigger == None && AllQuiet(actions)
        && v.frames == frames && v.dicts == dicts0
      case Back =>
        && sel.index > 0 && v.phase == Selecting(sel.(index := keys.pager.Previous(sel.index))) && AllQuiet(actions)
        && v.frames == frames && v.dicts == dicts0
      case Confirm(index, more) =>
        && v.phase == Kana(v.displayMode) && v.kanaState == "" && v.trigger == None && v.frames == frames
        && index < |sel.candidates| && v.dicts == AfterChoice(dicts0, sel, index)
        && actions == ChoiceActions(sel, index, trigger) + more
      case Advance =>
        AllQuiet(actions) && v.dicts == dicts0 && Advanced(v, keys.pager.Next(sel.index, |sel.candidates|), sel, frames)
      case AskPurge =>
        && v.phase == PurgeConfirm(sel, "", v.displayMode) && AllQuiet(actions)
        && v.frames == frames && v.dicts == dicts0
      case Suffix =>
        && v.phase == Midashi(">", "") && v.kanaState == "" && v.trigger == None
        && v.dicts == AfterChoice(dicts0, sel, sel.index) && v.frames == frames
        && actions != [] && IsQuiet(actions[|actions| - 1])
        && actions == ChoiceActions(sel, sel.index, trigger) + [actions[|actions| - 1]]
      case Retype(event) =>
        && v.dicts == AfterChoice(dicts0, sel, sel.index) && ChoiceActions(sel, sel.index, trigger) <= actions
        && Achieved(KanaEffect(event, v.displayMode, ""), v, frames, None,
                    actions[|ChoiceActions(sel, sel.index, trigger)|..])
      case Ignore =>
        actions == [Passthrough] && v.phase == Selecting(sel) && v.dicts == dicts0 && v.frames == frames
    }

    /** Space shows the next display, or opens a frame for the headword after the last one. */
    ghost predicate Advanced(v: View, next: Option<nat>, sel: Selection, frames: seq<RegisterFrame>)
    {
      match next
      case Some(index) => v.phase == Selecting(sel.(index := index)) && v.frames == frames
      case None =>
        && v.phase == Kana(Hiragana) && v.trigger == None
        && v.frames == frames + [FreshFrame(sel.midashi, sel.okuriKey, sel.okuri, v.isAbbrev)]
    }

    method BackToHeadword(sel: Selection) returns (actions: seq<Action>)
      requires FramesValid(registerStack) && sel.index < |sel.candidates| == |sel.origin|
      modifies this`phase, this`kanaState, this`conversionTrigger, this`completion
      ensures Handled(registerStack, actions) && kanaState == "" && completion == FreshCompletion(sel.midashi)
      ensures Selected(Now(), Abort, sel, registerStack, dicts, old(conversionTrigger), actions)
    {
      hide BuildPreedit, CompletionFrom;
      phase, kanaState, conversionTrigger := Midashi(sel.midashi, ""), "", None;
      completion := FreshCompletion(sel.midashi);
      actions := [HideCandidates, PreeditAction()];
    }

    /** The page at an index; without one, the window is hidden if it was open. */
    function WindowAt(candidates: seq<Candidate>, index: nat, hideWindow: bool): (r: seq<Action>)
      requires index < |candidates|
      ensures WellFormed(r) && AllQuiet(r)
    {
      hide ListingShow;
      var show := ListingShow(candidates, index);
      if show == [] && hideWindow then [HideCandidates] else show
    }

    /** Shows the candidates at another index. */
    method ShowSelection(sel: Selection, hideWindow: bool) returns (actions: seq<Action>)
      requires FramesValid(registerStack) && kanaState == "" && SelectionOk(Offered(), keys.pager, sel)
      modifies this`phase
      ensures Valid() && WellFormed(actions) && AllQuiet(actions) && actions != []
      ensures phase == Selecting(sel)
    {
      hide BuildPreedit, SelectionOk, ListingShow, WindowAt, CandidateList, WellFormed, AllQuiet, FramesValid,
           InnerPreedit, InFrame, IsQuiet;
      SelectionBounds(Offered(), keys.pager, sel);
      phase := Selecting(sel);
      var show := WindowAt(sel.candidates, sel.index, hideWindow);
      ShownIsFine();
      WellFormedSnoc(show, PreeditAction());
      actions := show + [PreeditAction()];
    }

    method EnterRegisterFromSelecting(sel: Selection) returns (actions: seq<Action>)
      requires FramesValid(registerStack)
      modifies this`phase, this`kanaState, this`conversionTrigger, this`registerStack
      ensures Valid() && WellFormed(actions) && AllQuiet(actions) && actions != []
      ensures registerStack == old(registerStack) + [FreshFrame(sel.midashi, sel.okuriKey, sel.okuri, isAbbrev)]
      ensures phase == Kana(Hiragana) && kanaState == "" && conversionTrigger == None
    {
      hide BuildPreedit;
      registerStack := registerStack + [FreshFrame(sel.midashi, sel.okuriKey, sel.okuri, isAbbrev)];
      phase, kanaState, conversionTrigger := Kana(Hiragana), "", None;
      actions := [HideCandidates, PreeditAction()];
    }

    /** Space: the next display, or registration after the last. */
    method AdvanceSelection(sel: Selection) returns (actions: seq<Action>)
      requires Valid() && phase == Selecting(sel) && sel.index < |sel.candidates| == |sel.origin|
      modifies this`phase, this`kanaState, this`conversionTrigger, this`registerStack
      ensures Handled(old(registerStack), actions)
      ensures Selected(Now(), Advance, sel, old(registerStack), dicts, old(conversionTrigger), actions)
    {
      hide SelectionOk, CandidateList;
      if keys.pager.Next(sel.index, |sel.candidates|).Some? {
        NextSelection(Offered(), keys.pager, sel);
      }
      var selLen := |keys.pager.keys|;
      var next;
      if selLen > 0 && sel.index >= keys.pager.inlineCount {
        next := sel.index + selLen;
      } else {
        next := sel.index + 1;
      }
      if next >= |sel.candidates| {
        actions := EnterRegisterFromSelecting(sel);
      } else {
        actions := ShowSelection(sel.(index := next), false);
      }
    }

    /** The cancel key past the first candidate. */
    method StepBack(sel: Selection) returns (actions: seq<Action>)
      requires Valid() && phase == Selecting(sel) && 0 < sel.index < |sel.candidates| == |sel.origin|
      modifies this`phase
      ensures Handled(registerStack, actions)
      ensures Selected(Now(), Back, sel, registerStack, dicts, conversionTrigger, actions)
    {
      hide SelectionOk, CandidateList;
      PreviousSelection(Offered(), keys.pager, sel);
      var inlineCount, selLen := keys.pager.inlineCount, |keys.pager.keys|;
      var inListing := selLen > 0 && sel.index >= inlineCount;
      var prev;
      if inListing {
        var raw := SaturatingSub(sel.index, selLen);
        prev := if raw < inlineCount then SaturatingSub(inlineCount, 1) else raw;
      } else {
        prev := sel.index - 1;
      }
      actions := ShowSelection(sel.(index := prev), inListing);
    }

    /** Commits a candidate, then does something more in a kana mode. */
    method ConfirmThen(sel: Selection, index: nat, more: seq<Action>) returns (actions: seq<Action>)
      requires FramesValid(registerStack) && sel.index < |sel.candidates| == |sel.origin| && index < |sel.candidates|
      requires WellFormed(more)
      modifies this`dicts, this`phase, this`kanaState, this`conversionTrigger
      ensures Handled(registerStack, actions) && conversionTrigger == None && kanaState == ""
      ensures Selected(Now(), Confirm(index, more), sel, registerStack, old(dicts), old(conversionTrigger), actions)
    {
      hide AfterChoice;
      actions := CommitCandidate(sel, index);
      ConcatWellFormed(actions, more);
      actions := actions + more;
    }

    /** Commits the focused candidate and starts a headword for a suffix. */
    method SuffixMode(sel: Selection) returns (actions: seq<Action>)
      requires FramesValid(registerStack) && sel.index < |sel.candidates| == |sel.origin|
      modifies this`dicts, this`phase, this`kanaState, this`conversionTrigger
      ensures Handled(registerStack, actions)
      ensures Selected(Now(), Suffix, sel, registerStack, old(dicts), old(conversionTrigger), actions)
    {
      hide AfterChoice, BuildPreedit;
      actions := CommitCandidate(sel, sel.index);
      phase, kanaState := Midashi(">", ""), "";
      ConcatWellFormed(actions, [PreeditAction()]);
      actions := actions + [PreeditAction()];
    }

    /** Commits the focused candidate and gives the key to the kana mode. */
    method RetypeKey(event: KeyEvent, sel: Selection) returns (actions: seq<Action>)
      requires FramesValid(registerStack) && sel.index < |sel.candidates| == |sel.origin|
      modifies this`phase, this`kanaState, this`registerStack, this`displayMode, this`isAbbrev, this`completion,
               this`conversionTrigger, this`dicts, this`offeredBy
      ensures Handled(old(registerStack), actions)
      ensures Selected(Now(), Retype(event), sel, old(registerStack), old(dicts), old(conversionTrigger), actions)
    {
      hide AfterChoice, SelectionOk, BuildPreedit, KanaEffect, Achieved, FramesValid, CandidateList, Converted,
           ListingShow;
      var chosen := CommitCandidate(sel, sel.index);
      var more := HandleKana(event);
      ConcatWellFormed(chosen, more);
      actions := chosen + more;
      assert actions[|chosen|..] == more;
    }

    lemma ShownIsFine()
      requires Displayable()
      ensures WellFormed([PreeditAction()]) && IsQuiet(PreeditAction()) && AllQuiet([PreeditAction()])
      ensures WellFormed([HideCandidates]) && AllQuiet([HideCandidates])
      ensures WellFormed([ClearPreedit]) && AllQuiet([ClearPreedit])
    {
      hide BuildPreedit;
    }

    static lemma ShownThen(a: Action, shown: seq<Action>)
      requires WellFormed([a]) && IsQuiet(a) && WellFormed(shown) && AllQuiet(shown)
      ensures WellFormed([a] + shown) && AllQuiet([a] + shown)
    {
      ConcatWellFormed([a], shown);
    }

    static lemma WellFormedSnoc(shown: seq<Action>, a: Action)
      requires WellFormed(shown) && AllQuiet(shown) && WellFormed([a]) && IsQuiet(a)
      ensures WellFormed(shown + [a]) && AllQuiet(shown + [a])
    {
      ConcatWellFormed(shown, [a]);
    }

    static lemma ConcatWellFormed(a: seq<Action>, b: seq<Action>)
      requires WellFormed(a) && WellFormed(b)
      ensures WellFormed(a + b)
    {
    }

    method HandleSelecting(event: KeyEvent, sel: Selection) returns (actions: seq<Action>)
      requires Valid() && phase == Selecting(sel) && sel.index < |sel.candidates| == |sel.origin|
      modifies this`phase, this`kanaState, this`registerStack, this`displayMode, this`isAbbrev, this`completion,
               this`conversionTrigger, this`dicts, this`offeredBy
      ensures Handled(old(registerStack), actions)
      ensures Selected(Now(), SelectKeyOf(event, sel), sel, old(registerStack), old(dicts), old(conversionTrigger),
                       actions)
    {
      hide SelectionOk, BuildPreedit, Selected, WellFormed, FramesValid, CandidateList, Converted, Achieved,
           ListingShow, AllQuiet, SameOrOpened, Find;
      if event.key == Escape {
        actions := BackToHeadword(sel);
        return;
      }
      if event.PrintsOneOf(keys.cancel) {
        if sel.index == 0 {
          actions := BackToHeadword(sel);
        } else {
          actions := StepBack(sel);
        }
        return;
      }
      if event.key == BackSpace {
        JustShown(DeleteBack);
        actions := ConfirmThen(sel, sel.index, [DeleteBack]);
        return;
      }
      if event.key == Return {
        JustShown(Passthrough);
        actions := ConfirmThen(sel, sel.index, [Passthrough]);
        return;
      }
      JustShown(Passthrough);
      if event.IsCtrl('j') {
        actions := ConfirmThen(sel, sel.index, []);
        return;
      }
      if event.key == Key.Space {
        actions := AdvanceSelection(sel);
        return;
      }
      var inListing := keys.pager.InListing(sel.index);
      if inListing && event.key.Char? {
        var position := Find(keys.pager.keys, event.key.c);
        if position.Some? && sel.index + position.value < |sel.candidates| {
          actions := ConfirmThen(sel, sel.index + position.value, []);
          return;
        }
      }
      if event.key == Char('X') && !event.modifiers.ctrl && !inListing {
        actions := AskToPurge(sel);
        return;
      }
      if event.key.Char? && event.key.c in {'>', '<', '?'} {
        actions := SuffixMode(sel);
        return;
      }
      if event.key.Char? && !event.modifiers.ctrl {
        actions := RetypeKey(event, sel);
        return;
      }
      actions := [Passthrough];
      Ignored(sel, old(registerStack), old(dicts));
    }

    static lemma JustShown(a: Action)
      requires a.Passthrough? || a.DeleteBack?
      ensures WellFormed([a]) && WellFormed([])
    {
    }

    lemma Ignored(sel: Selection, frames: seq<RegisterFrame>, dicts0: seq<Dictionary>)
      requires phase == Selecting(sel) && sel.index < |sel.candidates| == |sel.origin|
      requires dicts == dicts0 && registerStack == frames
      ensures Selected(Now(), Ignore, sel, frames, dicts0, conversionTrigger, [Passthrough])
      ensures SameOrOpened(frames, frames)
    {
    }

    method AskToPurge(sel: Selection) returns (actions: seq<Action>)
      requires Valid() && phase == Selecting(sel) && sel.index < |sel.candidates| == |sel.origin|
      modifies this`phase
      ensures Handled(registerStack, actions)
      ensures Selected(Now(), AskPurge, sel, registerStack, dicts, conversionTrigger, actions)
    {
      hide SelectionOk, BuildPreedit;
      phase := PurgeConfirm(sel, "", displayMode);
      actions := [HideCandidates, PreeditAction()];
    }

    // ── Purging ───────────────────────────────────────────────────────────────

    /** The keys that the purge prompt neither uses nor consumes. */
    static predicate IsIgnoredByPrompt(event: KeyEvent, answer: string) {
      if event.key == Return then answer != "yes" && answer != "no"
      else event.key != BackSpace
           && !(event.key.Char? && IsAsciiAlphabetic(event.key.c) && !event.modifiers.ctrl)
    }

    /** What the purge prompt does with a key. */
    static ghost predicate Prompted(v: View, event: KeyEvent, was: View, actions: seq<Action>)
      requires was.phase.PurgeConfirm? && was.phase.purging.index < |was.phase.purging.candidates|
    {
      var sel, answer := was.phase.purging, was.phase.answer;
      && v.frames == was.frames && AllQuiet(actions) && (actions == [] <==> IsIgnoredByPrompt(event, answer))
      && if event.key == Return && answer == "yes" then
           && v.phase == Kana(was.phase.returnMode) && v.kanaState == "" && v.trigger == None
           && v.dicts == PurgeEverywhere(was.dicts, sel.midashi, sel.okuri, sel.candidates[sel.index].word)
         else
           && v.dicts == was.dicts && v.trigger == was.trigger
           && v.phase == if event.key == Return && answer == "no" then Selecting(sel)
                         else if IsIgnoredByPrompt(event, answer) then was.phase
                         else was.phase.(answer := if event.key != BackSpace then answer + [event.key.c]
                                                   else if answer == "" then "" else answer[..|answer| - 1])
    }

    method HandlePurgeConfirm(event: KeyEvent, sel: Selection, answer: string, returnMode: KanaMode)
      returns (actions: seq<Action>)
      requires Valid() && phase == PurgeConfirm(sel, answer, returnMode) && sel.index < |sel.candidates|
      modifies this`phase, this`kanaState, this`conversionTrigger, this`dicts
      ensures Valid() && WellFormed(actions) && AllQuiet(actions)
      ensures Prompted(Now(), event, old(Now()), actions)
    {
      hide SelectionOk, BuildPreedit, ListingShow, CandidateList, PurgeEverywhere;
      if event.key == Return {
        if answer == "yes" {
          phase := Kana(returnMode);
          PurgeAll(sel.midashi, sel.okuri, sel.candidates[sel.index].word);
          kanaState, conversionTrigger := "", None;
          return [HideCandidates, ClearPreedit];
        }
        if answer == "no" {
          phase := Selecting(sel);
          actions := ListingShow(sel.candidates, sel.index) + [PreeditAction()];
          return;
        }
        return [];
      }
      if event.key == BackSpace {
        phase := PurgeConfirm(sel, if answer == "" then "" else answer[..|answer| - 1], returnMode);
        return [PreeditAction()];
      }
      var ch := event.PrintableChar();
      if ch.Some? && IsAsciiAlphabetic(ch.value) && !event.modifiers.ctrl {
        phase := PurgeConfirm(sel, answer + [ch.value], returnMode);
        return [PreeditAction()];
      }
      return [];
    }

    // ── Dispatch ──────────────────────────────────────────────────────────────

    /** `render_current_phase`: what is shown again when raw mode is left. */
    function RenderCurrentPhase(): (actions: seq<Action>)
      requires Displayable()
      reads this
      ensures WellFormed(actions) && AllQuiet(actions) && actions != []
    {
      hide BuildPreedit, ListingShow, FramesValid, WellFormed, AllQuiet;
      ShownIsFine();
      if phase.Ascii? || phase.WideAscii? || (phase.Kana? && kanaState == "") then [ClearPreedit]
      else if phase.Selecting? then
        var show := ListingShow(phase.selection.candidates, phase.selection.index);
        ShownThen(PreeditAction(), show);
        [PreeditAction()] + show
      else [PreeditAction()]
    }

    /** How a key may change the dictionaries: by the choice of an offered candidate, by finishing the
        innermost frame, or by a confirmed purge. */
    static ghost predicate DictsStep(was: Phase, frames: seq<RegisterFrame>,
                                     before: seq<Dictionary>, after: seq<Dictionary>)
    {
      || after == before
      || (was.Selecting? && |was.selection.candidates| == |was.selection.origin|
          && exists i | 0 <= i < |was.selection.candidates| :: after == AfterChoice(before, was.selection, i))
      || (frames != [] && after == LearnEverywhere(before, RegisteredEntry(Top(frames))))
      || (was.PurgeConfirm? && was.purging.index < |was.purging.candidates|
          && after == PurgeEverywhere(before, was.purging.midashi, was.purging.okuri,
                                      was.purging.candidates[was.purging.index].word))
    }

    lemma SelectedDicts(key: SelectKey, sel: Selection, frames: seq<RegisterFrame>, dicts0: seq<Dictionary>,
                        trigger: Option<string>, actions: seq<Action>)
      requires sel.index < |sel.candidates| == |sel.origin|
      requires Selected(Now(), key, sel, frames, dicts0, trigger, actions)
      ensures DictsStep(Selecting(sel), frames, dicts0, dicts)
    {
    }

    /** Whether a key is left to the application by an empty action list. */
    predicate IsUnanswered(event: KeyEvent)
      reads this
    {
      phase.PurgeConfirm? && IsIgnoredByPrompt(event, phase.answer)
    }

    /** What a key that goes to its phase does, before anything is kept back by a registration frame. */
    ghost predicate Answered(was: View, event: KeyEvent, actions: seq<Action>, v: View) {
      match was.phase
      case Selecting(sel) =>
        && sel.index < |sel.candidates| == |sel.origin|
        && Selected(v, SelectKeyOf(event, sel), sel, was.frames, was.dicts, was.trigger, actions)
      case PurgeConfirm(sel, _, _) => sel.index < |sel.candidates| == |sel.origin| && Prompted(v, event, was, actions)
      case _ => v.dicts == was.dicts && Achieved(PhaseEffect(event, was), v, was.frames, was.trigger, actions)
    }

    /** The key goes to the handler of the phase. */
    method Dispatch(event: KeyEvent) returns (actions: seq<Action>)
      requires Valid()
      modifies this`phase, this`kanaState, this`registerStack, this`displayMode, this`isAbbrev, this`completion,
               this`conversionTrigger, this`dicts, this`offeredBy
      ensures Valid() && WellFormed(actions) && SameOrOpened(old(registerStack), registerStack)
      ensures Answered(old(Now()), event, actions, Now())
      ensures actions == [] <==> old(IsUnanswered(event))
      ensures actions == [] ==> phase == old(phase) && registerStack == old(registerStack)
      ensures DictsStep(old(phase), old(registerStack), old(dicts), dicts)
    {
      hide SelectionOk, WellFormed, SelectKeyOf, Selected, DictsStep, Converted, FramesValid, Achieved, Prompted,
           KanaEffect, MidashiEffect, OkuriKeyEffect, AbbrevEffect, CodeEffect, WideEffect, AsciiEffect,
           CandidateList, ListingShow;
      ghost var phase0, frames0, dicts0, trigger0 := phase, registerStack, dicts, conversionTrigger;
      SameDicts(phase0, frames0, dicts0);
      match phase {
        case Ascii => actions := HandleAscii(event);
        case Kana(_) => actions := HandleKana(event);
        case WideAscii => actions := HandleWideAscii(event);
        case CodeInput(prefix, code) => actions := HandleCodeInput(event, prefix, code);
        case Abbrev(buf) => actions := HandleAbbrev(event, buf);
        case Midashi(kanaBuf, romanBuf) => actions := HandleMidashi(event, kanaBuf, romanBuf);
        case Okuri(midashi, prefix, kanaBuf) => actions := HandleOkuri(event, midashi, prefix, kanaBuf);
        case Selecting(sel) =>
          SelectionBounds(Offered(), keys.pager, sel);
          actions := HandleSelecting(event, sel);
          SelectedDicts(SelectKeyOf(event, sel), sel, frames0, dicts0, trigger0, actions);
        case PurgeConfirm(sel, answer, returnMode) =>
          SelectionBounds(Offered(), keys.pager, sel);
          actions := HandlePurgeConfirm(event, sel, answer, returnMode);
          PurgedDicts(old(Now()), event, actions, Now());
      }
    }

    static lemma SameDicts(was: Phase, frames: seq<RegisterFrame>, dicts0: seq<Dictionary>)
      ensures DictsStep(was, frames, dicts0, dicts0)
    {
    }

    /** What the outcome of the purge prompt says of dictionaries and of keys without an answer. */
    static lemma PurgedDicts(was: View, event: KeyEvent, actions: seq<Action>, v: View)
      requires was.phase.PurgeConfirm? && was.phase.purging.index < |was.phase.purging.candidates|
      requires Prompted(v, event, was, actions)
      ensures DictsStep(was.phase, was.frames, was.dicts, v.dicts)
      ensures actions == [] <==> IsIgnoredByPrompt(event, was.phase.answer)
      ensures actions == [] ==> v.phase == was.phase
    {
      hide PurgeEverywhere;
    }

    // ── Keys while a frame is open ────────────────────────────────────────────

    /** What reaches the application while a frame is open: nothing, except that finishing the last frame
        commits its word with its okurigana. */
    static ghost predicate Confined(before: seq<RegisterFrame>, after: seq<RegisterFrame>, actions: seq<Action>) {
      && actions != []
      && (AllQuiet(actions)
          || (|before| == 1 && after == [] && AllQuiet(actions[1..])
              && actions[0] == Commit(RegisteredWord(before[0]) + OrEmpty(before[0].okuriKana))))
    }

    /** How a key may change the frames: edit the innermost buffer, open a frame, or close the innermost
        one, whose word then goes to the cursor of the enclosing buffer if it was finished. */
    static predicate FramesStep(before: seq<RegisterFrame>, after: seq<RegisterFrame>) {
      var d := |before|;
      || after == before
      || (|after| == d && d > 0 && after == WithTop(before, Top(after).buffer))
      || (|after| == d + 1 && after[..d] == before)
      || (d > 0 && after == before[..d - 1])
      || (d > 1 && FramesValid(before)
          && after == WithTop(before[..d - 1], Top(before[..d - 1]).buffer.Insert(RegisteredWord(Top(before)))))
    }

    /** The frames after the innermost one was finished: its word goes to the cursor of the enclosing buffer. */
    static function Finished(frames: seq<RegisterFrame>): seq<RegisterFrame>
      requires frames != [] && FramesValid(frames)
    {
      var outer := frames[..|frames| - 1];
      if outer == [] then [] else WithTop(outer, Top(outer).buffer.Insert(RegisteredWord(Top(frames))))
    }

    method CloseFrame() returns (actions: seq<Action>)
      requires Valid() && registerStack != []
      modifies this`dicts, this`registerStack, this`phase, this`kanaState, this`completion
      ensures Valid() && WellFormed(actions) && Confined(old(registerStack), registerStack, actions)
      ensures FramesStep(old(registerStack), registerStack)
      ensures registerStack == if Top(old(registerStack)).buffer.text == ""
                               then old(registerStack)[..|old(registerStack)| - 1] else Finished(old(registerStack))
      ensures dicts == if Top(old(registerStack)).buffer.text == "" then old(dicts)
                       else LearnEverywhere(old(dicts), RegisteredEntry(Top(old(registerStack))))
      ensures Top(old(registerStack)).buffer.text != "" ==> phase == Kana(Hiragana)
    {
      hide SelectionOk, BuildPreedit, RegisteredEntry, RegisteredWord, FreshCompletion;
      if Top(registerStack).buffer.text == "" {
        actions := CancelRegister();
      } else {
        actions := FinalizeRegister();
      }
    }

    static predicate IsEditKey(key: Key) {
      key == BackSpace || key == Key.Delete || key == Key.Left || key == Key.Right
    }

    /** The edit that an editing key makes in the innermost buffer. */
    static function EditedBy(key: Key, b: Buffer): (r: Buffer)
      requires b.Valid() && IsEditKey(key)
      ensures r.Valid()
    {
      if key == BackSpace then b.Backspace() else if key == Key.Delete then b.Delete()
      else if key == Key.Left then b.Left() else b.Right()
    }

    /** The text that Return puts into the buffer in the middle of a headword. */
    static function FlushedText(p: Phase): string {
      match p
      case Abbrev(ascii) => ascii
      case Midashi(kanaBuf, _) => kanaBuf
      case Okuri(midashi, _, _) => midashi
      case _ => ""
    }

    method EditKey(key: Key) returns (actions: seq<Action>)
      requires Valid() && registerStack != []
      requires IsEditKey(key)
      modifies this`registerStack
      ensures Valid() && WellFormed(actions) && Confined(old(registerStack), registerStack, actions)
      ensures registerStack == WithTop(old(registerStack), EditedBy(key, Top(old(registerStack)).buffer))
      ensures FramesStep(old(registerStack), registerStack) && |registerStack| == |old(registerStack)|
    {
      hide SelectionOk, BuildPreedit, WithTop, FramesStep;
      EditedFrames(registerStack, EditedBy(key, Top(registerStack).buffer));
      if key == BackSpace {
        RegBackspace();
      } else if key == Key.Delete {
        RegDelete();
      } else if key == Key.Left {
        RegMoveLeft();
      } else {
        RegMoveRight();
      }
      PreeditIsShown();
      actions := [PreeditAction()];
    }

    predicate IsReady()
      reads this
    {
      phase.Kana? && kanaState == ""
    }

    /** Text typed straight into the innermost buffer. */
    method TypeIntoFrame(text: string) returns (actions: seq<Action>)
      requires Valid() && registerStack != []
      modifies this`registerStack
      ensures Valid() && WellFormed(actions) && Confined(old(registerStack), registerStack, actions)
      ensures registerStack == WithTop(old(registerStack), Top(old(registerStack)).buffer.Insert(text))
      ensures FramesStep(old(registerStack), registerStack)
    {
      hide SelectionOk, BuildPreedit;
      InsertNothing(Top(registerStack).buffer);
      WithTopTwice(registerStack, Top(registerStack).buffer, Top(registerStack).buffer);
      EditedFrames(registerStack, Top(registerStack).buffer.Insert(text));
      if text != "" { RegInsert(text); }
      PreeditIsShown();
      actions := [PreeditAction()];
    }

    static lemma EditedFrames(before: seq<RegisterFrame>, b: Buffer)
      requires before != []
      ensures FramesStep(before, WithTop(before, b)) && |WithTop(before, b)| == |before|
    {
      assert WithTop(before, Top(WithTop(before, b)).buffer) == WithTop(before, b);
    }

    /** The innermost frame is given up. */
    method DropFrame() returns (actions: seq<Action>)
      requires Valid() && registerStack != []
      modifies this`registerStack, this`phase, this`kanaState, this`completion
      ensures Valid() && WellFormed(actions) && Confined(old(registerStack), registerStack, actions)
      ensures FramesStep(old(registerStack), registerStack)
      ensures registerStack == old(registerStack)[..|old(registerStack)| - 1]
    {
      hide SelectionOk, BuildPreedit, RegisteredWord, FreshCompletion, FramesValid;
      actions := CancelRegister();
    }

    /** Nothing is in progress in the innermost buffer: a kana mode without pending romaji, or ASCII. */
    static predicate IsIdle(v: View) {
      (v.phase.Kana? && v.kanaState == "") || v.phase.Ascii?
    }

    /** The keys that registration takes for itself, by the phase they meet. */
    static predicate IsTaken(event: KeyEvent, v: View) {
      || event.IsCtrl('g')
      || (IsIdle(v) && (event.key == Return || event.key == Escape || IsEditKey(event.key)))
      || ((v.phase.Abbrev? || v.phase.Midashi? || v.phase.Okuri?) && event.key == Return)
      || (v.phase.Ascii? && event.PrintableChar().Some? && !event.modifiers.ctrl)
    }

    /** The key finishes the innermost frame. */
    static predicate Finishes(event: KeyEvent, v: View)
      requires v.frames != []
    {
      IsIdle(v) && event.key == Return && Top(v.frames).buffer.text != ""
    }

    /** The key gives the innermost frame up. */
    static predicate GivesUp(event: KeyEvent, v: View)
      requires v.frames != []
    {
      || event.IsCtrl('g')
      || (IsIdle(v) && (event.key == Escape || (event.key == Return && Top(v.frames).buffer.text == "")))
    }

    /** What a key that registration takes, and that leaves the frame open, makes of a buffer. */
    static function TakenInto(event: KeyEvent, v: View, b: Buffer): (r: Buffer)
      requires b.Valid()
      ensures r.Valid()
    {
      if IsIdle(v) && IsEditKey(event.key) then EditedBy(event.key, b)
      else if event.key == Return then b.Insert(FlushedText(v.phase))
      else if event.PrintableChar().Some? then b.Insert([event.PrintableChar().value])
      else b
    }

    /** The frames after a key that registration takes. */
    static function TakenFrames(event: KeyEvent, v: View): seq<RegisterFrame>
      requires v.frames != [] && FramesValid(v.frames)
    {
      if Finishes(event, v) then Finished(v.frames)
      else if GivesUp(event, v) then v.frames[..|v.frames| - 1]
      else WithTop(v.frames, TakenInto(event, v, Top(v.frames).buffer))
    }

    /** The keys that registration takes for itself; None leaves the key to the phase. */
    method HandleRegisterKey(event: KeyEvent) returns (r: Option<seq<Action>>)
      requires Valid() && registerStack != []
      modifies this`dicts, this`registerStack, this`phase, this`kanaState, this`completion
      ensures Valid() && FramesStep(old(registerStack), registerStack)
      ensures r.Some? <==> IsTaken(event, old(Now()))
      ensures r.Some? ==> WellFormed(r.value) && Confined(old(registerStack), registerStack, r.value)
      ensures r.None? ==> Now() == old(Now())
      ensures dicts == old(dicts)
           || dicts == LearnEverywhere(old(dicts), RegisteredEntry(Top(old(registerStack))))
      ensures r.Some? ==> registerStack == TakenFrames(event, old(Now()))
      ensures old(phase).Ascii? && event.PrintableChar().Some? && !event.modifiers.ctrl ==> phase == Ascii
      ensures event.key == Return && (old(phase).Abbrev? || old(phase).Midashi? || old(phase).Okuri?) ==>
                phase == Kana(Hiragana) && kanaState == ""
      ensures event.IsCtrl('g') || (event.key == Escape && IsIdle(old(Now()))) ==> dicts == old(dicts)
    {
      hide SelectionOk, BuildPreedit, RegisteredEntry, WellFormed, LearnEverywhere, WithTop, FramesStep, Confined,
           FramesValid, EditedBy;
      SameFrames(registerStack);
      if IsReady() {
        if event.key == Return {
          var actions := CloseFrame();
          return Some(actions);
        }
        if event.IsCtrl('g') || event.key == Escape {
          var actions := DropFrame();
          return Some(actions);
        }
        if IsEditKey(event.key) {
          var actions := EditKey(event.key);
          return Some(actions);
        }
      } else if event.IsCtrl('g') {
        phase, kanaState := Kana(Hiragana), "";
        var actions := DropFrame();
        return Some(actions);
      } else if (phase.Abbrev? || phase.Midashi? || phase.Okuri?) && event.key == Return {
        var flush := FlushedText(phase);
        phase, kanaState := Kana(Hiragana), "";
        var actions := TypeIntoFrame(flush);
        return Some(actions);
      }
      if phase.Ascii? {
        if event.key == Return {
          var actions := CloseFrame();
          return Some(actions);
        }
        if event.key == Escape {
          var actions := DropFrame();
          return Some(actions);
        }
        if IsEditKey(event.key) {
          var actions := EditKey(event.key);
          return Some(actions);
        }
        if event.PrintableChar().Some? && !event.modifiers.ctrl {
          var actions := TypeIntoFrame([event.PrintableChar().value]);
          return Some(actions);
        }
      }
      return None;
    }

    lemma PreeditIsShown()
      requires Valid()
      ensures Displayable() && WellFormed([PreeditAction()]) && AllQuiet([PreeditAction()])
    {
      hide BuildPreedit;
    }

    // ── One key ───────────────────────────────────────────────────────────────

    /** The fields that raw mode freezes. */
    function Frozen(): (Phase, string, seq<RegisterFrame>, KanaMode, bool, Option<CompletionState>, Option<string>)
      reads this
    {
      (phase, kanaState, registerStack, displayMode, isAbbrev, completion, conversionTrigger)
    }

    static lemma InterceptedFrames(before: seq<RegisterFrame>, mid: seq<RegisterFrame>, b: Buffer)
      requires SameOrOpened(before, mid) && mid != []
      ensures FramesStep(before, WithTop(mid, b))
    {
      var after := WithTop(mid, b);
      if mid == before {
        assert after == WithTop(before, Top(after).buffer);
      } else {
        assert after[..|before|] == before;
      }
    }

    /** The frames after the innermost one has taken in what a key did. */
    static function Landed(stack: seq<RegisterFrame>, raw: seq<Action>): seq<RegisterFrame>
      requires FramesValid(stack)
    {
      if stack == [] then [] else WithTop(stack, Absorbed(Top(stack).buffer, raw))
    }

    /** What was done with a key that went to its phase: the phase's own actions take effect on the application with
        no frame open afterwards, and on the innermost buffer otherwise. */
    ghost predicate Kept(was: View, event: KeyEvent, raw: seq<Action>, stack: seq<RegisterFrame>, v: View) {
      && FramesValid(stack) && SameOrOpened(was.frames, stack)
      && Answered(was, event, raw, v.(frames := stack))
      && v.frames == Landed(stack, raw)
    }

    /** Dispatch and, with a frame open afterwards, interception. */
    method DispatchAndIntercept(event: KeyEvent)
      returns (actions: seq<Action>, ghost raw: seq<Action>, ghost stack: seq<RegisterFrame>)
      requires Valid()
      modifies this`phase, this`kanaState, this`registerStack, this`displayMode, this`isAbbrev, this`completion,
               this`conversionTrigger, this`dicts, this`offeredBy
      ensures Valid() && WellFormed(actions) && FramesStep(old(registerStack), registerStack)
      ensures Kept(old(Now()), event, raw, stack, Now())
      ensures actions == if registerStack == [] then raw else Intercepted(raw, BuildPreedit())
      ensures registerStack != [] ==> actions != [] && AllQuiet(actions)
      ensures old(registerStack) != [] ==> registerStack != []
      ensures actions == [] <==> old(registerStack) == [] && old(IsUnanswered(event))
      ensures actions == [] ==> phase == old(phase)
      ensures DictsStep(old(phase), old(registerStack), old(dicts), dicts)
    {
      hide SelectionOk, DictsStep, WellFormed, AllQuiet, FramesStep, WithTop, Answered, Absorbed, BuildPreedit;
      actions := Dispatch(event);
      raw, stack := actions, registerStack;
      ghost var mid := Now();
      if registerStack != [] {
        InterceptedFrames(old(registerStack), registerStack, Absorbed(Top(registerStack).buffer, raw));
        OpenStays(stack, Absorbed(Top(stack).buffer, raw));
        actions := InterceptForRegister(actions);
        assert Now().(frames := stack) == mid;
      } else {
        SameFrames(registerStack);
      }
    }

    static lemma OpenStays(stack: seq<RegisterFrame>, b: Buffer)
      requires stack != []
      ensures WithTop(stack, b) != []
    {
    }

    static lemma SameFrames(frames: seq<RegisterFrame>)
      ensures FramesStep(frames, frames)
    {
    }

    /** The keys that go to the phase: not in raw mode, not taken by registration, and no mode toggle. */
    predicate IsDispatched(v: View, event: KeyEvent) {
      && !v.rawMode && !event.IsOneOf(keys.rawModeToggleKeys)
      && if v.frames == [] then !event.IsOneOf(keys.toggleKeys) else !IsTaken(event, v)
    }

    /** What a key that does not go to its phase does to the frames: nothing at a release, in or around raw mode, and
        with no frame open; otherwise what registration makes of it. */
    static ghost predicate KeptBack(was: View, event: KeyEvent, v: View) {
      if !event.isPress || was.rawMode || v.rawMode || was.frames == [] then v.frames == was.frames
      else FramesValid(was.frames) && IsTaken(event, was) && v.frames == TakenFrames(event, was)
    }

    method HandlePress(event: KeyEvent) returns (actions: seq<Action>, ghost answer: Answer)
      requires Valid()
      modifies this
      ensures Valid() && WellFormed(actions) && FramesStep(old(registerStack), registerStack)
      ensures DictsStep(old(phase), old(registerStack), old(dicts), dicts)
      ensures answer.Dispatched? <==> IsDispatched(old(Now()), event)
      ensures answer.Dispatched? ==>
                && Kept(old(Now()), event, answer.raw, answer.stack, Now())
                && actions == if registerStack == [] then answer.raw else Intercepted(answer.raw, BuildPreedit())
      ensures event.isPress && !answer.Dispatched? ==> KeptBack(old(Now()), event, Now())
      ensures rawMode == (old(rawMode) != event.IsOneOf(keys.rawModeToggleKeys))
      ensures old(rawMode) || rawMode ==> Frozen() == old(Frozen()) && dicts == old(dicts)
      ensures old(rawMode) && rawMode ==> actions == [Passthrough]
      ensures old(registerStack) != [] && !old(rawMode) ==> Confined(old(registerStack), registerStack, actions)
      ensures registerStack != [] && !old(rawMode) ==> actions != [] && AllQuiet(actions)
      ensures old(registerStack) == [] && !old(rawMode) && !rawMode && event.IsOneOf(keys.toggleKeys) ==>
                && phase == (if old(phase).Ascii? then Kana(Hiragana) else Ascii) && kanaState == ""
                && dicts == old(dicts) && registerStack == []
      ensures actions == [] ==> phase == old(phase) && rawMode == old(rawMode)
      ensures actions == [] <==>
                && !old(rawMode) && !event.IsOneOf(keys.rawModeToggleKeys) && old(registerStack) == []
                && !event.IsOneOf(keys.toggleKeys) && old(IsUnanswered(event))
    {
      hide SelectionOk, DictsStep, FramesStep, RegisteredEntry, RegisteredWord, IsIgnoredByPrompt, Kept, IsTaken,
           BuildPreedit, CandidateList, FramesValid, Intercepted, SameOrOpened;
      SameFrames(registerStack);
      SameDicts(phase, registerStack, dicts);
      answer := Taken;
      var isRawToggle := event.IsOneOf(keys.rawModeToggleKeys);
      if rawMode {
        if isRawToggle {
          rawMode := false;
          ValidIsDisplayable();
          actions := RenderCurrentPhase();
          return;
        }
        actions := [Passthrough];
        return;
      }
      if isRawToggle {
        rawMode := true;
        actions := [HideCandidates, ClearPreedit];
        return;
      }
      if registerStack != [] {
        var taken := HandleRegisterKey(event);
        RegisteredDicts(old(phase), old(registerStack), old(dicts), dicts);
        if taken.Some? {
          actions := taken.value;
          return;
        }
      }
      if registerStack == [] && event.IsOneOf(keys.toggleKeys) {
        if phase.Ascii? {
          phase := Kana(Hiragana);
        } else {
          phase, kanaState := Ascii, "";
        }
        actions := [ClearPreedit];
        return;
      }
      ghost var raw, stack;
      actions, raw, stack := DispatchAndIntercept(event);
      answer := Dispatched(raw, stack);
    }

    static lemma RegisteredDicts(was: Phase, frames: seq<RegisterFrame>, before: seq<Dictionary>, after: seq<Dictionary>)
      requires frames != []
      requires after == before || after == LearnEverywhere(before, RegisteredEntry(Top(frames)))
      ensures DictsStep(was, frames, before, after)
    {
    }

    /** The one-character mode indicator; conversion phases show the script that the headword began in. */
    function ModeIndicator(): string
      reads this
    {
      if rawMode then "-"
      else match phase
        case Kana(mode) => ScriptIndicator(mode)
        case Ascii => "a"
        case WideAscii => "Ａ"
        case CodeInput(_, _) => "あ"
        case PurgeConfirm(_, _, _) => "あ"
        case _ => ScriptIndicator(displayMode)
    }

    static function ScriptIndicator(mode: KanaMode): string {
      match mode
      case Hiragana => "あ"
      case Katakana => "ア"
      case HalfWidth => "ｱ"
    }

    /** Main result, for every key in every reachable state: the invariant is kept; every preedit sent has
        its cursor on a character boundary; frames change by the stack discipline only; with a frame open before the
        key, nothing reaches the application except the word of the last frame as it closes; with one open after it,
        nothing does, and the innermost buffer takes in exactly what the phase did; the key always gets an answer;
        raw mode freezes the engine; and the one case without an answer is a key that the purge prompt ignores
        outside registration. */
    method ProcessKey(event: KeyEvent) returns (actions: seq<Action>, ghost answer: Answer)
      requires Valid()
      modifies this
      ensures Valid() && WellFormed(actions) && FramesStep(old(registerStack), registerStack)
      ensures DictsStep(old(phase), old(registerStack), old(dicts), dicts)
      ensures answer.Dispatched? <==> event.isPress && IsDispatched(old(Now()), event)
      ensures if answer.Dispatched? then Kept(old(Now()), event, answer.raw, answer.stack, Now())
              else KeptBack(old(Now()), event, Now())
      ensures answer.Dispatched? && registerStack == [] ==>
                answer.raw <= actions && AllQuiet(actions[|answer.raw|..])
      ensures !event.isPress ==> Now() == old(Now()) && actions == [Passthrough]
      ensures event.isPress ==> rawMode == (old(rawMode) != event.IsOneOf(keys.rawModeToggleKeys))
      ensures event.isPress && (old(rawMode) || rawMode) ==> Frozen() == old(Frozen()) && dicts == old(dicts)
      ensures event.isPress && old(registerStack) != [] && !old(rawMode) ==>
                Confined(old(registerStack), registerStack, actions)
      ensures event.isPress && registerStack != [] && !old(rawMode) ==> actions != [] && AllQuiet(actions)
      ensures event.isPress && ModeIndicator() != old(ModeIndicator()) ==>
                actions != [] && actions[|actions| - 1] == UpdateStatus(ModeIndicator())
      ensures actions == [] <==>
                && event.isPress && !old(rawMode) && !event.IsOneOf(keys.rawModeToggleKeys)
                && old(registerStack) == [] && !event.IsOneOf(keys.toggleKeys) && old(IsUnanswered(event))
    {
      hide SelectionOk, DictsStep, FramesStep, IsIgnoredByPrompt, RegisteredWord, Kept, IsDispatched, BuildPreedit,
           CandidateList, FramesValid, Intercepted, TakenFrames, IsTaken;
      SameFrames(registerStack);
      SameDicts(phase, registerStack, dicts);
      answer := Taken;
      if !event.isPress { actions := [Passthrough]; return; }
      var before := ModeIndicator();
      actions, answer := HandlePress(event);
      var after := ModeIndicator();
      if after != before {
        actions := actions + [UpdateStatus(after)];
      }
    }

    /** Another session learned, purged or reloaded: the dictionaries are shared, so they may be anything at the next
        key. What is on offer stays as it was looked up. */
    method ShareDictionaries(shared: seq<Dictionary>)
      requires Valid()
      modifies this`dicts
      ensures Valid() && Now() == old(Now()).(dicts := shared)
    {
      hide SelectionOk;
      dicts := shared;
    }

    /** One thing that happens to a session, and what it does to what the engine holds. */
    ghost predicate IsStep(before: View, input: Input, actions: seq<Action>, answer: Answer, after: View) {
      match input
      case DictionariesChanged(shared) => after == before.(dicts := shared) && actions == [] && answer == Taken
      case Pressed(event) =>
        && WellFormed(actions) && FramesStep(before.frames, after.frames)
        && DictsStep(before.phase, before.frames, before.dicts, after.dicts)
        && (answer.Dispatched? <==> event.isPress && IsDispatched(before, event))
        && (if answer.Dispatched? then Kept(before, event, answer.raw, answer.stack, after)
            else KeptBack(before, event, after))
        && (event.isPress && before.frames != [] && !before.rawMode ==> Confined(before.frames, after.frames, actions))
        && (event.isPress && after.frames != [] && !before.rawMode ==> actions != [] && AllQuiet(actions))
    }

    /** A whole run of keys, with changes by other sessions between them. The views record what the engine held before
        each input and at the end. */
    method ProcessKeys(inputs: seq<Input>)
      returns (outputs: seq<seq<Action>>, ghost answers: seq<Answer>, ghost views: seq<View>)
      requires Valid()
      modifies this
      ensures Valid() && |outputs| == |answers| == |inputs| && |views| == |inputs| + 1
      ensures views[0] == old(Now()) && views[|inputs|] == Now()
      ensures forall i | 0 <= i < |inputs| :: IsStep(views[i], inputs[i], outputs[i], answers[i], views[i + 1])
    {
      hide SelectionOk, DictsStep, FramesStep, Confined, WellFormed, Kept, IsDispatched, Now;
      outputs, answers, views := [], [], [Now()];
      for k := 0 to |inputs|
        invariant Valid() && |outputs| == |answers| == k && |views| == k + 1
        invariant views[0] == old(Now()) && views[k] == Now()
        invariant forall i | 0 <= i < k :: IsStep(views[i], inputs[i], outputs[i], answers[i], views[i + 1])
      {
        var actions: seq<Action> := [];
        ghost var answer := Taken;
        match inputs[k] {
          case Pressed(event) =>
            ViewIsNow();
            actions, answer := ProcessKey(event);
            ViewIsNow();
          case DictionariesChanged(shared) => ShareDictionaries(shared);
        }
        outputs, answers, views := outputs + [actions], answers + [answer], views + [Now()];
      }
    }

    lemma ViewIsNow()
      ensures Now().frames == registerStack && Now().phase == phase && Now().dicts == dicts && Now().rawMode == rawMode
    {
    }

    // ── What the effects amount to ────────────────────────────────────────────

    static function Typed(c: char): KeyEvent {
      KeyEvent(Char(c), NO_MODIFIERS, true)
    }

    /** A plain character extends the reading by what the automaton makes of it, retries included, and commits
        nothing. */
    lemma {:induction false} ReadingEffect(ch: char, ctrl: bool, kana: string, state: string, mode: KanaMode)
      requires IsReadingChar(kana, state, ch)
      ensures var r := Reading(kana, state, ToAsciiLowercase(ch));
        HeadEffect(ch, ctrl, kana, state, mode) == Quietly(Midashi(r.0, r.1), r.1)
      decreases state != ""
    {
      hide Transition, OkuriKey, Convert;
      var lower := ToAsciiLowercase(ch);
      StartNeverRetries(table, state, lower, Hiragana);
      match Transition(table, state, lower, Hiragana) {
        case Moved(output, next) =>
          assert output != "" && next == "" ==> !EndsInKanaTrigger(kana + output);
        case MovedRetry(output, retry) => ReadingEffect(retry, false, kana + output, "", mode);
        case NoMatch(_, again) =>
          if again.Some? {
            ReadingEffect(again.value, false, kana, "", mode);
          }
      }
    }

    /** The headword after some keys of BackSpace. */
    static function ErasedTimes(p: Phase, n: nat): Phase
      decreases n
    {
      if n == 0 || !p.Midashi? then p else ErasedTimes(Erased(p.kanaBuf, p.romanBuf).target.phase, n - 1)
    }

    /** A headword is gone after exactly one BackSpace per character, pending romaji first, and one more. */
    static lemma {:induction false} ErasingEndsHeadword(kana: string, state: string)
      ensures ErasedTimes(Midashi(kana, state), |state| + |kana|) == Midashi("", "")
      ensures ErasedTimes(Midashi(kana, state), |state| + |kana| + 1) == Kana(Hiragana)
      decreases |state| + |kana|
    {
      if state != "" {
        ErasingEndsHeadword(kana, state[..|state| - 1]);
      } else if kana != "" {
        ErasingEndsHeadword(kana[..|kana| - 1], "");
      } else {
        assert ErasedTimes(Midashi("", ""), 1) == ErasedTimes(Kana(Hiragana), 0);
      }
    }

    static function Lowercase(s: string): string {
      if s == "" then "" else [ToAsciiLowercase(s[0])] + Lowercase(s[1..])
    }

    /** Code input after some typed characters. */
    function CodeTyped(prefix: CodeInputPrefix, code: string, digits: string, mode: KanaMode): Effect
      decreases |digits|
    {
      if digits == "" then Quietly(CodeInput(prefix, code), "")
      else
        var e := CodeEffect(Typed(digits[0]), prefix, code, mode);
        if e.target.Settles? && e.target.phase.CodeInput? && e.texts == [] && !e.passes then
          CodeTyped(e.target.phase.prefix, e.target.phase.code, digits[1..], mode)
        else e
    }

    /** Typed hex digits are kept in small letters, and Return commits what they stand for, if anything. */
    lemma {:induction false} DigitsAreDecoded(prefix: CodeInputPrefix, code: string, digits: string, mode: KanaMode)
      requires forall i | 0 <= i < |digits| :: IsAsciiHexDigit(digits[i])
      ensures CodeTyped(prefix, code, digits, mode) == Quietly(CodeInput(prefix, code + Lowercase(digits)), "")
      ensures var text := decode(prefix, code + Lowercase(digits));
        CodeEffect(KeyEvent(Return, NO_MODIFIERS, true), prefix, code + Lowercase(digits), mode)
        == Effect(if text.Some? then [text.value] else [], false, Settles(Kana(mode), ""))
      decreases |digits|
    {
      if digits == "" {
        assert code + "" == code;
      } else {
        var next := code + [ToAsciiLowercase(digits[0])];
        DigitsAreDecoded(prefix, next, digits[1..], mode);
        assert next + Lowercase(digits[1..]) == code + Lowercase(digits);
      }
    }

    /** Every character of the input reaches the automaton. */
    predicate IsFedThrough(input: string, mode: KanaMode, state: string)
      decreases |input|
    {
      input == ""
      || ((state != "" || !IsCommand(input[0]))
          && IsFedThrough(input[1..], mode, Feed(table, state, input[0], mode).state))
    }

    /** What typing some input in a kana mode commits, and the romaji it leaves pending. */
    function KanaTyped(input: string, mode: KanaMode, state: string): Fed
      requires IsFedThrough(input, mode, state)
      decreases |input|
    {
      if input == "" then Fed(state, [])
      else
        var e := KanaEffect(Typed(input[0]), mode, state);
        var rest := KanaTyped(input[1..], mode, e.target.state);
        Fed(rest.state, e.texts + rest.commits)
    }

    /** Typing in a kana mode is running the automaton of the table over the input. */
    lemma {:induction false} TypingRunsAutomaton(input: string, mode: KanaMode, state: string)
      requires IsFedThrough(input, mode, state)
      ensures KanaTyped(input, mode, state) == FeedAll(table, state, input, mode)
      decreases |input|
    {
      hide Feed;
      if input != "" {
        TypingRunsAutomaton(input[1..], mode, Feed(table, state, input[0], mode).state);
      }
    }

    /** Escape takes a conversion back: the headword returns as it was converted, nothing was sent, and frames and
        dictionaries are as before. */
    lemma EscapeUndoesSpace(was: View, space: KeyEvent, shown: seq<Action>, mid: View, escape: KeyEvent,
                            actions: seq<Action>, v: View)
      requires was.phase.Midashi? && Flushed(was.phase.kanaBuf, was.phase.romanBuf) != ""
      requires space.key == Key.Space && escape.key == Escape
      requires Answered(was, space, shown, mid) && mid.phase.Selecting? && Answered(mid, escape, actions, v)
      ensures v.phase == Midashi(Flushed(was.phase.kanaBuf, was.phase.romanBuf), "") && v.kanaState == ""
      ensures v.frames == was.frames && v.dicts == was.dicts && AllQuiet(shown) && AllQuiet(actions)
    {
      hide CandidateList, Sends;
      SendsNothing(shown);
    }

    /** What a confirmed purge achieves, in each user dictionary and for each word of each bucket: one word goes, the
        one that was shown, from the bucket under the headword and the okurigana as they were typed. So the form that the
        candidate came from goes exactly if it is stored under that headword, with that okurigana for a key, and as
        the shown word: without digits and without okurigana, or where they happen to be spelled alike. */
    lemma PurgeReaches(was: View, event: KeyEvent, actions: seq<Action>, v: View, i: nat)
      requires was.phase.PurgeConfirm? && was.phase.answer == "yes" && event.key == Return
      requires Answered(was, event, actions, v)
      requires i < |was.dicts| && was.dicts[i].User? && UniqueHeads(was.dicts[i].entries)
      ensures |v.dicts| == |was.dicts| && v.dicts[i].User?
      ensures var sel, es, after := was.phase.purging, was.dicts[i].entries, v.dicts[i].entries;
        var shown, from := sel.candidates[sel.index].word, sel.origin[sel.index];
        && (forall m, o, stored ::
              HoldsWord(GetBucket(after, m, o), stored)
              <==> HoldsWord(GetBucket(es, m, o), stored) && !(m == sel.midashi && o == sel.okuri && stored == shown))
        && (from.FromDict? && HoldsWord(GetBucket(es, from.templateMidashi, sel.okuriKey), from.templateWord) ==>
              (!HoldsWord(GetBucket(after, from.templateMidashi, sel.okuriKey), from.templateWord)
               <==> from.templateMidashi == sel.midashi && sel.okuriKey == sel.okuri && from.templateWord == shown))
    {
      hide GetBucket, HoldsWord;
      var sel := was.phase.purging;
      var es, word := was.dicts[i].entries, sel.candidates[sel.index].word;
      assert v.dicts[i] == was.dicts[i].Purge(sel.midashi, sel.okuri, word);
      forall m, o, stored
        ensures HoldsWord(GetBucket(v.dicts[i].entries, m, o), stored)
           <==> HoldsWord(GetBucket(es, m, o), stored) && !(m == sel.midashi && o == sel.okuri && stored == word)
      {
        PurgeForgets(es, sel.midashi, sel.okuri, word, m, o, stored);
      }
    }

    // ── Text that a frame keeps ───────────────────────────────────────────────

    lemma TextIsInsertedOnce(was: View, event: KeyEvent, raw: seq<Action>, stack: seq<RegisterFrame>, v: View)
      requires !was.phase.Selecting? && !was.phase.PurgeConfirm? && was.frames != []
      requires Kept(was, event, raw, stack, v) && PhaseEffect(event, was).target.Settles?
      ensures FramesValid(was.frames)
      ensures v.frames == WithTop(was.frames, Top(was.frames).buffer.Insert(Concat(PhaseEffect(event, was).texts)))
    {
      hide PhaseEffect, Absorbed, WithTop;
      assert stack == was.frames;
      CommitsAreAbsorbed(Top(stack).buffer, raw);
    }

    /** The texts that the keys of a run commit, in order. */
    function TypedText(views: seq<View>, inputs: seq<Input>): string
      requires |views| > |inputs| && forall i | 0 <= i < |inputs| :: IsTypingStep(views[i], inputs[i])
      decreases |inputs|
    {
      if inputs == [] then ""
      else
        var n := |inputs| - 1;
        assert forall i | 0 <= i < n :: inputs[..n][i] == inputs[i];
        TypedText(views, inputs[..n]) + KeyText(views[n], inputs[n])
    }

    /** A key that goes to a phase outside a selection, with a frame open, and does not begin a conversion. */
    predicate IsTypingStep(v: View, input: Input) {
      && input.Pressed? && input.event.isPress && IsDispatched(v, input.event) && v.frames != []
      && !v.phase.Selecting? && !v.phase.PurgeConfirm? && PhaseEffect(input.event, v).target.Settles?
    }

    /** The text that one such key commits. */
    function KeyText(v: View, input: Input): string
      requires IsTypingStep(v, input)
    {
      Concat(PhaseEffect(input.event, v).texts)
    }

    /** Registration keeps text: over a run of typing with a frame open, the innermost buffer gains at its cursor exactly
        the texts that the same keys would have committed to the application, in order, and nothing else changes. */
    lemma {:induction false} TypingIsKept(views: seq<View>, inputs: seq<Input>, outputs: seq<seq<Action>>,
                                          answers: seq<Answer>)
      requires |outputs| == |answers| == |inputs| && |views| == |inputs| + 1
      requires views[0].frames != [] && FramesValid(views[0].frames)
      requires forall i | 0 <= i < |inputs| :: IsStep(views[i], inputs[i], outputs[i], answers[i], views[i + 1])
      requires forall i | 0 <= i < |inputs| :: IsTypingStep(views[i], inputs[i])
      ensures views[|inputs|].frames
           == WithTop(views[0].frames, Top(views[0].frames).buffer.Insert(TypedText(views, inputs)))
      decreases |inputs|
    {
      hide IsStep, WithTop, IsTypingStep, KeyText;
      var b := Top(views[0].frames).buffer;
      if inputs == [] {
        InsertNothing(b);
        WithTopTwice(views[0].frames, b, b);
      } else {
        var n := |inputs| - 1;
        var before := inputs[..n];
        assert forall i | 0 <= i < n :: before[i] == inputs[i];
        assert views[..n + 1][0] == views[0];
        TypingIsKept(views[..n + 1], before, outputs[..n], answers[..n]);
        SameTypedText(views[..n + 1], views, before);
        var done := TypedText(views, before);
        OneMoreTyped(views[0], views[n], inputs[n], outputs[n], answers[n], views[n + 1], done);
        assert TypedText(views, inputs) == done + KeyText(views[n], inputs[n]);
      }
    }

    /** One more key after `done` was typed. */
    lemma OneMoreTyped(first: View, was: View, input: Input, output: seq<Action>, answer: Answer, v: View, done: string)
      requires first.frames != [] && FramesValid(first.frames)
      requires was.frames == WithTop(first.frames, Top(first.frames).buffer.Insert(done))
      requires IsTypingStep(was, input) && IsStep(was, input, output, answer, v)
      ensures v.frames == WithTop(first.frames, Top(first.frames).buffer.Insert(done + KeyText(was, input)))
    {
      hide Kept, PhaseEffect, FramesStep, DictsStep, Confined, WellFormed, WithTop, IsDispatched;
      var b, more := Top(first.frames).buffer, KeyText(was, input);
      TextIsInsertedOnce(was, input.event, answer.raw, answer.stack, v);
      WithTopTwice(first.frames, b.Insert(done), b.Insert(done).Insert(more));
      InsertTwice(b, done, more);
    }

    lemma {:induction false} SameTypedText(a: seq<View>, b: seq<View>, inputs: seq<Input>)
      requires |a| > |inputs| && |b| > |inputs| && forall i | 0 <= i < |inputs| :: a[i] == b[i]
      requires forall i | 0 <= i < |inputs| :: IsTypingStep(a[i], inputs[i])
      ensures TypedText(a, inputs) == TypedText(b, inputs)
      decreases |inputs|
    {
      if inputs != [] {
        SameTypedText(a, b, inputs[..|inputs| - 1]);
      }
    }

    // ── Whatever a frame takes in ─────────────────────────────────────────────

    /** What one input makes of the buffer of the frame at depth `d`: with that frame innermost, what the phase did with
        the key or what registration made of it; and the word of the frame above it when that one is finished. */
    ghost function TakenIn(d: nat, b: Buffer, was: View, input: Input, answer: Answer, v: View): (r: Buffer)
      requires b.Valid()
      ensures r.Valid()
    {
      if input.DictionariesChanged? || |v.frames| != d then b
      else if |was.frames| == d + 1 then
        if Finishes(input.event, was) then b.Insert(RegisteredWord(Top(was.frames))) else b
      else if |was.frames| != d then b
      else if answer.Dispatched? then Absorbed(b, answer.raw)
      else if !input.event.isPress || was.rawMode || v.rawMode then b
      else TakenInto(input.event, was, b)
    }

    /** The same along a run. */
    ghost function AllTakenIn(d: nat, b: Buffer, views: seq<View>, inputs: seq<Input>, answers: seq<Answer>): (r: Buffer)
      requires |answers| == |inputs| < |views| && b.Valid()
      ensures r.Valid()
      decreases |inputs|
    {
      if inputs == [] then b
      else
        var n := |inputs| - 1;
        TakenIn(d, AllTakenIn(d, b, views, inputs[..n], answers[..n]), views[n], inputs[n], answers[n], views[n + 1])
    }

    /** One input with at least `d` frames open before and after it. */
    lemma OneInputTakenIn(d: nat, was: View, input: Input, output: seq<Action>, answer: Answer, v: View)
      requires IsStep(was, input, output, answer, v)
      requires 0 < d <= |was.frames| && d <= |v.frames| && was.frames[d - 1].buffer.Valid()
      ensures v.frames[..d] == WithTop(was.frames[..d], TakenIn(d, was.frames[d - 1].buffer, was, input, answer, v))
    {
      hide WellFormed, FramesStep, DictsStep, Confined, AllQuiet, IsDispatched, Answered, IsTaken, Absorbed, FramesValid,
           RegisteredWord, TakenInto, IsIdle;
    }

    /** Main result on registration: over every run during which a frame stays open, whatever keys it has and
        whatever frames open and close above, the frames beneath it are untouched, and of the frame itself only the
        buffer changes: it takes in, in order, exactly what the phase did with each key that met it innermost, what
        registration made of the keys it took, and the word of each frame finished above it. */
    lemma {:induction false} FrameTakesIn(views: seq<View>, inputs: seq<Input>, outputs: seq<seq<Action>>,
                                          answers: seq<Answer>, d: nat)
      requires |outputs| == |answers| == |inputs| && |views| == |inputs| + 1
      requires forall i | 0 <= i < |inputs| :: IsStep(views[i], inputs[i], outputs[i], answers[i], views[i + 1])
      requires d > 0 && forall i | 0 <= i < |views| :: |views[i].frames| >= d
      requires FramesValid(views[0].frames)
      ensures views[|inputs|].frames[..d]
           == WithTop(views[0].frames[..d], AllTakenIn(d, views[0].frames[d - 1].buffer, views, inputs, answers))
      decreases |inputs|
    {
      hide IsStep, TakenIn, WithTop;
      var frames := views[0].frames[..d];
      var b := Top(frames).buffer;
      if inputs == [] {
        WithTopTwice(frames, b, b);
      } else {
        var n := |inputs| - 1;
        FrameTakesIn(views[..n + 1], inputs[..n], outputs[..n], answers[..n], d);
        SameTakenIn(d, b, views[..n + 1], views, inputs[..n], answers[..n]);
        var c := AllTakenIn(d, b, views, inputs[..n], answers[..n]);
        WithTopTwice(frames, c, TakenIn(d, c, views[n], inputs[n], answers[n], views[n + 1]));
        assert views[n].frames[d - 1] == Top(WithTop(frames, c));
        OneInputTakenIn(d, views[n], inputs[n], outputs[n], answers[n], views[n + 1]);
      }
    }

    lemma {:induction false} SameTakenIn(d: nat, b: Buffer, some: seq<View>, all: seq<View>, inputs: seq<Input>,
                                         answers: seq<Answer>)
      requires |answers| == |inputs| < |some| && some <= all && b.Valid()
      ensures AllTakenIn(d, b, some, inputs, answers) == AllTakenIn(d, b, all, inputs, answers)
      decreases |inputs|
    {
      hide TakenIn;
      if inputs != [] {
        SameTakenIn(d, b, some, all, inputs[..|inputs| - 1], answers[..|inputs| - 1]);
      }
    }

    lemma {:induction false} NothingTakenIn(d: nat, b: Buffer, views: seq<View>, inputs: seq<Input>, answers: seq<Answer>)
      requires |answers| == |inputs| < |views| && b.Valid()
      requires forall i | 0 < i <= |inputs| :: |views[i].frames| > d
      ensures AllTakenIn(d, b, views, inputs, answers) == b
      decreases |inputs|
    {
      if inputs != [] {
        assert |views[|inputs|].frames| > d;
        NothingTakenIn(d, b, views, inputs[..|inputs| - 1], answers[..|inputs| - 1]);
      }
    }

    lemma OnlyKeysClose(was: View, input: Input, output: seq<Action>, answer: Answer, v: View)
      requires IsStep(was, input, output, answer, v) && |v.frames| < |was.frames|
      ensures input.Pressed? && |was.frames| == |v.frames| + 1
    {
      hide WellFormed, DictsStep, Confined, AllQuiet, IsDispatched, Kept, KeptBack, RegisteredWord, FramesValid;
    }

    /** A frame that is opened over others and closed again by the last input of a run leaves them as they were, but for
        its word at the cursor of the buffer beneath it if that input finished it: nested registration does not
        interfere. */
    lemma NestedFrameReturns(views: seq<View>, inputs: seq<Input>, outputs: seq<seq<Action>>, answers: seq<Answer>)
      requires |outputs| == |answers| == |inputs| && |views| == |inputs| + 1 && |inputs| > 1
      requires forall i | 0 <= i < |inputs| :: IsStep(views[i], inputs[i], outputs[i], answers[i], views[i + 1])
      requires forall i | 0 < i < |inputs| :: |views[i].frames| > |views[0].frames|
      requires FramesValid(views[0].frames) && 0 < |views[0].frames| == |views[|inputs|].frames|
      ensures var n, frames := |inputs| - 1, views[0].frames;
        && inputs[n].Pressed? && |views[n].frames| == |frames| + 1
        && views[n + 1].frames == if Finishes(inputs[n].event, views[n])
                                  then WithTop(frames, Top(frames).buffer.Insert(RegisteredWord(Top(views[n].frames))))
                                  else frames
    {
      hide IsStep, WithTop, RegisteredWord, Finishes;
      var n, frames := |inputs| - 1, views[0].frames;
      var d, b := |frames|, Top(frames).buffer;
      FrameTakesIn(views, inputs, outputs, answers, d);
      NothingTakenIn(d, b, views, inputs[..n], answers[..n]);
      OnlyKeysClose(views[n], inputs[n], outputs[n], answers[n], views[n + 1]);
      assert frames[..d] == frames && views[n + 1].frames[..d] == views[n + 1].frames;
      WithTopTwice(frames, b, b);
    }

    /** Over a run during which a frame stays open and raw mode stays off, no text, no key and no deletion
        reaches the application at all, and every key gets an answer. */
    lemma OpenFramesHoldEverything(views: seq<View>, inputs: seq<Input>, outputs: seq<seq<Action>>, answers: seq<Answer>)
      requires |outputs| == |answers| == |inputs| && |views| == |inputs| + 1
      requires forall i | 0 <= i < |inputs| :: IsStep(views[i], inputs[i], outputs[i], answers[i], views[i + 1])
      requires forall i | 0 <= i < |inputs| :: (inputs[i].Pressed? ==> inputs[i].event.isPress) && !views[i].rawMode
      requires forall i | 0 < i < |views| :: views[i].frames != []
      ensures forall i | 0 <= i < |inputs| :: AllQuiet(outputs[i]) && (inputs[i].Pressed? ==> outputs[i] != [])
    {
      hide Kept, FramesStep, DictsStep, Confined, WellFormed, IsDispatched;
      forall i | 0 <= i < |inputs| ensures AllQuiet(outputs[i]) && (inputs[i].Pressed? ==> outputs[i] != []) {
        assert IsStep(views[i], inputs[i], outputs[i], answers[i], views[i + 1]) && views[i + 1].frames != [];
      }
    }
  }
}
