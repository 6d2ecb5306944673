/** Concrete sessions and dictionaries in which the engine does less than one might expect. */
module EngineExamples {
  import opened Text
  import opened Dict
  import opened KanaTables
  import opened Paging
  import opened UserDictionary
  import opened Providers
  import opened Conversion
  import opened EngineTypes
  import opened Engine
  import NumTemplate

  /** A purge that misses: digits are kept as a template, and the purge names the headword and the word with digits. */
  lemma PurgeDigitsExample()
    ensures var es := [Entry("#かい", map[None := [Candidate("#0回", None, None)]])];
      && LookupKey("1かい") == "#かい" && HoldsWord(GetBucket(es, "#かい", None), "#0回")
      && Purged(es, "1かい", None, "1回") == (es, false)
  {
    var es, bucket := [Entry("#かい", map[None := [Candidate("#0回", None, None)]])], [Candidate("#0回", None, None)];
    NumTemplate.ScanRun("1", "かい");
    assert "1" + "かい" == "1かい";
    assert NumTemplate.ScanOf("かい") == NumTemplate.Scanned("かい", []) by {
      assert "かい"[1..] == "い" && "い"[1..] == "";
      assert NumTemplate.ScanOf("い") == NumTemplate.Scanned("い", []);
    }
    assert "#" + "かい" == "#かい";
    assert GetBucket(es, "#かい", None) == Some(bucket) && bucket[0] in bucket;
    assert "#かい"[0] != "1かい"[0];
  }

  // ── A prompt that gives no answer ───────────────────────────────────────────

  function AnyEntry(): (string, Option<string>) -> Option<DictEntry> {
    (key: string, okuri: Option<string>) => Some(DictEntry(key, okuri, [Candidate("語", None, None)]))
  }

  function NoCompletions(): string -> seq<string> {
    (prefix: string) => []
  }

  function NoDigits(): NumTemplate.Conversion {
    (digits: string, ty: NumTemplate.NumType) => None
  }

  function NoCodes(): (CodeInputPrefix, string) -> Option<string> {
    (prefix: CodeInputPrefix, code: string) => None
  }

  function AnyDictionary(): Dictionary {
    Dictionary.ReadOnly(AnyEntry(), NoCompletions())
  }

  /** A dictionary that answers every headword offers something for it. */
  lemma SomethingOffered(midashi: string)
    requires NumTemplate.ScanOf(midashi).runs == []
    ensures CandidateList(Setting([AnyDictionary()], NoDigits(), false), midashi, None) != []
  {
    hide CandidateList;
    var dicts := [AnyDictionary()];
    assert dicts[1..] == [] && Gather([], midashi, None) == [];
    assert Gather(dicts, midashi, None) == [Candidate("語", None, None)];
    CandidatesAreComplete(Setting(dicts, NoDigits(), false), midashi, None, 0, "語");
  }

  /** Slash begins an abbreviation, and nothing else has a meaning of its own. */
  const BINDINGS := Keybindings([], [], [], ['/'], [], Pager(5, []), [], [], [], false)

  function Pressing(key: Key): KeyEvent {
    KeyEvent(key, NO_MODIFIERS, true)
  }

  /** A fresh session with these bindings: no frame, no raw mode. */
  ghost predicate IsPlain(engine: SkkEngine)
    reads engine
  {
    engine.Valid() && !engine.rawMode && engine.registerStack == [] && engine.keys == BINDINGS
  }

  /** A key in such a session goes to its phase. */
  method Press(engine: SkkEngine, key: Key) returns (actions: seq<Action>, ghost raw: seq<Action>, ghost met: View)
    requires IsPlain(engine)
    modifies engine
    ensures engine.Valid() && !engine.rawMode
    ensures engine.Answered(old(engine.Now()), Pressing(key), raw, met)
    ensures met.frames == [] ==> engine.Now() == met
    ensures actions == [] <==> old(engine.IsUnanswered(Pressing(key)))
  {
    hide SkkEngine.Answered, SkkEngine.Valid;
    ghost var answer;
    actions, answer := engine.ProcessKey(Pressing(key));
    raw, met := answer.raw, engine.Now().(frames := answer.stack);
  }

  /** A key that quietly leads to another phase. */
  method PressQuietly(engine: SkkEngine, key: Key, ghost p: Phase)
    requires IsPlain(engine) && !engine.phase.Selecting? && !engine.phase.PurgeConfirm?
    requires engine.PhaseEffect(Pressing(key), engine.Now()) == Quietly(p, "")
    modifies engine
    ensures IsPlain(engine) && engine.phase == p && engine.kanaState == "" && engine.dicts == old(engine.dicts)
  {
    hide SkkEngine.PhaseEffect, SkkEngine.Valid;
    var _, _, _ := Press(engine, key);
  }

  /** Space after an abbreviation that is found. */
  method PressSpace(engine: SkkEngine, buf: string)
    requires IsPlain(engine) && engine.phase == Abbrev(buf) && buf != ""
    requires CandidateList(Setting(engine.dicts, engine.convert, engine.lispDirectives), buf, None) != []
    modifies engine
    ensures IsPlain(engine) && engine.phase.Selecting? && engine.phase.selection.index == 0
  {
    hide CandidateList, SkkEngine.Valid;
    var _, _, _ := Press(engine, Key.Space);
  }

  /** The purge key at the first candidate. */
  method PressPurge(engine: SkkEngine)
    requires IsPlain(engine) && engine.phase.Selecting? && engine.phase.selection.index == 0
    modifies engine
    ensures IsPlain(engine) && engine.phase.PurgeConfirm? && engine.phase.answer == ""
  {
    hide CandidateList, SkkEngine.Valid;
    var _, _, _ := Press(engine, Char('X'));
  }

  /** A session in which the purge prompt gives no answer: an abbreviation is converted, its candidate is about to be
      purged, and Escape is neither used nor passed on. */
  method PromptIgnoresEscape() returns (engine: SkkEngine, actions: seq<Action>)
    ensures fresh(engine) && engine.Valid() && engine.phase.PurgeConfirm? && actions == []
  {
    hide CandidateList, SkkEngine.Valid, SkkEngine.PhaseEffect, SkkEngine.Answered;
    engine := new SkkEngine(KanaTable([], [], map[]), BINDINGS, NoDigits(), NoCodes(), [AnyDictionary()], false,
                            Kana(Hiragana));
    SlashOpens(engine, engine.Now());
    PressQuietly(engine, Char('/'), Abbrev(""));
    LetterExtends(engine, engine.Now());
    PressQuietly(engine, Char('a'), Abbrev("a"));
    NoRuns();
    SomethingOffered("a");
    PressSpace(engine, "a");
    PressPurge(engine);
    ghost var raw, met;
    ghost var asked := engine.Now();
    actions, raw, met := Press(engine, Escape);
    EscapeIgnored(engine, asked, raw, met);
  }

  lemma SlashOpens(engine: SkkEngine, v: View)
    requires engine.keys == BINDINGS && v.phase == Kana(Hiragana) && v.kanaState == ""
    ensures engine.PhaseEffect(Pressing(Char('/')), v) == Quietly(Abbrev(""), "")
  {
  }

  lemma LetterExtends(engine: SkkEngine, v: View)
    requires v.phase == Abbrev("")
    ensures engine.PhaseEffect(Pressing(Char('a')), v) == Quietly(Abbrev("a"), "")
  {
    assert "" + ['a'] == "a";
  }

  lemma EscapeIgnored(engine: SkkEngine, was: View, raw: seq<Action>, v: View)
    requires was.phase.PurgeConfirm? && engine.Answered(was, Pressing(Escape), raw, v)
    ensures v.phase == was.phase && v.frames == was.frames
  {
  }

  lemma NoRuns()
    ensures NumTemplate.ScanOf("a").runs == []
  {
    assert "a"[1..] == "" && NumTemplate.ScanOf("") == NumTemplate.Scanned("", []);
  }
}
