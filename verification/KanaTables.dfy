/** Kana conversion tables: the romaji automaton, script conversion, and feeding it characters. */
module KanaTables {
  import opened Text

  /** An exact character, or any character that no exact rule covers. */
  datatype KanaInput = Exactly(c: char) | Wildcard

  /** The rule (from, input) -> (to, output); the empty state is the start state. */
  datatype Rule = Rule(from: string, input: KanaInput, to: string, output: string)

  datatype KanaTable = KanaTable(rules: seq<Rule>, kataOverrides: seq<Rule>, okuriAliases: map<string, string>)

  datatype KanaMode = Hiragana | Katakana | HalfWidth

  datatype TransitionResult =
    | Moved(output: string, nextState: string)
    | MovedRetry(output: string, retry: char)
    | NoMatch(flush: string, again: Option<char>)

  // ── Script conversion ───────────────────────────────────────────────────────

  function KatakanaChar(c: char): char {
    if '\U{3041}' <= c <= '\U{3096}' then (c as int + 0x60) as char else c
  }

  /** Half-width katakana; voiced sounds take two characters, other characters stay. */
  function HalfWidthKatakana(c: char): (r: string)
    ensures r != ""
  {
    match c
    case 'ァ' => "ｧ" case 'ア' => "ｱ" case 'ィ' => "ｨ" case 'イ' => "ｲ" case 'ゥ' => "ｩ" case 'ウ' => "ｳ"
    case 'ェ' => "ｪ" case 'エ' => "ｴ" case 'ォ' => "ｫ" case 'オ' => "ｵ"
    case 'カ' => "ｶ" case 'ガ' => "ｶﾞ" case 'キ' => "ｷ" case 'ギ' => "ｷﾞ" case 'ク' => "ｸ" case 'グ' => "ｸﾞ"
    case 'ケ' => "ｹ" case 'ゲ' => "ｹﾞ" case 'コ' => "ｺ" case 'ゴ' => "ｺﾞ"
    case 'サ' => "ｻ" case 'ザ' => "ｻﾞ" case 'シ' => "ｼ" case 'ジ' => "ｼﾞ" case 'ス' => "ｽ" case 'ズ' => "ｽﾞ"
    case 'セ' => "ｾ" case 'ゼ' => "ｾﾞ" case 'ソ' => "ｿ" case 'ゾ' => "ｿﾞ"
    case 'タ' => "ﾀ" case 'ダ' => "ﾀﾞ" case 'チ' => "ﾁ" case 'ヂ' => "ﾁﾞ" case 'ッ' => "ｯ" case 'ツ' => "ﾂ"
    case 'ヅ' => "ﾂﾞ" case 'テ' => "ﾃ" case 'デ' => "ﾃﾞ" case 'ト' => "ﾄ" case 'ド' => "ﾄﾞ"
    case 'ナ' => "ﾅ" case 'ニ' => "ﾆ" case 'ヌ' => "ﾇ" case 'ネ' => "ﾈ" case 'ノ' => "ﾉ"
    case 'ハ' => "ﾊ" case 'バ' => "ﾊﾞ" case 'パ' => "ﾊﾟ" case 'ヒ' => "ﾋ" case 'ビ' => "ﾋﾞ" case 'ピ' => "ﾋﾟ"
    case 'フ' => "ﾌ" case 'ブ' => "ﾌﾞ" case 'プ' => "ﾌﾟ" case 'ヘ' => "ﾍ" case 'ベ' => "ﾍﾞ" case 'ペ' => "ﾍﾟ"
    case 'ホ' => "ﾎ" case 'ボ' => "ﾎﾞ" case 'ポ' => "ﾎﾟ"
    case 'マ' => "ﾏ" case 'ミ' => "ﾐ" case 'ム' => "ﾑ" case 'メ' => "ﾒ" case 'モ' => "ﾓ"
    case 'ャ' => "ｬ" case 'ヤ' => "ﾔ" case 'ュ' => "ｭ" case 'ユ' => "ﾕ" case 'ョ' => "ｮ" case 'ヨ' => "ﾖ"
    case 'ラ' => "ﾗ" case 'リ' => "ﾘ" case 'ル' => "ﾙ" case 'レ' => "ﾚ" case 'ロ' => "ﾛ"
    case 'ワ' => "ﾜ" case 'ヲ' => "ｦ" case 'ン' => "ﾝ" case 'ヴ' => "ｳﾞ" case 'ヵ' => "ｶ" case 'ヶ' => "ｹ"
    case 'ー' => "ｰ" case '。' => "｡" case '「' => "｢" case '」' => "｣" case '、' => "､" case '・' => "･"
    case _ => [c]
  }

  function ConvertChar(c: char, mode: KanaMode): string {
    match mode
    case Hiragana => [c]
    case Katakana => [KatakanaChar(c)]
    case HalfWidth => HalfWidthKatakana(KatakanaChar(c))
  }

  /** `convert_output`, `hiragana_to_katakana` and `hiragana_to_halfwidth`: character by character. */
  function Convert(s: string, mode: KanaMode): string {
    if s == "" then "" else ConvertChar(s[0], mode) + Convert(s[1..], mode)
  }

  lemma {:induction false} ConvertSplit(a: string, b: string, mode: KanaMode)
    ensures Convert(a + b, mode) == Convert(a, mode) + Convert(b, mode)
  {
    if a == "" {
      assert a + b == b;
    } else {
      assert (a + b)[1..] == a[1..] + b;
      ConvertSplit(a[1..], b, mode);
    }
  }

  lemma ConvertIsEmpty(s: string, mode: KanaMode)
    ensures Convert(s, mode) == "" <==> s == ""
  {
  }

  lemma {:induction false} ConvertHiragana(s: string)
    ensures Convert(s, Hiragana) == s
  {
    if s != "" {
      ConvertHiragana(s[1..]);
    }
  }

  lemma AsciiIsFixed(c: char, mode: KanaMode)
    requires c < '\U{0080}'
    ensures ConvertChar(c, mode) == [c]
  {
  }

  // ── Rules ───────────────────────────────────────────────────────────────────

  predicate SameKey(a: Rule, b: Rule) {
    a.from == b.from && a.input == b.input
  }

  /** The first rule for a state and an input specifier. */
  function FindRule(rules: seq<Rule>, state: string, input: KanaInput): (r: Option<Rule>)
    ensures r.Some? ==> r.value in rules && r.value.from == state && r.value.input == input
  {
    if rules == [] then None
    else if rules[0].from == state && rules[0].input == input then Some(rules[0])
    else FindRule(rules[1..], state, input)
  }

  /** The rules for which no rule of `others` has the same key. */
  function NotOverridden(others: seq<Rule>): Rule -> bool {
    (r: Rule) => FindRule(others, r.from, r.input).None?
  }

  /** `others` on top of `rules`: replaced rules go, the others' rules come last. */
  function Overlaid(rules: seq<Rule>, others: seq<Rule>): seq<Rule> {
    Filter(rules, NotOverridden(others)) + others
  }

  function Effective(t: KanaTable, mode: KanaMode): seq<Rule> {
    match mode
    case Hiragana => t.rules
    case _ => Overlaid(t.rules, t.kataOverrides)
  }

  /** `effective_transitions`: rules that no override replaces, then the overrides. */
  method EffectiveTransitions(t: KanaTable, mode: KanaMode) returns (result: seq<Rule>)
    ensures result == Effective(t, mode)
  {
    if mode == Hiragana { return t.rules; }
    result := [];
    assert t.rules[..0] == [];
    FilterNothing(NotOverridden(t.kataOverrides));
    hide Filter;
    for i := 0 to |t.rules|
      invariant result == Filter(t.rules[..i], NotOverridden(t.kataOverrides))
    {
      FilterSnoc(t.rules[..i], t.rules[i], NotOverridden(t.kataOverrides));
      assert t.rules[..i + 1] == t.rules[..i] + [t.rules[i]];
      if FindRule(t.kataOverrides, t.rules[i].from, t.rules[i].input).None? {
        result := result + [t.rules[i]];
      }
    }
    assert t.rules[..|t.rules|] == t.rules;
    result := result + t.kataOverrides;
  }

  /** The rules whose key differs from one given rule. */
  function KeyDiffers(other: Rule): Rule -> bool {
    (r: Rule) => !SameKey(r, other)
  }

  lemma OverlayStep(rules: seq<Rule>, earlier: seq<Rule>, rule: Rule)
    ensures Filter(Filter(rules, NotOverridden(earlier)), KeyDiffers(rule))
         == Filter(rules, NotOverridden(earlier + [rule]))
  {
    FilterTwice(rules, NotOverridden(earlier), KeyDiffers(rule));
    forall r | r in rules
      ensures And(NotOverridden(earlier), KeyDiffers(rule))(r) == NotOverridden(earlier + [rule])(r)
    {
      FindRuleSplit(earlier, [rule], r.from, r.input);
    }
    FilterSame(rules, And(NotOverridden(earlier), KeyDiffers(rule)), NotOverridden(earlier + [rule]));
  }

  lemma NothingOverridden(rules: seq<Rule>)
    ensures Filter(rules, NotOverridden([])) == rules
  {
    FilterAll(rules, NotOverridden([]));
  }

  /** `overlay`: user rules replace the rules with their keys one by one, then follow at the end. */
  method OverlayRules(rules: seq<Rule>, user: seq<Rule>) returns (result: seq<Rule>)
    ensures result == Overlaid(rules, user)
  {
    hide Filter, FindRule;
    result := rules;
    NothingOverridden(rules);
    assert user[..0] == [];
    for i := 0 to |user|
      invariant result == Filter(rules, NotOverridden(user[..i]))
    {
      assert user[..i + 1] == user[..i] + [user[i]];
      OverlayStep(rules, user[..i], user[i]);
      result := Filter(result, KeyDiffers(user[i]));
    }
    assert user[..|user|] == user;
    result := result + user;
  }

  lemma {:induction false} FindRuleSplit(a: seq<Rule>, b: seq<Rule>, state: string, input: KanaInput)
    ensures FindRule(a + b, state, input)
         == if FindRule(a, state, input).Some? then FindRule(a, state, input) else FindRule(b, state, input)
  {
    if a == [] {
      assert a + b == b;
    } else {
      assert (a + b)[1..] == a[1..] + b;
      FindRuleSplit(a[1..], b, state, input);
    }
  }

  lemma {:induction false} FindNotOverridden(rules: seq<Rule>, others: seq<Rule>, state: string, input: KanaInput)
    ensures FindRule(Filter(rules, NotOverridden(others)), state, input)
         == if FindRule(others, state, input).Some? then None else FindRule(rules, state, input)
  {
    if rules != [] {
      FindNotOverridden(rules[1..], others, state, input);
      FindRuleSplit(if NotOverridden(others)(rules[0]) then [rules[0]] else [],
                    Filter(rules[1..], NotOverridden(others)), state, input);
    }
  }

  /** An overlay answers from the user's rules where they speak, and from the base rules elsewhere. */
  lemma OverlayAnswers(rules: seq<Rule>, user: seq<Rule>, state: string, input: KanaInput)
    ensures FindRule(Overlaid(rules, user), state, input)
         == if FindRule(user, state, input).Some? then FindRule(user, state, input) else FindRule(rules, state, input)
  {
    FindNotOverridden(rules, user, state, input);
    FindRuleSplit(Filter(rules, NotOverridden(user)), user, state, input);
  }

  // ── One transition ──────────────────────────────────────────────────────────

  /** An exact rule first, then a wildcard rule, then a mistype. */
  function Transition(t: KanaTable, state: string, input: char, mode: KanaMode): TransitionResult {
    var rules := Effective(t, mode);
    match FindRule(rules, state, Exactly(input))
    case Some(r) => Moved(Convert(r.output, mode), r.to)
    case None =>
      match FindRule(rules, state, Wildcard)
      case Some(r) =>
        var output := Convert(r.output, mode);
        if r.to != "" then Moved(output, r.to)
        else if state == "" then Moved(output, "")
        else MovedRetry(output, input)
      case None =>
        if state == "" then NoMatch("", None) else NoMatch(state, Some(input))
  }

  /** `okuri_key`: an alias of the state before the last kana, else its first character. */
  function OkuriKey(t: KanaTable, preState: string, input: char): string {
    if preState != "" then if preState in t.okuriAliases then t.okuriAliases[preState] else [preState[0]]
    else if [input] in t.okuriAliases then t.okuriAliases[[input]] else [input]
  }

  /** For every table, even one with a start-state wildcard: the start state never asks for a retry,
      and a retry always repeats the input. */
  lemma StartNeverRetries(t: KanaTable, state: string, input: char, mode: KanaMode)
    ensures var r := Transition(t, state, input, mode);
      && (state == "" ==> !r.MovedRetry? && (r.NoMatch? ==> r.again == None))
      && (r.MovedRetry? ==> r.retry == input)
      && (r.NoMatch? && state != "" ==> r.again == Some(input))
  {
  }

  // ── Feeding characters ──────────────────────────────────────────────────────

  /** The automaton state after some input and the texts committed on the way. */
  datatype Fed = Fed(state: string, commits: seq<string>)

  function NonEmpty(s: string): seq<string> {
    if s == "" then [] else [s]
  }

  /** What one character does; it is dispatched again at most once, from the start state. */
  function Feed(t: KanaTable, state: string, ch: char, mode: KanaMode): Fed
    decreases state != ""
  {
    match Transition(t, state, ch, mode)
    case Moved(output, next) => Fed(next, NonEmpty(output))
    case MovedRetry(output, retry) =>
      var again := Feed(t, "", retry, mode);
      Fed(again.state, NonEmpty(output) + again.commits)
    case NoMatch(_, again) =>
      if again.Some? then Feed(t, "", again.value, mode) else Fed("", [[ch]])
  }

  /** The equations of `Feed`, case by case. */
  lemma FeedSteps(t: KanaTable, state: string, ch: char, mode: KanaMode)
    ensures var r := Transition(t, state, ch, mode);
      && (r.Moved? ==> Feed(t, state, ch, mode) == Fed(r.nextState, NonEmpty(r.output)))
      && (r.MovedRetry? ==>
            Feed(t, state, ch, mode)
            == Fed(Feed(t, "", r.retry, mode).state, NonEmpty(r.output) + Feed(t, "", r.retry, mode).commits))
      && (r.NoMatch? && r.again.Some? ==> Feed(t, state, ch, mode) == Feed(t, "", r.again.value, mode))
      && (r.NoMatch? && r.again.None? ==> Feed(t, state, ch, mode) == Fed("", [[ch]]))
  {
    StartNeverRetries(t, state, ch, mode);
  }

  function FeedAll(t: KanaTable, state: string, input: string, mode: KanaMode): Fed
    decreases |input|
  {
    if input == "" then Fed(state, [])
    else
      var first := Feed(t, state, input[0], mode);
      var rest := FeedAll(t, first.state, input[1..], mode);
      Fed(rest.state, first.commits + rest.commits)
  }

  lemma NoOverrides(t: KanaTable, mode: KanaMode)
    requires t.kataOverrides == []
    ensures Effective(t, mode) == t.rules
  {
    FilterAll(t.rules, NotOverridden([]));
    assert t.rules + [] == t.rules;
  }

  /** A hiragana transition with its output in another script. */
  function InScript(r: TransitionResult, mode: KanaMode): TransitionResult {
    match r
    case Moved(output, next) => Moved(Convert(output, mode), next)
    case MovedRetry(output, retry) => MovedRetry(Convert(output, mode), retry)
    case NoMatch(flush, again) => NoMatch(flush, again)
  }

  /** The same rule is chosen in every script; only the output is converted. */
  lemma TransitionInScript(t: KanaTable, state: string, ch: char, mode: KanaMode)
    requires t.kataOverrides == []
    ensures Transition(t, state, ch, mode) == InScript(Transition(t, state, ch, Hiragana), mode)
  {
    NoOverrides(t, mode);
    forall s: string ensures Convert(s, Hiragana) == s {
      ConvertHiragana(s);
    }
  }

  lemma ConcatNonEmpty(output: string)
    ensures Concat(NonEmpty(output)) == output
  {
    assert output != "" ==> Concat([output]) == output + Concat([]);
  }

  predicate IsFixed(ch: char, mode: KanaMode) {
    ConvertChar(ch, mode) == [ch]
  }

  lemma {:induction false} FeedInScript(t: KanaTable, state: string, ch: char, mode: KanaMode)
    requires t.kataOverrides == [] && IsFixed(ch, mode)
    ensures var h, k := Feed(t, state, ch, Hiragana), Feed(t, state, ch, mode);
      k.state == h.state && Concat(k.commits) == Convert(Concat(h.commits), mode)
    decreases state != ""
  {
    TransitionInScript(t, state, ch, mode);
    StartNeverRetries(t, state, ch, Hiragana);
    match Transition(t, state, ch, Hiragana) {
      case Moved(output, _) =>
        ConcatNonEmpty(output);
        ConcatNonEmpty(Convert(output, mode));
      case MovedRetry(output, retry) =>
        FeedInScript(t, "", retry, mode);
        var h, k := Feed(t, "", retry, Hiragana), Feed(t, "", retry, mode);
        ConcatNonEmpty(output);
        ConcatNonEmpty(Convert(output, mode));
        ConcatSplit(NonEmpty(output), h.commits);
        ConcatSplit(NonEmpty(Convert(output, mode)), k.commits);
        ConvertSplit(output, Concat(h.commits), mode);
      case NoMatch(_, again) =>
        if again.Some? {
          FeedInScript(t, "", again.value, mode);
        } else {
          ConcatNonEmpty([ch]);
          assert Convert([ch], mode) == ConvertChar(ch, mode) + Convert("", mode);
        }
    }
  }

  /** Main result: without katakana overrides, typing in another script runs the automaton through the
      same states and commits the character-wise conversion of the hiragana text. */
  lemma {:induction false} ScriptsAgree(t: KanaTable, state: string, input: string, mode: KanaMode)
    requires t.kataOverrides == [] && forall i | 0 <= i < |input| :: IsFixed(input[i], mode)
    ensures var h, k := FeedAll(t, state, input, Hiragana), FeedAll(t, state, input, mode);
      k.state == h.state && Concat(k.commits) == Convert(Concat(h.commits), mode)
    decreases |input|
  {
    if input != "" {
      FeedInScript(t, state, input[0], mode);
      var h, k := Feed(t, state, input[0], Hiragana), Feed(t, state, input[0], mode);
      ScriptsAgree(t, h.state, input[1..], mode);
      var hr, kr := FeedAll(t, h.state, input[1..], Hiragana), FeedAll(t, h.state, input[1..], mode);
      ConcatSplit(h.commits, hr.commits);
      ConcatSplit(k.commits, kr.commits);
      ConvertSplit(Concat(h.commits), Concat(hr.commits), mode);
    }
  }

  /** In particular for all ASCII input. */
  lemma ScriptsAgreeOnAscii(t: KanaTable, state: string, input: string, mode: KanaMode)
    requires t.kataOverrides == [] && IsAscii(input)
    ensures var h, k := FeedAll(t, state, input, Hiragana), FeedAll(t, state, input, mode);
      k.state == h.state && Concat(k.commits) == Convert(Concat(h.commits), mode)
  {
    forall i | 0 <= i < |input| ensures IsFixed(input[i], mode) {
      AsciiIsFixed(input[i], mode);
    }
    ScriptsAgree(t, state, input, mode);
  }
}
