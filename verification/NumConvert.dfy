/** Kanji and daiji numerals by place value, and reading them back. */
module NumConvert {
  import opened Text

  /** One unit name and its value. */
  datatype NumUnit = NumUnit(value: nat, name: char)

  /** The standard numerals, and the formal ones of financial documents. */
  datatype Style = Kanji | Daiji

  /** The digit tables. */
  function Digit(d: nat, st: Style): char
    requires d < 10
  {
    if d == 4 then '四'
    else if d == 6 then '六'
    else if d == 7 then '七'
    else if d == 8 then '八'
    else if d == 9 then '九'
    else if st.Kanji? then
      if d == 0 then '〇' else if d == 1 then '一' else if d == 2 then '二' else if d == 3 then '三' else '五'
    else
      if d == 0 then '零' else if d == 1 then '壱' else if d == 2 then '弐' else if d == 3 then '参' else '伍'
  }

  /** The units within a group: thousand, hundred, ten. */
  function SmallUnit(k: nat, st: Style): NumUnit
    requires k < 3
  {
    if k == 1 then NumUnit(100, '百')
    else if st.Kanji? then if k == 0 then NumUnit(1_000, '千') else NumUnit(10, '十')
    else if k == 0 then NumUnit(1_000, '阡') else NumUnit(10, '拾')
  }

  /** The units of whole groups: 10^16, 10^12, 10^8, 10^4. */
  function LargeUnit(k: nat): NumUnit
    requires k < 4
  {
    if k == 0 then NumUnit(10_000_000_000_000_000, '京')
    else if k == 1 then NumUnit(1_000_000_000_000, '兆')
    else if k == 2 then NumUnit(100_000_000, '億')
    else NumUnit(10_000, '万')
  }

  /** Standard numerals leave out a coefficient of one before a small unit. */
  predicate OmitsLeadingOne(st: Style) {
    st.Kanji?
  }

  // ── Writing ─────────────────────────────────────────────────────────────────

  /** The text of decimal digit `d` at small unit `k`. */
  function PlaceText(d: nat, k: nat, st: Style): string
    requires d < 10 && k < 3
  {
    if d == 0 then ""
    else if d == 1 && OmitsLeadingOne(st) then [SmallUnit(k, st).name]
    else [Digit(d, st), SmallUnit(k, st).name]
  }

  function OnesText(d: nat, st: Style): string
    requires d < 10
  {
    if d == 0 then "" else [Digit(d, st)]
  }

  /** The decimal digits of a group: thousands, hundreds, tens, ones. */
  function DigitAt(n: nat, k: nat): (d: nat)
    requires k < 4
    ensures d < 10
  {
    if k == 0 then n / 1_000 % 10 else if k == 1 then n / 100 % 10 else if k == 2 then n / 10 % 10 else n % 10
  }

  /** The text of the digits from `k` on. */
  function GroupText(n: nat, k: nat, st: Style): string
    requires k < 4
    decreases 4 - k
  {
    if k == 3 then OnesText(DigitAt(n, 3), st) else PlaceText(DigitAt(n, k), k, st) + GroupText(n, k + 1, st)
  }

  /** The decimal digits of a number in groups of four, from 10^16 downwards. */
  function Group(n: nat, k: nat): (g: nat)
    requires k < 5
    ensures g < 10_000
  {
    if k == 0 then n / 10_000_000_000_000_000 % 10_000
    else if k == 1 then n / 1_000_000_000_000 % 10_000
    else if k == 2 then n / 100_000_000 % 10_000
    else if k == 3 then n / 10_000 % 10_000
    else n % 10_000
  }

  function LargeText(group: nat, k: nat, st: Style): string
    requires group < 10_000 && k < 4
  {
    if group == 0 then "" else GroupText(group, 0, st) + [LargeUnit(k).name]
  }

  /** The text of the groups from `k` on; the last one has no unit. */
  function GroupsText(n: nat, k: nat, st: Style): string
    requires k < 5
    decreases 5 - k
  {
    if k == 4 then GroupText(Group(n, 4), 0, st) else LargeText(Group(n, k), k, st) + GroupsText(n, k + 1, st)
  }

  function NumberText(n: nat, st: Style): string {
    if n == 0 then [Digit(0, st)] else GroupsText(n, 0, st)
  }

  lemma DivModUnique(x: nat, a: nat, k: nat, u: nat)
    requires x == k * a + u && u < a
    ensures x / a == k && x % a == u
  {
    var q := x / a;
    if q < k {
      MulMonotone(q + 1, k, a);
      assert false;
    } else if q > k {
      MulMonotone(k + 1, q, a);
      assert false;
    }
  }

  lemma MulMonotone(s: nat, t: nat, a: nat)
    requires s <= t
    ensures s * a <= t * a
  {
  }

  /** Dividing the rest below a larger unit selects the digits between the two units. */
  lemma RestDigits(n: nat, a: nat, b: nat)
    requires a > 0 && b > 0
    ensures a * b > 0 && n % (a * b) / a == n / a % b
    ensures n % (a * b) - n % (a * b) / a * a == n % a
  {
    var m, u := n / a, n % a;
    RestDigitsOf(n, a, b, m / b, m % b, u);
  }

  lemma Regroup(q: nat, b: nat, s: nat, a: nat)
    ensures (q * b + s) * a == q * (a * b) + s * a
  {
    calc {
      (q * b + s) * a;
      (q * b) * a + s * a;
      q * (b * a) + s * a;
      q * (a * b) + s * a;
    }
  }

  lemma RestDigitsOf(n: nat, a: nat, b: nat, q: nat, s: nat, u: nat)
    requires s < b && u < a && n / a == q * b + s && n % a == u
    ensures a * b > 0 && n % (a * b) / a == s && n % (a * b) == s * a + u
  {
    MulMonotone(s + 1, b, a);
    Regroup(q, b, s, a);
    assert n == (q * b + s) * a + u;
    DivModUnique(n, a * b, q, s * a + u);
    DivModUnique(s * a + u, a, s, u);
  }

  /** What is left of a group below the first `k` small units. */
  function SmallRest(n: nat, k: nat): nat
    requires k < 4
  {
    if k == 0 then n else if k == 1 then n % 1_000 else if k == 2 then n % 100 else n % 10
  }

  lemma SmallDigit(n: nat, k: nat, st: Style)
    requires n < 10_000 && k < 3
    ensures var v := SmallUnit(k, st).value;
      && SmallRest(n, k) / v == DigitAt(n, k)
      && SmallRest(n, k) == DigitAt(n, k) * v + SmallRest(n, k + 1)
  {
    if k == 1 {
      RestDigits(n, 100, 10);
    } else if k == 2 {
      RestDigits(n, 10, 10);
    }
  }

  /** One pass of the loop over the small units. */
  method WritePlace(before: string, d: nat, k: nat, st: Style) returns (result: string)
    requires d < 10 && k < 3
    ensures result == before + PlaceText(d, k, st)
  {
    result := before;
    if d > 0 {
      if !(d == 1 && OmitsLeadingOne(st)) {
        result := result + [Digit(d, st)];
      }
      result := result + [SmallUnit(k, st).name];
    }
  }

  lemma AppendAssociative(a: string, b: string, c: string)
    ensures a + (b + c) == a + b + c
  {
  }

  /** `kanji_group`: a remainder reduced unit by unit; every digit index stays below ten. */
  method KanjiGroup(n: nat, st: Style) returns (result: string)
    requires n < 10_000
    ensures result == GroupText(n, 0, st)
  {
    hide PlaceText;
    result := "";
    var rem := n;
    for i := 0 to 3
      invariant rem == SmallRest(n, i)
      invariant result + GroupText(n, i, st) == GroupText(n, 0, st)
    {
      SmallDigit(n, i, st);
      var unit := SmallUnit(i, st).value;
      var d := rem / unit;
      AppendAssociative(result, PlaceText(d, i, st), GroupText(n, i + 1, st));
      result := WritePlace(result, d, i, st);
      rem := rem - d * unit;
    }
    if rem > 0 {
      result := result + [Digit(rem, st)];
    } else {
      assert result + "" == result;
    }
  }

  /** What is left of a number below the first `k` large units. */
  function LargeRest(n: nat, k: nat): nat
    requires k < 5
  {
    if k == 0 then n
    else if k == 1 then n % 10_000_000_000_000_000
    else if k == 2 then n % 1_000_000_000_000
    else if k == 3 then n % 100_000_000
    else n % 10_000
  }

  lemma LargeGroup(n: nat, k: nat)
    requires n < 0x1_0000_0000_0000_0000 && k < 4
    ensures LargeRest(n, k) / LargeUnit(k).value == Group(n, k)
    ensures LargeRest(n, k) == Group(n, k) * LargeUnit(k).value + LargeRest(n, k + 1)
  {
    if k == 1 {
      RestDigits(n, 1_000_000_000_000, 10_000);
    } else if k == 2 {
      RestDigits(n, 100_000_000, 10_000);
    } else if k == 3 {
      RestDigits(n, 10_000, 10_000);
    }
  }

  /** One pass of the loop over the large units; the coefficient is always written out. */
  method WriteLarge(before: string, group: nat, k: nat, st: Style) returns (result: string)
    requires group < 10_000 && k < 4
    ensures result == before + LargeText(group, k, st)
  {
    result := before;
    if group > 0 {
      var text := KanjiGroup(group, st);
      AppendAssociative(before, text, [LargeUnit(k).name]);
      result := result + text;
      result := result + [LargeUnit(k).name];
    }
  }

  /** One step of the loop: the group is written, and what it stood for is subtracted. */
  method TakeGroup(before: string, rem0: nat, ghost n: nat, i: nat, st: Style) returns (result: string, rem: nat)
    requires n < 0x1_0000_0000_0000_0000 && i < 4 && rem0 == LargeRest(n, i)
    ensures result == before + LargeText(Group(n, i), i, st) && rem == LargeRest(n, i + 1)
  {
    hide LargeText, Group, LargeRest;
    LargeGroup(n, i);
    var unit := LargeUnit(i).value;
    var group := rem0 / unit;
    result := WriteLarge(before, group, i, st);
    rem := rem0 - group * unit;
  }

  lemma LastGroup(n: nat)
    ensures Group(n, 4) == LargeRest(n, 4) < 10_000 && LargeRest(n, 0) == n
  {
  }

  /** `kanji_number`: groups of four digits, largest first, each followed by its unit. */
  method KanjiNumber(n: nat, st: Style) returns (result: string)
    requires n < 0x1_0000_0000_0000_0000
    ensures result == NumberText(n, st)
  {
    if n == 0 { return [Digit(0, st)]; }
    hide LargeText, GroupText, LargeUnit, Group, LargeRest;
    result := "";
    var rem := n;
    LastGroup(n);
    for i := 0 to 4
      invariant rem == LargeRest(n, i)
      invariant result + GroupsText(n, i, st) == GroupsText(n, 0, st)
    {
      AppendAssociative(result, LargeText(Group(n, i), i, st), GroupsText(n, i + 1, st));
      result, rem := TakeGroup(result, rem, n, i, st);
    }
    if rem > 0 {
      var text := KanjiGroup(rem, st);
      result := result + text;
    } else {
      EmptyGroup(st);
      assert result + "" == result;
    }
  }

  lemma EmptyGroup(st: Style)
    ensures GroupText(0, 0, st) == ""
  {
    assert GroupText(0, 2, st) == "" && GroupText(0, 1, st) == "";
  }

  // ── Reading ─────────────────────────────────────────────────────────────────

  datatype Symbol = DigitSign(value: nat) | SmallSign(value: nat) | LargeSign(value: nat) | Foreign

  /** The meaning of a character in a numeral of the style. */
  function SymbolOf(c: char, st: Style): Symbol {
    if c == '京' then LargeSign(10_000_000_000_000_000)
    else if c == '兆' then LargeSign(1_000_000_000_000)
    else if c == '億' then LargeSign(100_000_000)
    else if c == '万' then LargeSign(10_000)
    else if c == '百' then SmallSign(100)
    else if c == '四' then DigitSign(4)
    else if c == '六' then DigitSign(6)
    else if c == '七' then DigitSign(7)
    else if c == '八' then DigitSign(8)
    else if c == '九' then DigitSign(9)
    else if st.Kanji? then
      if c == '千' then SmallSign(1_000)
      else if c == '十' then SmallSign(10)
      else if c == '〇' then DigitSign(0)
      else if c == '一' then DigitSign(1)
      else if c == '二' then DigitSign(2)
      else if c == '三' then DigitSign(3)
      else if c == '五' then DigitSign(5)
      else Foreign
    else
      if c == '阡' then SmallSign(1_000)
      else if c == '拾' then SmallSign(10)
      else if c == '零' then DigitSign(0)
      else if c == '壱' then DigitSign(1)
      else if c == '弐' then DigitSign(2)
      else if c == '参' then DigitSign(3)
      else if c == '伍' then DigitSign(5)
      else Foreign
  }

  /** A reader's position: finished groups, the current group, and a digit waiting for its unit. */
  datatype Reading = Reading(total: nat, group: nat, pending: Option<nat>)

  /** An absent coefficient before a small unit means one. */
  function ReadSign(r: Reading, s: Symbol): Reading {
    match s
    case DigitSign(d) => r.(pending := Some(d))
    case SmallSign(v) => Reading(r.total, r.group + (if r.pending.Some? then r.pending.value else 1) * v, None)
    case LargeSign(v) => Reading(r.total + (r.group + (if r.pending.Some? then r.pending.value else 0)) * v, 0, None)
    case Foreign => r
  }

  function ReadOn(r: Reading, text: string, st: Style): Reading
    decreases |text|
  {
    if text == "" then r else ReadOn(ReadSign(r, SymbolOf(text[0], st)), text[1..], st)
  }

  function ReadNumber(text: string, st: Style): nat {
    var r := ReadOn(Reading(0, 0, None), text, st);
    r.total + Pending(r)
  }

  lemma {:induction false} ReadSplit(r: Reading, a: string, b: string, st: Style)
    ensures ReadOn(r, a + b, st) == ReadOn(ReadOn(r, a, st), b, st)
    decreases |a|
  {
    if a == "" {
      assert a + b == b;
    } else {
      assert (a + b)[1..] == a[1..] + b;
      ReadSplit(ReadSign(r, SymbolOf(a[0], st)), a[1..], b, st);
    }
  }

  lemma DigitSymbol(d: nat, st: Style)
    requires d < 10
    ensures SymbolOf(Digit(d, st), st) == DigitSign(d)
  {
  }

  lemma UnitSymbols(st: Style)
    ensures forall k | 0 <= k < 3 :: SymbolOf(SmallUnit(k, st).name, st) == SmallSign(SmallUnit(k, st).value)
    ensures forall k | 0 <= k < 4 :: SymbolOf(LargeUnit(k).name, st) == LargeSign(LargeUnit(k).value)
  {
  }

  /** A digit and its unit add their product to the group. */
  lemma ReadPlace(t: nat, g: nat, d: nat, k: nat, st: Style)
    requires d < 10 && k < 3
    ensures ReadOn(Reading(t, g, None), PlaceText(d, k, st), st) == Reading(t, g + d * SmallUnit(k, st).value, None)
  {
    var text := PlaceText(d, k, st);
    var v := SmallUnit(k, st).value;
    DigitSymbol(d, st);
    UnitSymbols(st);
    if |text| == 2 {
      assert text[1..] == [SmallUnit(k, st).name] && text[1..][1..] == "";
      var r1 := Reading(t, g, Some(d));
      assert ReadOn(r1, text[1..], st) == ReadOn(ReadSign(r1, SmallSign(v)), "", st);
    } else if |text| == 1 {
      assert text[1..] == "" && d == 1;
    }
  }

  function Pending(r: Reading): nat {
    r.group + if r.pending.Some? then r.pending.value else 0
  }

  lemma ReadOnes(t: nat, g: nat, d: nat, st: Style)
    requires d < 10
    ensures var r := ReadOn(Reading(t, g, None), OnesText(d, st), st);
      r.total == t && Pending(r) == g + d
  {
    hide Digit, SymbolOf;
    DigitSymbol(d, st);
    var text := OnesText(d, st);
    assert d > 0 ==> text[1..] == "";
  }

  /** Reading the digits of a group from `k` on adds what is left of it. */
  lemma {:induction false} ReadGroup(t: nat, g: nat, n: nat, k: nat, st: Style)
    requires n < 10_000 && k < 4
    ensures var r := ReadOn(Reading(t, g, None), GroupText(n, k, st), st);
      r.total == t && Pending(r) == g + SmallRest(n, k)
    decreases 4 - k
  {
    if k == 3 {
      ReadOnes(t, g, n % 10, st);
    } else {
      hide ReadOn, PlaceText, SmallUnit, DigitAt, SmallRest;
      SmallDigit(n, k, st);
      ReadSplit(Reading(t, g, None), PlaceText(DigitAt(n, k), k, st), GroupText(n, k + 1, st), st);
      ReadPlace(t, g, DigitAt(n, k), k, st);
      ReadGroup(t, g + DigitAt(n, k) * SmallUnit(k, st).value, n, k + 1, st);
    }
  }

  /** A large group adds its value times its unit to the finished total. */
  lemma ReadLarge(t: nat, group: nat, k: nat, st: Style)
    requires group < 10_000 && k < 4
    ensures ReadOn(Reading(t, 0, None), LargeText(group, k, st), st) == Reading(t + group * LargeUnit(k).value, 0, None)
  {
    if group > 0 {
      var name := LargeUnit(k).name;
      ReadGroup(t, 0, group, 0, st);
      var r := ReadOn(Reading(t, 0, None), GroupText(group, 0, st), st);
      ReadSplit(Reading(t, 0, None), GroupText(group, 0, st), [name], st);
      UnitSymbols(st);
      assert [name][1..] == "";
      assert ReadOn(r, [name], st) == ReadSign(r, LargeSign(LargeUnit(k).value));
    }
  }

  /** Reading the groups from `k` on adds what is left of the number. */
  lemma {:induction false} ReadGroups(t: nat, n: nat, k: nat, st: Style)
    requires n < 0x1_0000_0000_0000_0000 && k < 5
    ensures var r := ReadOn(Reading(t, 0, None), GroupsText(n, k, st), st);
      r.total + Pending(r) == t + LargeRest(n, k)
    decreases 5 - k
  {
    if k == 4 {
      hide ReadOn, GroupText;
      ReadGroup(t, 0, Group(n, 4), 0, st);
    } else {
      hide ReadOn, GroupText, LargeText, LargeUnit, Group, LargeRest;
      LargeGroup(n, k);
      ReadSplit(Reading(t, 0, None), LargeText(Group(n, k), k, st), GroupsText(n, k + 1, st), st);
      ReadLarge(t, Group(n, k), k, st);
      ReadGroups(t + Group(n, k) * LargeUnit(k).value, n, k + 1, st);
    }
  }

  /** Main result: every 64-bit number is read back from its numeral, in either style. */
  lemma NumeralsKeepValue(n: nat, st: Style)
    requires n < 0x1_0000_0000_0000_0000
    ensures ReadNumber(NumberText(n, st), st) == n
  {
    if n == 0 {
      DigitSymbol(0, st);
      var text := [Digit(0, st)];
      assert text[1..] == "";
      assert ReadOn(Reading(0, 0, None), text, st) == ReadOn(Reading(0, 0, Some(0)), "", st);
    } else {
      ReadGroups(0, n, 0, st);
    }
  }

  lemma NumeralsAreDistinct(m: nat, n: nat, st: Style)
    requires m < 0x1_0000_0000_0000_0000 && n < 0x1_0000_0000_0000_0000
    requires NumberText(m, st) == NumberText(n, st)
    ensures m == n
  {
    NumeralsKeepValue(m, st);
    NumeralsKeepValue(n, st);
  }
}
