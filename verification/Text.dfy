/** Shared datatypes and the string operations the dictionary code takes from Rust's `str`. */
module Text {

  datatype Option<+T> = None | Some(value: T)

  datatype Result<+T, +E> = Ok(value: T) | Err(error: E)

  /** The Unicode White_Space property, which `str::trim` uses. */
  predicate IsWhitespace(c: char) {
    '\t' <= c <= '\r' || c == ' ' || c == '\U{0085}' || c == '\U{00A0}' || c == '\U{1680}'
    || '\U{2000}' <= c <= '\U{200A}' || c == '\U{2028}' || c == '\U{2029}' || c == '\U{202F}'
    || c == '\U{205F}' || c == '\U{3000}'
  }

  /** `char::is_ascii_whitespace`, which leaves out the vertical tab. */
  predicate IsAsciiWhitespace(c: char) {
    c == ' ' || c == '\t' || c == '\n' || c == '\U{000C}' || c == '\r'
  }

  predicate IsAscii(s: string) {
    forall i | 0 <= i < |s| :: s[i] < '\U{0080}'
  }

  predicate IsAsciiAlphabetic(c: char) {
    'a' <= c <= 'z' || 'A' <= c <= 'Z'
  }

  predicate IsAsciiDigit(c: char) {
    '0' <= c <= '9'
  }

  predicate IsAsciiHexDigit(c: char) {
    '0' <= c <= '9' || 'a' <= c <= 'f' || 'A' <= c <= 'F'
  }

  predicate IsAsciiUppercase(c: char) {
    'A' <= c <= 'Z'
  }

  function ToAsciiLowercase(c: char): char {
    if IsAsciiUppercase(c) then (c as int + 32) as char else c
  }

  function TrimStart(s: string): string {
    if s != "" && IsWhitespace(s[0]) then TrimStart(s[1..]) else s
  }

  function TrimEnd(s: string): string {
    if s != "" && IsWhitespace(s[|s| - 1]) then TrimEnd(s[..|s| - 1]) else s
  }

  function Trim(s: string): string {
    TrimEnd(TrimStart(s))
  }

  lemma {:induction false} TrimStartIsSuffix(s: string)
    ensures |TrimStart(s)| <= |s| && TrimStart(s) == s[|s| - |TrimStart(s)|..]
    ensures TrimStart(s) == "" || !IsWhitespace(TrimStart(s)[0])
  {
    if s != "" && IsWhitespace(s[0]) {
      TrimStartIsSuffix(s[1..]);
    }
  }

  lemma {:induction false} TrimEndIsPrefix(s: string)
    ensures |TrimEnd(s)| <= |s| && TrimEnd(s) == s[..|TrimEnd(s)|]
    ensures TrimEnd(s) == "" || !IsWhitespace(TrimEnd(s)[|TrimEnd(s)| - 1])
  {
    if s != "" && IsWhitespace(s[|s| - 1]) {
      TrimEndIsPrefix(s[..|s| - 1]);
    }
  }

  lemma SliceElements<T>(s: seq<T>, lo: nat, hi: nat)
    requires lo <= hi <= |s|
    ensures forall x | x in s[lo..hi] :: x in s
  {
  }

  /** Trimming keeps a stretch of the text and leaves no blank at either end. */
  lemma TrimIsSlice(s: string)
    ensures forall c | c in Trim(s) :: c in s
    ensures Trim(s) == "" || (!IsWhitespace(Trim(s)[0]) && !IsWhitespace(Trim(s)[|Trim(s)| - 1]))
  {
    TrimStartIsSuffix(s);
    TrimEndIsPrefix(TrimStart(s));
  }

  lemma TrimNothing(s: string)
    requires s == "" || (!IsWhitespace(s[0]) && !IsWhitespace(s[|s| - 1]))
    ensures Trim(s) == s
  {
  }

  /** `str::strip_prefix` followed by `str::strip_suffix` for one character each. */
  function Unwrap(s: string, open: char, close: char): Option<string> {
    if |s| >= 2 && s[0] == open && s[|s| - 1] == close then Some(s[1..|s| - 1]) else None
  }

  /** The first position at which `c` occurs, as `str::find` with a character. */
  function Find(s: string, c: char): (r: Option<nat>)
    ensures r.Some? ==> r.value < |s| && s[r.value] == c && c !in s[..r.value]
    ensures r.None? ==> c !in s
  {
    if s == "" then None
    else if s[0] == c then Some(0)
    else
      assert s == [s[0]] + s[1..];
      match Find(s[1..], c)
      case None => None
      case Some(k) =>
        assert s[..k + 1] == [s[0]] + s[1..][..k];
        Some(k + 1)
  }

  function Join(parts: seq<string>, separator: string): string {
    if parts == [] then ""
    else if |parts| == 1 then parts[0]
    else parts[0] + separator + Join(parts[1..], separator)
  }

  function Concat(parts: seq<string>): string {
    if parts == [] then "" else parts[0] + Concat(parts[1..])
  }

  lemma {:induction false} ConcatSplit(a: seq<string>, b: seq<string>)
    ensures Concat(a + b) == Concat(a) + Concat(b)
  {
    if a == [] {
      assert a + b == b;
    } else {
      assert (a + b)[1..] == a[1..] + b;
      ConcatSplit(a[1..], b);
    }
  }

  /** `filter` on an iterator. */
  function Filter<T>(s: seq<T>, keep: T -> bool): (r: seq<T>)
    ensures forall x | x in r :: x in s && keep(x)
    ensures forall x | x in s && keep(x) :: x in r
    ensures |r| <= |s|
  {
    if s == [] then []
    else
      assert s == [s[0]] + s[1..];
      (if keep(s[0]) then [s[0]] else []) + Filter(s[1..], keep)
  }

  lemma FilterCons<T>(s: seq<T>, keep: T -> bool)
    requires s != []
    ensures Filter(s, keep) == if keep(s[0]) then [s[0]] + Filter(s[1..], keep) else Filter(s[1..], keep)
  {
  }

  lemma {:induction false} FilterSplit<T>(a: seq<T>, b: seq<T>, keep: T -> bool)
    ensures Filter(a + b, keep) == Filter(a, keep) + Filter(b, keep)
  {
    if a == [] {
      assert a + b == b;
    } else {
      assert (a + b)[1..] == a[1..] + b;
      FilterSplit(a[1..], b, keep);
    }
  }

  lemma FilterNothing<T>(keep: T -> bool)
    ensures Filter([], keep) == []
  {
  }

  lemma FilterSnoc<T>(s: seq<T>, x: T, keep: T -> bool)
    ensures Filter(s + [x], keep) == if keep(x) then Filter(s, keep) + [x] else Filter(s, keep)
  {
    FilterSplit(s, [x], keep);
    assert Filter([x], keep) == if keep(x) then [x] else [];
  }

  lemma {:induction false} FilterAll<T>(s: seq<T>, keep: T -> bool)
    requires forall x | x in s :: keep(x)
    ensures Filter(s, keep) == s
  {
    if s != [] {
      FilterAll(s[1..], keep);
      assert s == [s[0]] + s[1..];
    }
  }

  lemma {:induction false} FilterNone<T>(s: seq<T>, keep: T -> bool)
    requires forall x | x in s :: !keep(x)
    ensures Filter(s, keep) == []
  {
    if s != [] {
      FilterNone(s[1..], keep);
    }
  }

  function And<T>(p: T -> bool, q: T -> bool): T -> bool {
    x => p(x) && q(x)
  }

  lemma {:induction false} FilterTwice<T>(s: seq<T>, p: T -> bool, q: T -> bool)
    ensures Filter(Filter(s, p), q) == Filter(s, And(p, q))
  {
    if s != [] {
      FilterTwice(s[1..], p, q);
      FilterSplit(if p(s[0]) then [s[0]] else [], Filter(s[1..], p), q);
    }
  }

  /** Two predicates that agree on the elements keep the same ones. */
  lemma {:induction false} FilterSame<T>(s: seq<T>, p: T -> bool, q: T -> bool)
    requires forall x | x in s :: p(x) == q(x)
    ensures Filter(s, p) == Filter(s, q)
  {
    if s != [] {
      FilterSame(s[1..], p, q);
    }
  }

  predicate Distinct<T(==)>(s: seq<T>) {
    forall i, j | 0 <= i < j < |s| :: s[i] != s[j]
  }

  function Neq<T(==)>(x: T): T -> bool {
    y => y != x
  }

  function NotIn<T(==)>(s: seq<T>): T -> bool {
    y => y !in s
  }

  /** The elements of `s` in order, each at its first occurrence. */
  function FirstSeen<T(==)>(s: seq<T>): (r: seq<T>)
    ensures forall x | x in r :: x in s
  {
    if s == [] then [] else [s[0]] + Filter(FirstSeen(s[1..]), Neq(s[0]))
  }

  lemma {:induction false} FirstSeenKeepsAll<T>(s: seq<T>)
    ensures forall x | x in s :: x in FirstSeen(s)
    ensures Distinct(FirstSeen(s))
  {
    if s != [] {
      FirstSeenKeepsAll(s[1..]);
      FilterDistinct(FirstSeen(s[1..]), Neq(s[0]));
      var rest := Filter(FirstSeen(s[1..]), Neq(s[0]));
      forall j | 0 <= j < |rest| ensures rest[j] != s[0] {
        assert rest[j] in rest && Neq(s[0])(rest[j]);
      }
    }
  }

  lemma {:induction false} FilterDistinct<T>(s: seq<T>, keep: T -> bool)
    requires Distinct(s)
    ensures Distinct(Filter(s, keep))
  {
    if s != [] {
      FilterDistinct(s[1..], keep);
    }
  }

  lemma FilterNotInCons<T>(u: seq<T>, h: T, t: seq<T>)
    ensures Filter(Filter(u, NotIn(t)), Neq(h)) == Filter(u, NotIn([h] + t))
  {
    FilterTwice(u, NotIn(t), Neq(h));
    FilterSame(u, And(NotIn(t), Neq(h)), NotIn([h] + t));
  }

  lemma FirstSeenCons<T>(h: T, t: seq<T>)
    ensures FirstSeen([h] + t) == [h] + Filter(FirstSeen(t), Neq(h))
  {
    assert ([h] + t)[1..] == t;
  }

  lemma FirstSeenAfterNothing<T>(b: seq<T>)
    ensures FirstSeen(b) == FirstSeen([]) + Filter(FirstSeen(b), NotIn([]))
  {
    FilterAll(FirstSeen(b), NotIn([]));
  }

  lemma {:induction false} FirstSeenSplit<T>(a: seq<T>, b: seq<T>)
    ensures FirstSeen(a + b) == FirstSeen(a) + Filter(FirstSeen(b), NotIn(a))
  {
    hide *;
    if a == [] {
      FirstSeenAfterNothing(b);
      assert a + b == b;
    } else {
      var h, t := a[0], a[1..];
      FirstSeenSplit(t, b);
      FilterSplit(FirstSeen(t), Filter(FirstSeen(b), NotIn(t)), Neq(h));
      FilterNotInCons(FirstSeen(b), h, t);
      assert a == [h] + t && a + b == [h] + (t + b);
      FirstSeenCons(h, t);
      FirstSeenCons(h, t + b);
    }
  }
}
