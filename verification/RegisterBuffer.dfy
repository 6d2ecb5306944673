/** The registration buffer: text with an editing cursor kept as a UTF-8 byte offset. */
module RegisterBuffer {
  // ── Byte offsets into a string ──────────────────────────────────────────────

  /** `char::len_utf8`. */
  function Utf8Len(c: char): (n: nat)
    ensures 1 <= n <= 4
  {
    if c < '\U{0080}' then 1 else if c < '\U{0800}' then 2 else if c < '\U{10000}' then 3 else 4
  }

  /** `str::len`. */
  function ByteLen(s: string): nat {
    if s == "" then 0 else Utf8Len(s[0]) + ByteLen(s[1..])
  }

  /** `str::is_char_boundary`. */
  predicate IsBoundary(s: string, offset: nat) {
    offset == 0 || (s != "" && Utf8Len(s[0]) <= offset && IsBoundary(s[1..], offset - Utf8Len(s[0])))
  }

  /** How many characters lie before a byte offset. */
  function CharsBefore(s: string, offset: nat): (k: nat)
    requires IsBoundary(s, offset)
    ensures k <= |s| && ByteLen(s[..k]) == offset
  {
    if offset == 0 then 0
    else
      var k := CharsBefore(s[1..], offset - Utf8Len(s[0])) + 1;
      assert s[..k][1..] == s[1..][..k - 1];
      k
  }

  lemma {:induction false} ByteLenSplit(a: string, b: string)
    ensures ByteLen(a + b) == ByteLen(a) + ByteLen(b)
  {
    if a == "" {
      assert a + b == b;
    } else {
      assert (a + b)[1..] == a[1..] + b;
      ByteLenSplit(a[1..], b);
    }
  }

  /** The length in bytes of a prefix is a boundary, and it leads back to that prefix. */
  lemma {:induction false} PrefixIsBoundary(a: string, b: string)
    ensures IsBoundary(a + b, ByteLen(a)) && CharsBefore(a + b, ByteLen(a)) == |a|
  {
    if a != "" {
      assert (a + b)[1..] == a[1..] + b;
      PrefixIsBoundary(a[1..], b);
    }
  }

  // ── The zipper that the buffer stands for ───────────────────────────────────

  /** The characters before and after the cursor. */
  datatype Zipper = Zipper(left: string, right: string)
  {
    function Insert(text: string): Zipper {
      Zipper(left + text, right)
    }

    function Backspace(): Zipper {
      if left == "" then this else Zipper(left[..|left| - 1], right)
    }

    function Delete(): Zipper {
      if right == "" then this else Zipper(left, right[1..])
    }

    function Left(): Zipper {
      if left == "" then this else Zipper(left[..|left| - 1], [left[|left| - 1]] + right)
    }

    function Right(): Zipper {
      if right == "" then this else Zipper(left + [right[0]], right[1..])
    }
  }

  /** The buffer of one registration frame. */
  datatype Buffer = Buffer(text: string, cursor: nat)
  {
    /** The cursor is a character boundary within the text. */
    predicate Valid() {
      IsBoundary(text, cursor)
    }

    /** `&committed[..cursor]` */
    function Before(): string
      requires Valid()
    {
      text[..CharsBefore(text, cursor)]
    }

    /** `&committed[cursor..]` */
    function After(): string
      requires Valid()
    {
      text[CharsBefore(text, cursor)..]
    }

    function Zip(): Zipper
      requires Valid()
    {
      Zipper(Before(), After())
    }

    // ── The edits, by byte offset ─────────────────────────────────────────────

    /** `committed.insert_str(cursor, text)`, then the cursor moves past it. */
    function Insert(s: string): (r: Buffer)
      requires Valid()
      ensures r.Valid() && r.Zip() == Zip().Insert(s)
    {
      var r := Buffer(Before() + s + After(), cursor + ByteLen(s));
      ByteLenSplit(Before(), s);
      PrefixIsBoundary(Before() + s, After());
      r
    }

    /** The byte offset of the character that ends at the cursor. */
    function PreviousBoundary(): (offset: nat)
      requires Valid() && cursor > 0
      ensures offset < cursor && IsBoundary(text, offset)
      ensures CharsBefore(text, offset) == CharsBefore(text, cursor) - 1
    {
      var before := Before();
      var k := |before| - 1;
      assert before == before[..k] + [before[k]] && before[k..] == [before[k]];
      ByteLenSplit(before[..k], before[k..]);
      assert text == before[..k] + text[k..];
      PrefixIsBoundary(before[..k], text[k..]);
      cursor - Utf8Len(before[k])
    }

    /** `reg_backspace` */
    function Backspace(): (r: Buffer)
      requires Valid()
      ensures r.Valid() && r.Zip() == Zip().Backspace()
    {
      if cursor > 0 then
        var offset := PreviousBoundary();
        var k := CharsBefore(text, offset);
        PrefixIsBoundary(text[..k], text[k + 1..]);
        Buffer(text[..k] + text[k + 1..], offset)
      else this
    }

    /** A cursor before the end of the text has a character after it. */
    lemma RoomAfter()
      requires Valid()
      ensures cursor + ByteLen(After()) == ByteLen(text)
      ensures cursor < ByteLen(text) <==> After() != ""
    {
      assert text == Before() + After();
      ByteLenSplit(Before(), After());
    }

    /** `reg_delete` */
    function Delete(): (r: Buffer)
      requires Valid()
      ensures r.Valid() && r.Zip() == Zip().Delete()
    {
      RoomAfter();
      if cursor < ByteLen(text) then
        var k := CharsBefore(text, cursor);
        PrefixIsBoundary(text[..k], text[k + 1..]);
        Buffer(text[..k] + text[k + 1..], cursor)
      else this
    }

    /** `reg_move_left` */
    function Left(): (r: Buffer)
      requires Valid()
      ensures r.Valid() && r.Zip() == Zip().Left()
    {
      if cursor > 0 then this.(cursor := PreviousBoundary()) else this
    }

    /** `reg_move_right` */
    function Right(): (r: Buffer)
      requires Valid()
      ensures r.Valid() && r.Zip() == Zip().Right()
    {
      RoomAfter();
      if cursor < ByteLen(text) then
        var c := After()[0];
        var k := CharsBefore(text, cursor);
        assert text[..k + 1] == Before() + [c] && text == text[..k + 1] + text[k + 1..];
        ByteLenSplit(Before(), [c]);
        PrefixIsBoundary(text[..k + 1], text[k + 1..]);
        this.(cursor := cursor + Utf8Len(c))
      else this
    }
  }

  /** A buffer is determined by its zipper: nothing of it is lost in the abstraction. */
  lemma ZipIsInjective(a: Buffer, b: Buffer)
    requires a.Valid() && b.Valid() && a.Zip() == b.Zip()
    ensures a == b
  {
    assert a.text == a.Before() + a.After() && b.text == b.Before() + b.After();
  }

  lemma InsertNothing(b: Buffer)
    requires b.Valid()
    ensures b.Insert("") == b
  {
    assert b.Before() + "" == b.Before();
    ZipIsInjective(b.Insert(""), b);
  }

  lemma InsertTwice(b: Buffer, x: string, y: string)
    requires b.Valid()
    ensures b.Insert(x).Insert(y) == b.Insert(x + y)
  {
    assert b.Before() + (x + y) == b.Before() + x + y;
    ZipIsInjective(b.Insert(x).Insert(y), b.Insert(x + y));
  }

  // ── Editing sessions ────────────────────────────────────────────────────────

  datatype Edit = InsertText(text: string) | EraseBefore | EraseAfter | MoveLeft | MoveRight

  function Edited(b: Buffer, e: Edit): (r: Buffer)
    requires b.Valid()
    ensures r.Valid()
  {
    match e
    case InsertText(text) => b.Insert(text)
    case EraseBefore => b.Backspace()
    case EraseAfter => b.Delete()
    case MoveLeft => b.Left()
    case MoveRight => b.Right()
  }

  function Rezipped(z: Zipper, e: Edit): Zipper {
    match e
    case InsertText(text) => z.Insert(text)
    case EraseBefore => z.Backspace()
    case EraseAfter => z.Delete()
    case MoveLeft => z.Left()
    case MoveRight => z.Right()
  }

  function EditAll(b: Buffer, edits: seq<Edit>): (r: Buffer)
    requires b.Valid()
    ensures r.Valid()
    decreases |edits|
  {
    if edits == [] then b else EditAll(Edited(b, edits[0]), edits[1..])
  }

  function RezipAll(z: Zipper, edits: seq<Edit>): Zipper
    decreases |edits|
  {
    if edits == [] then z else RezipAll(Rezipped(z, edits[0]), edits[1..])
  }

  /** Main result: a whole session on byte offsets is the same session on the zipper, from any start. */
  lemma {:induction false} SessionRefinesZipper(b: Buffer, edits: seq<Edit>)
    requires b.Valid()
    ensures EditAll(b, edits).Zip() == RezipAll(b.Zip(), edits)
    decreases |edits|
  {
    if edits != [] {
      SessionRefinesZipper(Edited(b, edits[0]), edits[1..]);
    }
  }

  function Times(e: Edit, n: nat): (r: seq<Edit>)
    ensures |r| == n && forall i | 0 <= i < n :: r[i] == e
  {
    if n == 0 then [] else [e] + Times(e, n - 1)
  }

  /** One backspace for each inserted character restores the buffer, whatever their widths. */
  lemma {:induction false} BackspacesUndoInsert(b: Buffer, text: string)
    requires b.Valid()
    ensures EditAll(b.Insert(text), Times(EraseBefore, |text|)) == b
    decreases |text|
  {
    if text == "" {
      InsertNothing(b);
    } else {
      var k := |text| - 1;
      assert text == text[..k] + [text[k]];
      assert (b.Before() + text)[..|b.Before()| + k] == b.Before() + text[..k];
      assert Times(EraseBefore, |text|)[1..] == Times(EraseBefore, k);
      ZipIsInjective(b.Insert(text).Backspace(), b.Insert(text[..k]));
      BackspacesUndoInsert(b, text[..k]);
    }
  }

  /** Moving left and back right, or right and back left, changes nothing away from the ends. */
  lemma MovesCancel(b: Buffer)
    requires b.Valid()
    ensures b.cursor > 0 ==> b.Left().Right() == b
    ensures b.cursor < ByteLen(b.text) ==> b.Right().Left() == b
  {
    b.RoomAfter();
    var z := b.Zip();
    if b.cursor > 0 {
      var k := |z.left| - 1;
      assert z.left == z.left[..k] + [z.left[k]];
      ZipIsInjective(b.Left().Right(), b);
    }
    if b.cursor < ByteLen(b.text) {
      assert z.right == [z.right[0]] + z.right[1..];
      assert (z.left + [z.right[0]])[..|z.left|] == z.left;
      ZipIsInjective(b.Right().Left(), b);
    }
  }

  /** `Delete` removes what `Right` and then `Backspace` would remove. */
  lemma DeleteIsRightBackspace(b: Buffer)
    requires b.Valid() && b.cursor < ByteLen(b.text)
    ensures b.Delete() == b.Right().Backspace()
  {
    b.RoomAfter();
    var z := b.Zip();
    assert (z.left + [z.right[0]])[..|z.left|] == z.left;
    ZipIsInjective(b.Delete(), b.Right().Backspace());
  }
}
