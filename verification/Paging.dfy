/** Paging through candidates: single inline candidates first, then whole pages with selection keys. */
module Paging {
  import opened Text

  function SaturatingSub(a: nat, b: nat): nat {
    if a >= b then a - b else 0
  }

  /** The two settings that paging depends on. */
  datatype Pager = Pager(inlineCount: nat, keys: seq<char>)
  {
    predicate InListing(index: nat) {
      |keys| > 0 && index >= inlineCount
    }

    /** Space: the next candidate or page, or nothing when the candidates are exhausted. */
    function Next(index: nat, count: nat): (r: Option<nat>)
      ensures r.Some? ==> index < r.value < count
    {
      var next := if InListing(index) then index + |keys| else index + 1;
      if next >= count then None else Some(next)
    }

    /** The cancel key past the first candidate: the previous candidate or page. */
    function Previous(index: nat): (r: nat)
      requires index > 0
      ensures r < index
    {
      if InListing(index) then
        var raw := SaturatingSub(index, |keys|);
        if raw < inlineCount then SaturatingSub(inlineCount, 1) else raw
      else index - 1
    }

    /** How many candidates are on display at an index. */
    function Span(index: nat, count: nat): (n: nat)
      requires index < count
      ensures 0 < n <= count - index
    {
      if InListing(index) && |keys| < count - index then |keys|
      else if InListing(index) then count - index
      else 1
    }

    /** The candidates on display at an index: one word, or a page. */
    function Shown<T>(candidates: seq<T>, index: nat): (page: seq<T>)
      requires index < |candidates|
      ensures page != []
    {
      candidates[index..index + Span(index, |candidates|)]
    }

    /** The index that a selection key picks from the page at `index`. */
    function Picked(ch: char, index: nat, count: nat): (r: Option<nat>)
      ensures r.Some? ==> index <= r.value < count
    {
      if !InListing(index) then None
      else match Find(keys, ch)
        case None => None
        case Some(offset) => if index + offset < count then Some(index + offset) else None
    }

    /** The indices that pressing Space visits until registration. */
    function SpaceRun(index: nat, count: nat): (run: seq<nat>)
      requires index < count
      ensures run != [] && run[0] == index && forall i | 0 <= i < |run| :: run[i] < count
      decreases count - index
    {
      match Next(index, count)
      case None => [index]
      case Some(next) => [index] + SpaceRun(next, count)
    }

    /** The indices that pressing cancel visits until the headword. */
    function CancelRun(index: nat): (run: seq<nat>)
      ensures run != [] && run[0] == index
    {
      if index == 0 then [0] else [index] + CancelRun(Previous(index))
    }
  }

  /** Cancel undoes Space for every index and every setting. */
  lemma CancelUndoesSpace(p: Pager, index: nat, count: nat)
    requires p.Next(index, count).Some?
    ensures p.Previous(p.Next(index, count).value) == index
  {
  }

  /** The display after Space begins where the display before it ended. */
  lemma PagesAreAdjacent(p: Pager, index: nat, count: nat)
    requires index < count
    ensures p.Next(index, count) == if index + p.Span(index, count) < count
                                    then Some(index + p.Span(index, count)) else None
  {
  }

  function Displays<T>(p: Pager, candidates: seq<T>, run: seq<nat>): seq<T>
    requires forall i | 0 <= i < |run| :: run[i] < |candidates|
  {
    if run == [] then [] else p.Shown(candidates, run[0]) + Displays(p, candidates, run[1..])
  }

  lemma {:induction false} RunTilesRest<T>(p: Pager, candidates: seq<T>, index: nat)
    requires index < |candidates|
    ensures Displays(p, candidates, p.SpaceRun(index, |candidates|)) == candidates[index..]
    decreases |candidates| - index
  {
    var count := |candidates|;
    PagesAreAdjacent(p, index, count);
    var run := p.SpaceRun(index, count);
    match p.Next(index, count) {
      case None =>
        assert run[1..] == [];
      case Some(next) =>
        assert run[1..] == p.SpaceRun(next, count);
        RunTilesRest(p, candidates, next);
        assert candidates[index..] == candidates[index..next] + candidates[next..];
    }
  }

  /** Main result: pressing Space from the first candidate to registration displays every candidate
      exactly once and in order, with no gap and no overlap, in at most as many presses as candidates. */
  lemma SpaceShowsEverythingOnce<T>(p: Pager, candidates: seq<T>)
    requires candidates != []
    ensures Displays(p, candidates, p.SpaceRun(0, |candidates|)) == candidates
    ensures |p.SpaceRun(0, |candidates|)| <= |candidates|
    ensures p.Next(p.SpaceRun(0, |candidates|)[|p.SpaceRun(0, |candidates|)| - 1], |candidates|) == None
  {
    RunTilesRest(p, candidates, 0);
    RunEnds(p, 0, |candidates|);
  }

  lemma {:induction false} RunEnds(p: Pager, index: nat, count: nat)
    requires index < count
    ensures var run := p.SpaceRun(index, count);
      |run| <= count - index && p.Next(run[|run| - 1], count) == None
    decreases count - index
  {
    var next := p.Next(index, count);
    if next.Some? {
      RunEnds(p, next.value, count);
    }
  }

  // ── Going back ──────────────────────────────────────────────────────────────

  lemma {:induction false} RunSteps(p: Pager, index: nat, count: nat, k: nat)
    requires index < count && k + 1 < |p.SpaceRun(index, count)|
    ensures var run := p.SpaceRun(index, count);
      p.Next(run[k], count) == Some(run[k + 1]) && p.Previous(run[k + 1]) == run[k]
    decreases k
  {
    var run := p.SpaceRun(index, count);
    var next := p.Next(index, count).value;
    CancelUndoesSpace(p, index, count);
    if k > 0 {
      RunSteps(p, next, count, k - 1);
    }
  }

  function Backwards(s: seq<nat>): (r: seq<nat>)
    ensures |r| == |s| && forall i | 0 <= i < |s| :: r[i] == s[|s| - 1 - i]
  {
    if s == [] then [] else Backwards(s[1..]) + [s[0]]
  }

  lemma BackwardsSnoc(s: seq<nat>, x: nat)
    ensures Backwards(s + [x]) == [x] + Backwards(s)
  {
  }

  /** From any index that Space reaches, cancel goes back through exactly the same displays. */
  lemma {:induction false} CancelRetracesSpace(p: Pager, count: nat, k: nat)
    requires 0 < count && k < |p.SpaceRun(0, count)|
    ensures p.CancelRun(p.SpaceRun(0, count)[k]) == Backwards(p.SpaceRun(0, count)[..k + 1])
    decreases k
  {
    var run := p.SpaceRun(0, count);
    if k == 0 {
      assert run[..1] == [0];
    } else {
      RunSteps(p, 0, count, k - 1);
      CancelRetracesSpace(p, count, k - 1);
      assert run[..k + 1] == run[..k] + [run[k]];
      BackwardsSnoc(run[..k], run[k]);
    }
  }

  /** The indices that can be on display: those that pressing Space alone visits. */
  ghost predicate OnRun(p: Pager, index: nat, count: nat) {
    0 < count && index in p.SpaceRun(0, count)
  }

  /** Space and cancel lead from a display to a display. */
  lemma StepsStayOnRun(p: Pager, index: nat, count: nat)
    requires OnRun(p, index, count)
    ensures p.Next(index, count).Some? ==> OnRun(p, p.Next(index, count).value, count)
    ensures index > 0 ==> OnRun(p, p.Previous(index), count)
  {
    var run := p.SpaceRun(0, count);
    var k :| 0 <= k < |run| && run[k] == index;
    RunEnds(p, 0, count);
    if k + 1 < |run| {
      RunSteps(p, 0, count, k);
    }
    if k > 0 {
      RunSteps(p, 0, count, k - 1);
    }
  }

  datatype Move = Forward | Backward

  /** A press of Space or cancel while candidates are shown; None is registration or the headword. */
  function Moved(p: Pager, index: nat, count: nat, m: Move): Option<nat> {
    match m
    case Forward => p.Next(index, count)
    case Backward => if index == 0 then None else Some(p.Previous(index))
  }

  function MovedAll(p: Pager, index: nat, count: nat, moves: seq<Move>): Option<nat>
    decreases |moves|
  {
    if moves == [] then Some(index)
    else match Moved(p, index, count, moves[0])
      case None => None
      case Some(next) => MovedAll(p, next, count, moves[1..])
  }

  /** Whatever mixture of Space and cancel was pressed, the index is one that Space alone visits:
      inside the list, and at the start of a display. */
  lemma {:induction false} MovesStayOnRun(p: Pager, index: nat, count: nat, moves: seq<Move>)
    requires OnRun(p, index, count)
    ensures var r := MovedAll(p, index, count, moves);
      r.Some? ==> OnRun(p, r.value, count) && r.value < count
    decreases |moves|
  {
    if moves != [] {
      StepsStayOnRun(p, index, count);
      var next := Moved(p, index, count, moves[0]);
      if next.Some? {
        MovesStayOnRun(p, next.value, count, moves[1..]);
      }
    }
  }

  // ── Selection keys ──────────────────────────────────────────────────────────

  /** A selection key picks a candidate that is on display, next to that very key. */
  lemma PickedIsShown<T>(p: Pager, candidates: seq<T>, index: nat, ch: char)
    requires index < |candidates| && p.Picked(ch, index, |candidates|).Some?
    ensures var k := p.Picked(ch, index, |candidates|).value - index;
      k < |p.Shown(candidates, index)| && k < |p.keys| && p.keys[k] == ch
      && p.Shown(candidates, index)[k] == candidates[index + k]
  {
  }

  /** Every candidate of a page can be picked with the key shown beside it exactly when no key repeats
      among the keys in front of it. */
  lemma KeyPicksItsCandidate<T>(p: Pager, candidates: seq<T>, index: nat, k: nat)
    requires index < |candidates| && p.InListing(index) && k < |p.Shown(candidates, index)|
    ensures p.Picked(p.keys[k], index, |candidates|) == Some(index + k) <==> p.keys[k] !in p.keys[..k]
  {
    var found := Find(p.keys, p.keys[k]);
    if found.Some? && found.value < k {
      assert p.keys[..k][found.value] == p.keys[k];
    }
  }
}
