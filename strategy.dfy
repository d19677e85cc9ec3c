/**
 * The three computer players' move choices (the inner `strategy` functions
 * of random_hit_1, random_hit_2 and random_hit_3).  Each receives the list
 * of legal cells in enumeration order.  random.randint and random.choice
 * are modelled as a nondeterministic pick, promised only to be a valid
 * index or a member of the list it is drawn from.
 */
module Strategies {
  import opened BoardModel
  import opened Tags

  // ---------------------------------------------------------------------
  // Corners
  // ---------------------------------------------------------------------

  /** The tags the strategies compare against: ["0_0", "0_7", "7_0", "7_7"]. */
  const CornerTags: seq<string> := ["0_0", "0_7", "7_0", "7_7"]

  /** The tag test picks out exactly the four corner cells. */
  lemma CornerTag(c: Pos)
    requires OnBoard(c)
    ensures TagOf(c) in CornerTags <==> IsCorner(c)
  {
    assert TagOf(Pos(0, 0)) == "0_0" && TagOf(Pos(0, 7)) == "0_7";
    assert TagOf(Pos(7, 0)) == "7_0" && TagOf(Pos(7, 7)) == "7_7";
    TagOfInjective(c, Pos(0, 0));
    TagOfInjective(c, Pos(0, 7));
    TagOfInjective(c, Pos(7, 0));
    TagOfInjective(c, Pos(7, 7));
  }

  /** Index of the first corner of the list, or |list| when there is none. */
  function FirstCorner(list: seq<Pos>): (i: nat)
    ensures i <= |list|
    ensures i < |list| ==> IsCorner(list[i])
  {
    if list == [] then 0
    else if IsCorner(list[0]) then 0
    else 1 + FirstCorner(list[1..])
  }

  /** No cell before the first corner is a corner. */
  lemma {:induction false} FirstCornerIsFirst(list: seq<Pos>)
    ensures forall j :: 0 <= j < FirstCorner(list) ==> !IsCorner(list[j])
  {
    if list != [] && !IsCorner(list[0]) {
      FirstCornerIsFirst(list[1..]);
      forall j | 0 < j < FirstCorner(list) ensures !IsCorner(list[j]) {
        assert list[j] == list[1..][j - 1];
      }
    }
  }

  /** `for coord in temp_hit_list: if tag in [...]: return coord`: the first corner of the list, if any. */
  method FindCorner(list: seq<Pos>) returns (r: Option<Pos>)
    requires forall c :: c in list ==> OnBoard(c)
    ensures r == if FirstCorner(list) < |list| then Some(list[FirstCorner(list)]) else None
  {
    FirstCornerIsFirst(list);
    var i := 0;
    while i < |list|
      invariant 0 <= i <= FirstCorner(list)
    {
      var tag := TagOf(list[i]);
      CornerTag(list[i]);
      if tag in CornerTags {
        return Some(list[i]);
      }
      i := i + 1;
    }
    return None;
  }

  // ---------------------------------------------------------------------
  // random_hit_1: any legal cell
  // ---------------------------------------------------------------------

  /** `idx = 0 if hit_count == 1 else random.randint(0, hit_count - 1)`. */
  method PickIndex(hitCount: nat) returns (idx: nat)
    requires hitCount > 0
    ensures idx < hitCount
    ensures hitCount == 1 ==> idx == 0
  {
    if hitCount == 1 {
      idx := 0;
    } else {
      idx :| 0 <= idx < hitCount;
    }
  }

  // ---------------------------------------------------------------------
  // random_hit_2: a corner, else a cell not next to a corner
  // ---------------------------------------------------------------------

  /** The text f"{n}" of an integer, sign included. */
  function FormatInt(n: int): (s: string)
    ensures 0 <= n < 10 ==> s == [DigitChar(n)]
    ensures n < 0 ==> |s| >= 2 && s[0] == '-'
    ensures n >= 10 ==> |s| >= 2
  {
    if n < 0 then "-" + NatToString(-n) else NatToString(n)
  }

  /** `tag_to_coord.get(f"{a}_{b}")` is a cell exactly for the on-board pairs. */
  lemma LookupFormatted(a: int, b: int)
    requires -1 <= a <= 8 && -1 <= b <= 8
    ensures ParseTag(FormatInt(a) + "_" + FormatInt(b))
            == if OnBoard(Pos(a, b)) then Some(Pos(a, b)) else None
  {
    var t := FormatInt(a) + "_" + FormatInt(b);
    if OnBoard(Pos(a, b)) {
      assert t == TagOf(Pos(a, b));
      TagRoundTrip(t, Pos(a, b));
    } else if a == 8 {
      assert t[0] == '8';
    } else if b == 8 && a >= 0 {
      assert t[2] == '8';
    }
  }

  /** c is one of the up to eight on-board neighbours of the cell (x, y). */
  predicate Around(c: Pos, x: int, y: int) {
    OnBoard(c) && c != Pos(x, y) && -1 <= c.x - x <= 1 && -1 <= c.y - y <= 1
  }

  /**
   * The cells next to a corner, described without reference to the loops:
   * on the board, not a corner, and within one step of the border on both
   * axes near the same end.
   */
  predicate NearCorner(c: Pos) {
    OnBoard(c) && !IsCorner(c) && (c.x <= 1 || c.x >= 6) && (c.y <= 1 || c.y >= 6)
  }

  lemma NearCornerIsAround(c: Pos)
    ensures NearCorner(c) <==> Around(c, 0, 0) || Around(c, 0, 7) || Around(c, 7, 0) || Around(c, 7, 7)
  {
  }

  /** Around (x, y) and visited before step (dx, dy) by the two innermost loops of avoid_list. */
  predicate Seen(c: Pos, x: int, y: int, dx: int, dy: int) {
    Around(c, x, y) && (c.x - x < dx || (c.x - x == dx && c.y - y < dy))
  }

  lemma SeenStep(x: int, y: int, dx: int, dy: int)
    ensures forall c :: Seen(c, x, y, dx, dy + 1)
                        <==> Seen(c, x, y, dx, dy) || (c == Pos(x + dx, y + dy) && Around(c, x, y))
  {
  }

  lemma SeenRow(x: int, y: int, dx: int)
    ensures forall c :: Seen(c, x, y, dx, 2) <==> Seen(c, x, y, dx + 1, -1)
  {
  }

  lemma SeenAll(x: int, y: int)
    ensures forall c :: Seen(c, x, y, 2, -1) <==> Around(c, x, y)
    ensures forall c :: !Seen(c, x, y, -1, -1)
  {
  }

  /** One (dx, dy) step of the innermost loop keeps r equal to avoid plus the cells seen so far. */
  lemma AvoidStep(avoid: seq<Pos>, r0: seq<Pos>, r: seq<Pos>, x: int, y: int, dx: int, dy: int)
    requires -1 <= dx <= 1 && -1 <= dy <= 1
    requires forall c :: c in r0 <==> c in avoid || Seen(c, x, y, dx, dy)
    requires r == if !(dx == 0 && dy == 0) && OnBoard(Pos(x + dx, y + dy)) then r0 + [Pos(x + dx, y + dy)] else r0
    ensures forall c :: c in r <==> c in avoid || Seen(c, x, y, dx, dy + 1)
  {
    SeenStep(x, y, dx, dy);
    var p := Pos(x + dx, y + dy);
    assert Around(p, x, y) <==> !(dx == 0 && dy == 0) && OnBoard(p);
  }

  /**
   * The two innermost loops of avoid_list for the corner (x, y): for each
   * (dx, dy) but (0, 0), the cell x+dx_y+dy is appended when its tag exists.
   */
  method AvoidAround(x: int, y: int, avoid: seq<Pos>) returns (r: seq<Pos>)
    requires (x == 0 || x == 7) && (y == 0 || y == 7)
    ensures forall c :: c in r <==> c in avoid || Around(c, x, y)
  {
    r := avoid;
    SeenAll(x, y);
    var dx := -1;
    while dx < 2
      invariant -1 <= dx <= 2
      invariant forall c :: c in r <==> c in avoid || Seen(c, x, y, dx, -1)
    {
      var dy := -1;
      while dy < 2
        invariant -1 <= dx <= 1 && -1 <= dy <= 2
        invariant forall c :: c in r <==> c in avoid || Seen(c, x, y, dx, dy)
      {
        ghost var r0 := r;
        if !(dx == 0 && dy == 0) {
          var avoidTag := FormatInt(x + dx) + "_" + FormatInt(y + dy);
          LookupFormatted(x + dx, y + dy);
          var found := ParseTag(avoidTag);
          if found.Some? {
            r := r + [found.value];
          }
        }
        AvoidStep(avoid, r0, r, x, y, dx, dy);
        dy := dy + 1;
      }
      SeenRow(x, y, dx);
      dx := dx + 1;
    }
  }

  /** avoid_list: the on-board neighbours of the four corners. */
  method AvoidList() returns (avoid: seq<Pos>)
    ensures forall c :: c in avoid <==> NearCorner(c)
  {
    avoid := [];
    var x := 0;
    while x < 8
      invariant x == 0 || x == 7 || x == 14
      invariant forall c :: c in avoid <==> ((0 < x && (Around(c, 0, 0) || Around(c, 0, 7)))
                                             || (7 < x && (Around(c, 7, 0) || Around(c, 7, 7))))
    {
      ghost var before := avoid;
      var y := 0;
      while y < 8
        invariant y == 0 || y == 7 || y == 14
        invariant forall c :: c in avoid <==> c in before || (0 < y && Around(c, x, 0)) || (7 < y && Around(c, x, 7))
      {
        avoid := AvoidAround(x, y, avoid);
        y := y + 7;
      }
      x := x + 7;
    }
    forall c ensures c in avoid <==> NearCorner(c) {
      NearCornerIsAround(c);
    }
  }

  /** preferred_list = [c for c in temp_hit_list if c not in avoid_list]. */
  function Unavoided(list: seq<Pos>, avoid: seq<Pos>): (r: seq<Pos>)
    ensures forall c :: c in r <==> c in list && c !in avoid
    ensures |r| <= |list|
  {
    if list == [] then []
    else if list[0] in avoid then Unavoided(list[1..], avoid)
    else [list[0]] + Unavoided(list[1..], avoid)
  }

  /**
   * random_hit_2's choice: the first corner when there is one; otherwise a
   * cell that is not next to a corner when there is one; otherwise any cell.
   */
  method Strategy2(list: seq<Pos>) returns (c: Pos)
    requires |list| > 0
    requires forall d :: d in list ==> OnBoard(d)
    ensures c in list
    ensures FirstCorner(list) < |list| ==> c == list[FirstCorner(list)]
    ensures FirstCorner(list) == |list| && (exists d :: d in list && !NearCorner(d)) ==> !NearCorner(c)
  {
    var corner := FindCorner(list);
    if corner.Some? {
      return corner.value;
    }
    var avoid := AvoidList();
    var preferred := Unavoided(list, avoid);
    if preferred == [] {
      preferred := list;
    }
    assert preferred[0] in preferred;
    c :| c in preferred;
  }

  // ---------------------------------------------------------------------
  // random_hit_3: a corner, else the first cell of highest evaluation
  // ---------------------------------------------------------------------

  /** Index of the first cell of maximal evaluation in a non-empty list. */
  function BestIndex(list: seq<Pos>): (i: nat)
    requires |list| > 0
    requires forall c :: c in list ==> OnBoard(c)
    ensures i < |list|
  {
    var n := |list| - 1;
    if n == 0 then 0
    else
      var b := BestIndex(list[..n]);
      if Eval(list[n]) > Eval(list[b]) then n else b
  }

  /** BestIndex picks a cell of maximal evaluation, and the first one: every earlier cell is strictly worse. */
  lemma {:induction false} BestIndexIsBest(list: seq<Pos>)
    requires |list| > 0
    requires forall c :: c in list ==> OnBoard(c)
    ensures forall j :: 0 <= j < |list| ==> Eval(list[j]) <= Eval(list[BestIndex(list)])
    ensures forall j :: 0 <= j < BestIndex(list) ==> Eval(list[j]) < Eval(list[BestIndex(list)])
  {
    var n := |list| - 1;
    if n > 0 {
      var pre := list[..n];
      BestIndexIsBest(pre);
      var b := BestIndex(pre);
      assert forall j :: 0 <= j < n ==> list[j] == pre[j];
    }
  }

  /**
   * random_hit_3's choice: the first corner when there is one; otherwise the
   * first cell whose evaluation beats all earlier ones strictly (the source
   * starts from minus infinity, modelled as "no cell yet").
   */
  method Strategy3(list: seq<Pos>) returns (r: Option<Pos>)
    requires forall d :: d in list ==> OnBoard(d)
    ensures FirstCorner(list) < |list| ==> r == Some(list[FirstCorner(list)])
    ensures FirstCorner(list) == |list| ==> r == if list == [] then None else Some(list[BestIndex(list)])
  {
    var corner := FindCorner(list);
    if corner.Some? {
      return corner;
    }
    var maxEvalCoord: Option<Pos> := None;
    var maxEvalScore := 0;
    var i := 0;
    while i < |list|
      invariant 0 <= i <= |list|
      invariant i == 0 ==> maxEvalCoord == None
      invariant i > 0 ==> maxEvalCoord == Some(list[BestIndex(list[..i])])
                          && maxEvalScore == Eval(list[BestIndex(list[..i])])
    {
      var evalValue := Eval(list[i]);
      assert list[..i + 1][..i] == list[..i];
      if maxEvalCoord.None? || evalValue > maxEvalScore {
        maxEvalScore := evalValue;
        maxEvalCoord := Some(list[i]);
      }
      i := i + 1;
    }
    assert list[..|list|] == list;
    return maxEvalCoord;
  }

  /**
   * Strategy 3's corner rule never changes its answer: corners are the only
   * cells worth 30 and every other cell is worth at most 0, so the first
   * corner is also the first cell of highest evaluation.
   */
  lemma CornerIsBest(list: seq<Pos>)
    requires forall c :: c in list ==> OnBoard(c)
    requires FirstCorner(list) < |list|
    ensures BestIndex(list) == FirstCorner(list)
  {
    var k := FirstCorner(list);
    var b := BestIndex(list);
    FirstCornerIsFirst(list);
    BestIndexIsBest(list);
    EvalShape(list[k]);
    EvalShape(list[b]);
  }
}
