/**
 * RandomPlayer: the two 64-cell enumerations.  Both walk the tags "0_0",
 * "0_1", ..., "7_7" and hand every empty cell to the board's check, which
 * appends the cell's tag to a list when the cell is legal.  The lists they
 * build are stated through AppendAbsent (append a tag unless present) over
 * the tags of Rules.LegalCells, which is already in the same x-major order.
 */
module Players {
  import opened BoardModel
  import opened Tags
  import opened Rules
  import opened Boards

  /** The tags of a list of cells, in order. */
  function TagsOf(cells: seq<Pos>): (ts: seq<string>)
    requires forall c :: c in cells ==> OnBoard(c)
    ensures |ts| == |cells|
  {
    if cells == [] then [] else TagsOf(cells[..|cells| - 1]) + [TagOf(cells[|cells| - 1])]
  }

  /** The i-th tag is the tag of the i-th cell. */
  lemma {:induction false} TagsOfAt(cells: seq<Pos>)
    requires forall c :: c in cells ==> OnBoard(c)
    ensures forall i :: 0 <= i < |cells| ==> TagsOf(cells)[i] == TagOf(cells[i])
  {
    if cells != [] {
      TagsOfAt(cells[..|cells| - 1]);
    }
  }

  predicate Distinct<T(==)>(s: seq<T>) {
    forall i, j :: 0 <= i < j < |s| ==> s[i] != s[j]
  }

  /** Appends each tag of ts, in order, to acc unless it is already there (`if tag not in list: list.append(tag)`). */
  function AppendAbsent(acc: seq<string>, ts: seq<string>): seq<string>
  {
    if ts == [] then acc
    else
      var a := AppendAbsent(acc, ts[..|ts| - 1]);
      var t := ts[|ts| - 1];
      if t in a then a else a + [t]
  }

  /** The result holds exactly the tags of acc and ts, and no repeats when acc has none. */
  lemma {:induction false} AppendAbsentMembers(acc: seq<string>, ts: seq<string>)
    ensures forall t :: t in AppendAbsent(acc, ts) <==> t in acc || t in ts
    ensures Distinct(acc) ==> Distinct(AppendAbsent(acc, ts))
  {
    if ts != [] {
      var n := |ts| - 1;
      AppendAbsentMembers(acc, ts[..n]);
      assert ts == ts[..n] + [ts[n]];
    }
  }

  /** Appending the tags of a repeat-free list to an empty list gives that list back. */
  lemma {:induction false} AppendAbsentDistinct(ts: seq<string>)
    requires Distinct(ts)
    ensures AppendAbsent([], ts) == ts
  {
    if ts != [] {
      var n := |ts| - 1;
      AppendAbsentDistinct(ts[..n]);
      assert ts[n] !in ts[..n];
      assert ts[..n] + [ts[n]] == ts;
    }
  }

  /** Distinct on-board cells have distinct tags. */
  lemma TagsOfDistinct(cells: seq<Pos>)
    requires forall c :: c in cells ==> OnBoard(c)
    requires Distinct(cells)
    ensures Distinct(TagsOf(cells))
  {
    var ts := TagsOf(cells);
    TagsOfAt(cells);
    forall i, j | 0 <= i < j < |ts| ensures ts[i] != ts[j] {
      TagOfInjective(cells[i], cells[j]);
    }
  }

  /**
   * The tag list an enumeration has built from acc after visiting the first
   * k cells in x-major order: the tags of the legal ones among them, each
   * appended unless already present.
   */
  function Collected(acc: seq<string>, g: Grid, own: Piece, k: nat): seq<string>
    requires k <= 64
  {
    AppendAbsent(acc, TagsOf(LegalBefore(g, own, k)))
  }

  /** Visiting cell k - 1 appends its tag when the cell is legal and the tag is not yet listed. */
  lemma CollectedStep(acc: seq<string>, g: Grid, own: Piece, k: nat)
    requires 0 < k <= 64
    ensures Collected(acc, g, own, k)
            == var a := Collected(acc, g, own, k - 1);
               var c := Pos((k - 1) / 8, (k - 1) % 8);
               if Legal(g, own, c) && TagOf(c) !in a then a + [TagOf(c)] else a
  {
    var c := Pos((k - 1) / 8, (k - 1) % 8);
    var pre := LegalBefore(g, own, k - 1);
    if Legal(g, own, c) {
      assert LegalBefore(g, own, k) == pre + [c];
      TagsOfSnoc(pre, c);
      AppendAbsentSnoc(acc, TagsOf(pre), TagOf(c));
    } else {
      assert LegalBefore(g, own, k) == pre;
    }
  }

  /** The visit of x_y, the cell of index k. */
  lemma CollectedNext(acc: seq<string>, g: Grid, own: Piece, x: nat, y: nat, k: nat)
    requires x < 8 && y < 8 && k == 8 * x + y
    ensures Collected(acc, g, own, k + 1)
            == var a := Collected(acc, g, own, k);
               if Legal(g, own, Pos(x, y)) && TagOf(Pos(x, y)) !in a then a + [TagOf(Pos(x, y))] else a
  {
    assert k / 8 == x && k % 8 == y;
    CollectedStep(acc, g, own, k + 1);
  }

  lemma TagsOfSnoc(cells: seq<Pos>, c: Pos)
    requires forall d :: d in cells ==> OnBoard(d)
    requires OnBoard(c)
    ensures TagsOf(cells + [c]) == TagsOf(cells) + [TagOf(c)]
  {
  }

  lemma AppendAbsentSnoc(acc: seq<string>, ts: seq<string>, t: string)
    ensures AppendAbsent(acc, ts + [t])
            == var a := AppendAbsent(acc, ts); if t in a then a else a + [t]
  {
    assert (ts + [t])[..|ts|] == ts;
  }

  /**
   * The list an enumeration leaves behind, started from the empty list, is
   * exactly the tags of the legal cells in x-major order, without repeats.
   */
  lemma FreshListIsLegalTags(g: Grid, own: Piece)
    ensures AppendAbsent([], TagsOf(LegalCells(g, own))) == TagsOf(LegalCells(g, own))
    ensures Distinct(TagsOf(LegalCells(g, own)))
  {
    var cells := LegalCells(g, own);
    LegalCellsSpec(g, own);
    TagsOfDistinct(cells);
    AppendAbsentDistinct(TagsOf(cells));
  }

  /** RandomPlayer.random_hit: every empty cell goes through check_random_hit. */
  method RandomHit(board: Board)
    requires board.turn != Wait
    modifies board`avalableHit, board`randomHitListTag
    ensures board.avalableHit == old(board.avalableHit)
    ensures board.randomHitListTag == AppendAbsent(old(board.randomHitListTag), TagsOf(LegalCells(board.grid, OwnPiece(board.turn))))
  {
    ghost var acc, g, own := board.randomHitListTag, board.grid, OwnPiece(board.turn);
    ghost var flag := board.avalableHit;
    var x := 0;
    while x < 8
      invariant 0 <= x <= 8
      invariant board.avalableHit == flag
      invariant board.randomHitListTag == Collected(acc, g, own, 8 * x)
    {
      var y := 0;
      ghost var k := 8 * x;
      while y < 8
        invariant 0 <= y <= 8 && k == 8 * x + y
        invariant board.avalableHit == flag
        invariant board.randomHitListTag == Collected(acc, g, own, k)
      {
        RandomVisit(board, x, y, k, acc);
        y, k := y + 1, k + 1;
      }
      x := x + 1;
    }
  }

  /** One pass of the inner loop of random_hit: cell x_y, the cell of index k, is checked when it is empty. */
  method RandomVisit(board: Board, x: nat, y: nat, ghost k: nat, ghost acc: seq<string>)
    requires x < 8 && y < 8 && k == 8 * x + y && board.turn != Wait
    requires board.randomHitListTag == Collected(acc, board.grid, OwnPiece(board.turn), k)
    modifies board`avalableHit, board`randomHitListTag
    ensures board.avalableHit == old(board.avalableHit)
    ensures board.randomHitListTag == Collected(acc, board.grid, OwnPiece(board.turn), k + 1)
  {
    var p := Pos(x, y);
    if At(board.grid, p) == Empty {
      board.CheckRandomHit(p);
    }
    CollectedNext(acc, board.grid, OwnPiece(board.turn), x, y, k);
  }

  /** RandomPlayer.search_hit: every empty cell goes through check_search_hit. */
  method SearchHit(board: Board)
    requires board.turn != Wait
    modifies board`searchHitListTag
    ensures board.searchHitListTag == AppendAbsent(old(board.searchHitListTag), TagsOf(LegalCells(board.grid, OwnPiece(board.turn))))
  {
    ghost var acc, g, own := board.searchHitListTag, board.grid, OwnPiece(board.turn);
    var x := 0;
    while x < 8
      invariant 0 <= x <= 8
      invariant board.searchHitListTag == Collected(acc, g, own, 8 * x)
    {
      var y := 0;
      ghost var k := 8 * x;
      while y < 8
        invariant 0 <= y <= 8 && k == 8 * x + y
        invariant board.searchHitListTag == Collected(acc, g, own, k)
      {
        SearchVisit(board, x, y, k, acc);
        y, k := y + 1, k + 1;
      }
      x := x + 1;
    }
  }

  /** One pass of the inner loop of search_hit. */
  method SearchVisit(board: Board, x: nat, y: nat, ghost k: nat, ghost acc: seq<string>)
    requires x < 8 && y < 8 && k == 8 * x + y && board.turn != Wait
    requires board.searchHitListTag == Collected(acc, board.grid, OwnPiece(board.turn), k)
    modifies board`searchHitListTag
    ensures board.searchHitListTag == Collected(acc, board.grid, OwnPiece(board.turn), k + 1)
  {
    var p := Pos(x, y);
    if At(board.grid, p) == Empty {
      board.CheckSearchHit(p);
    }
    CollectedNext(acc, board.grid, OwnPiece(board.turn), x, y, k);
  }
}
