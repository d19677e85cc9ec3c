/**
 * The abstract 8x8 board of othello.py.  The source keys its board dictionary
 * `coord_to_piece` by pixel rectangles, but those are in bijection with the 64
 * tags "x_y" (0 <= x, y <= 7), so the model indexes cells by the tag integers.
 * A board is a flat sequence of 64 pieces stored x-major (index 8*x + y), which
 * is also the order in which the source enumerates tags.
 */
module BoardModel {

  /** Contents of a cell: 0, 1 and 2 in the source's dictionary. */
  datatype Piece = Empty | Black | White

  /** Board.turn: "first" (black), "second" (white), or "wait" before a game starts. */
  datatype Turn = First | Second | Wait

  /** A cell, by the two integers of its tag "x_y". */
  datatype Pos = Pos(x: int, y: int)

  datatype Option<T> = None | Some(value: T)

  /** A step (dx, dy) of a directional scan. */
  datatype Dir = Dir(dx: int, dy: int)

  type Grid = g: seq<Piece> | |g| == 64 witness EmptyGrid()

  function EmptyGrid(): seq<Piece> { seq(64, _ => Empty) }

  predicate OnBoard(p: Pos) { 0 <= p.x <= 7 && 0 <= p.y <= 7 }

  /** One of the eight unit steps (the source's (dx, dy) != (0, 0) with dx, dy in -1..1). */
  predicate IsDir(d: Dir) {
    -1 <= d.dx <= 1 && -1 <= d.dy <= 1 && !(d.dx == 0 && d.dy == 0)
  }

  /** A direction a scan can take. */
  type UnitDir = d: Dir | IsDir(d) witness Dir(0, 1)

  /** The eight directions in the order `[(i, j) for i in range(-1, 2) for j in range(-1, 2) if not (i == 0 and j == 0)]`. */
  const Dirs: seq<UnitDir> := [Dir(-1, -1), Dir(-1, 0), Dir(-1, 1), Dir(0, -1),
                           Dir(0, 1), Dir(1, -1), Dir(1, 0), Dir(1, 1)]

  lemma DirsAreDirs()
    ensures |Dirs| == 8
    ensures forall j :: 0 <= j < 8 ==> IsDir(Dirs[j])
    ensures forall j, k :: 0 <= j < k < 8 ==> Dirs[j] != Dirs[k]
  {
  }

  function Step(p: Pos, d: Dir): Pos { Pos(p.x + d.dx, p.y + d.dy) }

  function Idx(p: Pos): (i: nat)
    requires OnBoard(p)
    ensures i < 64
  {
    8 * p.x + p.y
  }

  function PosOf(i: nat): (p: Pos)
    requires i < 64
    ensures OnBoard(p) && Idx(p) == i
  {
    Pos(i / 8, i % 8)
  }

  lemma IdxInjective(p: Pos, q: Pos)
    requires OnBoard(p) && OnBoard(q)
    ensures Idx(p) == Idx(q) <==> p == q
  {
  }

  lemma PosOfIdx(p: Pos)
    requires OnBoard(p)
    ensures PosOf(Idx(p)) == p
  {
    IdxInjective(PosOf(Idx(p)), p);
  }

  function At(g: Grid, p: Pos): Piece
    requires OnBoard(p)
  {
    g[Idx(p)]
  }

  /** `coord_to_piece[coord] = v`. */
  function Set(g: Grid, p: Pos, v: Piece): (r: Grid)
    requires OnBoard(p)
    ensures At(r, p) == v
  {
    g[Idx(p) := v]
  }

  /** Writing p leaves every other cell as it was. */
  lemma SetAt(g: Grid, p: Pos, v: Piece, q: Pos)
    requires OnBoard(p) && OnBoard(q)
    ensures At(Set(g, p, v), q) == if q == p then v else At(g, q)
  {
    IdxInjective(p, q);
  }

  /** `for r_coord in to_reverse: coord_to_piece[r_coord] = v`, the writes done in list order. */
  function SetAll(g: Grid, cells: seq<Pos>, v: Piece): Grid
    requires forall c :: c in cells ==> OnBoard(c)
  {
    if cells == [] then g
    else Set(SetAll(g, cells[..|cells| - 1], v), cells[|cells| - 1], v)
  }

  lemma {:induction false} SetAllAt(g: Grid, cells: seq<Pos>, v: Piece, q: Pos)
    requires forall c :: c in cells ==> OnBoard(c)
    requires OnBoard(q)
    ensures At(SetAll(g, cells, v), q) == if q in cells then v else At(g, q)
  {
    if cells != [] {
      var init := cells[..|cells| - 1];
      assert cells == init + [cells[|cells| - 1]];
      SetAllAt(g, init, v, q);
      SetAt(SetAll(g, init, v), cells[|cells| - 1], v, q);
    }
  }

  /** Two boards are equal when they agree on every cell. */
  lemma GridExt(g: Grid, h: Grid)
    requires forall q :: OnBoard(q) ==> At(g, q) == At(h, q)
    ensures g == h
  {
    forall i | 0 <= i < 64 ensures g[i] == h[i] {
      var q := PosOf(i);
      assert At(g, q) == At(h, q);
    }
  }

  // ---------------------------------------------------------------------
  // Initial layout (Board.init_board_setup)
  // ---------------------------------------------------------------------

  /** The piece init_board_setup puts on cell (i, j): black at 3_3 and 4_4, white at 3_4 and 4_3. */
  function InitialPiece(p: Pos): Piece {
    if (p.y == 3 && p.x == 3) || (p.y == 4 && p.x == 4) then Black
    else if (p.y == 3 && p.x == 4) || (p.y == 4 && p.x == 3) then White
    else Empty
  }

  const Initial: Grid := seq(64, i requires 0 <= i < 64 => InitialPiece(PosOf(i)))

  lemma InitialAt(p: Pos)
    requires OnBoard(p)
    ensures At(Initial, p) == InitialPiece(p)
  {
    PosOfIdx(p);
  }

  // ---------------------------------------------------------------------
  // Counting (the generator sums of finish_game and get_result)
  // ---------------------------------------------------------------------

  function Count(s: seq<Piece>, v: Piece): (n: nat)
    ensures n <= |s|
  {
    if s == [] then 0 else (if s[0] == v then 1 else 0) + Count(s[1..], v)
  }

  /** Every cell holds exactly one of the three states, so the three tallies add up to the size. */
  lemma {:induction false} CountPartition(s: seq<Piece>)
    ensures Count(s, Black) + Count(s, White) + Count(s, Empty) == |s|
  {
    if s != [] { CountPartition(s[1..]); }
  }

  lemma {:induction false} CountZero(s: seq<Piece>, v: Piece)
    ensures Count(s, v) == 0 <==> forall i :: 0 <= i < |s| ==> s[i] != v
  {
    if s != [] {
      CountZero(s[1..], v);
      assert forall i :: 1 <= i < |s| ==> s[i] == s[1..][i - 1];
    }
  }

  /**
   * If s2 has v exactly where s1 has v, except at index k where s1 has v and s2
   * has not, then s2 has one v fewer.
   */
  lemma {:induction false} CountDropOne(s1: seq<Piece>, s2: seq<Piece>, v: Piece, k: nat)
    requires |s1| == |s2| && k < |s1|
    requires s1[k] == v && s2[k] != v
    requires forall i :: 0 <= i < |s1| && i != k ==> (s1[i] == v <==> s2[i] == v)
    ensures Count(s2, v) == Count(s1, v) - 1
  {
    if k == 0 {
      CountSame(s1[1..], s2[1..], v);
    } else {
      CountDropOne(s1[1..], s2[1..], v, k - 1);
    }
  }

  lemma {:induction false} CountSame(s1: seq<Piece>, s2: seq<Piece>, v: Piece)
    requires |s1| == |s2|
    requires forall i :: 0 <= i < |s1| ==> (s1[i] == v <==> s2[i] == v)
    ensures Count(s2, v) == Count(s1, v)
  {
    if s1 != [] {
      CountSame(s1[1..], s2[1..], v);
    }
  }

  lemma {:induction false} CountSet(s: seq<Piece>, k: nat, v: Piece, w: Piece)
    requires k < |s|
    ensures Count(s[k := v], w) == Count(s, w) - (if s[k] == w then 1 else 0) + (if v == w then 1 else 0)
  {
    if k > 0 {
      assert s[k := v][1..] == s[1..][k - 1 := v];
      CountSet(s[1..], k - 1, v, w);
    }
  }

  lemma {:induction false} CountConst(n: nat, v: Piece, w: Piece)
    ensures Count(seq(n, _ => v), w) == if v == w then n else 0
  {
    if n > 0 {
      assert seq(n, _ => v)[1..] == seq(n - 1, _ => v);
      CountConst(n - 1, v, w);
    }
  }

  /** The initial board is the empty board with the four centre discs written in. */
  lemma InitialBuilt()
    ensures Initial == Set(Set(Set(Set(EmptyGrid(), Pos(3, 3), Black), Pos(4, 4), Black), Pos(3, 4), White), Pos(4, 3), White)
  {
    var g := Set(Set(Set(Set(EmptyGrid(), Pos(3, 3), Black), Pos(4, 4), Black), Pos(3, 4), White), Pos(4, 3), White);
    forall q | OnBoard(q) ensures At(g, q) == At(Initial, q) {
      InitialAt(q);
      assert At(EmptyGrid(), q) == Empty;
    }
    GridExt(g, Initial);
  }

  /** The initial board holds two black discs, two white discs and 60 empty cells. */
  lemma InitialCounts()
    ensures Count(Initial, Black) == 2 && Count(Initial, White) == 2 && Count(Initial, Empty) == 60
  {
    InitialCount(Black);
    InitialCount(White);
    InitialCount(Empty);
  }

  lemma InitialCount(w: Piece)
    ensures Count(Initial, w) == if w == Empty then 60 else 2
  {
    InitialAsUpdates();
    CountCentre(EmptyGrid(), w);
  }

  /** The empty board with the four centre cells (indices 27, 36, 28, 35) written. */
  lemma CountCentre(g0: seq<Piece>, w: Piece)
    requires g0 == EmptyGrid()
    ensures Count(g0[27 := Black][36 := Black][28 := White][35 := White], w)
            == if w == Empty then 60 else 2
  {
    var g1 := g0[27 := Black];
    var g2 := g1[36 := Black];
    var g3 := g2[28 := White];
    CountConst(64, Empty, w);
    CountSet(g0, 27, Black, w);
    assert Count(g1, w) == if w == Empty then 63 else if w == Black then 1 else 0;
    CountSet(g1, 36, Black, w);
    assert Count(g2, w) == if w == Empty then 62 else if w == Black then 2 else 0;
    CountSet(g2, 28, White, w);
    assert Count(g3, w) == if w == Empty then 61 else if w == Black then 2 else if w == White then 1 else 0;
    CountSet(g3, 35, White, w);
  }

  lemma InitialAsUpdates()
    ensures Initial == EmptyGrid()[27 := Black][36 := Black][28 := White][35 := White]
  {
    InitialBuilt();
  }

  // ---------------------------------------------------------------------
  // Positional evaluation table (Board.tag_to_evalvalue)
  // ---------------------------------------------------------------------

  /** Row x of the table holds the values of the tags "x_0" .. "x_7". */
  const EvalTable: seq<seq<int>> := [
    [30, -12,   0,  -1,  -1,   0, -12,  30],
    [-12, -15,  -3,  -3,  -3,  -3, -15, -12],
    [0,  -3,   0,  -1,  -1,   0,  -3,   0],
    [-1,  -3,  -1,  -1,  -1,  -1,  -3,  -1],
    [-1,  -3,  -1,  -1,  -1,  -1,  -3,  -1],
    [0,  -3,   0,  -1,  -1,   0,  -3,   0],
    [-12, -15,  -3,  -3,  -3,  -3, -15, -12],
    [30, -12,   0,  -1,  -1,   0, -12,  30]]

  /** `tag_to_evalvalue["x_y"]`. */
  function Eval(p: Pos): int
    requires OnBoard(p)
  {
    EvalTable[p.x][p.y]
  }

  predicate IsCorner(p: Pos) {
    p == Pos(0, 0) || p == Pos(0, 7) || p == Pos(7, 0) || p == Pos(7, 7)
  }

  /**
   * The table is symmetric under both reflections and the transpose, the
   * corners and only the corners score 30, and every other cell scores at
   * most 0.
   */
  lemma EvalShape(p: Pos)
    requires OnBoard(p)
    ensures Eval(p) == Eval(Pos(7 - p.x, p.y)) == Eval(Pos(p.x, 7 - p.y)) == Eval(Pos(p.y, p.x))
    ensures Eval(p) == 30 <==> IsCorner(p)
    ensures !IsCorner(p) ==> Eval(p) <= 0
  {
    assert |EvalTable| == 8 && forall i :: 0 <= i < 8 ==> |EvalTable[i]| == 8;
    assert 0 <= p.x <= 7 && 0 <= p.y <= 7;
    if p.x == 0 { if p.y == 0 {} else if p.y == 1 {} else if p.y == 2 {} else if p.y == 3 {} else if p.y == 4 {} else if p.y == 5 {} else if p.y == 6 {} else {} }
    else if p.x == 1 { if p.y == 0 {} else if p.y == 1 {} else if p.y == 2 {} else if p.y == 3 {} else if p.y == 4 {} else if p.y == 5 {} else if p.y == 6 {} else {} }
    else if p.x == 2 { if p.y == 0 {} else if p.y == 1 {} else if p.y == 2 {} else if p.y == 3 {} else if p.y == 4 {} else if p.y == 5 {} else if p.y == 6 {} else {} }
    else if p.x == 3 { if p.y == 0 {} else if p.y == 1 {} else if p.y == 2 {} else if p.y == 3 {} else if p.y == 4 {} else if p.y == 5 {} else if p.y == 6 {} else {} }
    else if p.x == 4 { if p.y == 0 {} else if p.y == 1 {} else if p.y == 2 {} else if p.y == 3 {} else if p.y == 4 {} else if p.y == 5 {} else if p.y == 6 {} else {} }
    else if p.x == 5 { if p.y == 0 {} else if p.y == 1 {} else if p.y == 2 {} else if p.y == 3 {} else if p.y == 4 {} else if p.y == 5 {} else if p.y == 6 {} else {} }
    else if p.x == 6 { if p.y == 0 {} else if p.y == 1 {} else if p.y == 2 {} else if p.y == 3 {} else if p.y == 4 {} else if p.y == 5 {} else if p.y == 6 {} else {} }
    else { if p.y == 0 {} else if p.y == 1 {} else if p.y == 2 {} else if p.y == 3 {} else if p.y == 4 {} else if p.y == 5 {} else if p.y == 6 {} else {} }
  }
}
