/**
 * The opening position: which cells black may play first.  Board-level
 * facts are proved for any board that agrees with init_board_setup's
 * layout cell by cell, then applied to the initial board itself.
 */
module Opening {
  import opened BoardModel
  import opened Rules

  lemma InitialAtAll()
    ensures forall p :: OnBoard(p) ==> At(Initial, p) == InitialPiece(p)
  {
    forall p | OnBoard(p) ensures At(Initial, p) == InitialPiece(p) { InitialAt(p); }
  }

  lemma DirsList()
    ensures forall j :: 0 <= j < 8 ==> Dirs[j] in {Dir(-1, -1), Dir(-1, 0), Dir(-1, 1), Dir(0, -1), Dir(0, 1), Dir(1, -1), Dir(1, 0), Dir(1, 1)}
  {}

  /** A board laid out as init_board_setup leaves it. */
  ghost predicate IsInitial(g: Grid) {
    forall p :: OnBoard(p) ==> At(g, p) == InitialPiece(p)
  }

  /** p has one of the two initial white discs as a neighbour. */
  predicate NextToWhite(p: Pos) {
    exists j :: 0 <= j < 8 && (Step(p, Dirs[j]) == Pos(3, 4) || Step(p, Dirs[j]) == Pos(4, 3))
  }

  /** Without a white neighbour no direction can start with an opponent disc. */
  lemma FarCellsNotLegal(g: Grid, p: Pos)
    requires IsInitial(g)
    requires OnBoard(p) && !NextToWhite(p)
    ensures !Brackets(g, Black, p)
  {
    BracketsSome(g, Black, p);
  }

  lemma LegalAt24(g: Grid)
    requires IsInitial(g)
    ensures Legal(g, Black, Pos(2, 4))
  {
    assert Dirs[6] == Dir(1, 0);
    assert FindOwn(g, Black, Pos(3, 4), Dir(1, 0));
    BracketsByDir(g, Black, Pos(2, 4), 6);
  }

  lemma LegalAt35(g: Grid)
    requires IsInitial(g)
    ensures Legal(g, Black, Pos(3, 5))
  {
    assert Dirs[3] == Dir(0, -1);
    assert FindOwn(g, Black, Pos(3, 4), Dir(0, -1));
    BracketsByDir(g, Black, Pos(3, 5), 3);
  }

  lemma LegalAt42(g: Grid)
    requires IsInitial(g)
    ensures Legal(g, Black, Pos(4, 2))
  {
    assert Dirs[4] == Dir(0, 1);
    assert FindOwn(g, Black, Pos(4, 3), Dir(0, 1));
    BracketsByDir(g, Black, Pos(4, 2), 4);
  }

  lemma LegalAt53(g: Grid)
    requires IsInitial(g)
    ensures Legal(g, Black, Pos(5, 3))
  {
    assert Dirs[1] == Dir(-1, 0);
    assert FindOwn(g, Black, Pos(4, 3), Dir(-1, 0));
    BracketsByDir(g, Black, Pos(5, 3), 1);
  }

  lemma NotLegalAt23(g: Grid)
    requires IsInitial(g)
    ensures !Brackets(g, Black, Pos(2, 3))
  {
    BracketsSome(g, Black, Pos(2, 3));
    DirsList();
    assert !FindOwn(g, Black, Pos(3, 4), Dir(1, 1));
  }

  lemma NotLegalAt25(g: Grid)
    requires IsInitial(g)
    ensures !Brackets(g, Black, Pos(2, 5))
  {
    BracketsSome(g, Black, Pos(2, 5));
    DirsList();
    assert !FindOwn(g, Black, Pos(3, 4), Dir(1, -1));
  }

  lemma NotLegalAt45(g: Grid)
    requires IsInitial(g)
    ensures !Brackets(g, Black, Pos(4, 5))
  {
    BracketsSome(g, Black, Pos(4, 5));
    DirsList();
    assert !FindOwn(g, Black, Pos(3, 4), Dir(-1, -1));
  }

  lemma NotLegalAt32(g: Grid)
    requires IsInitial(g)
    ensures !Brackets(g, Black, Pos(3, 2))
  {
    BracketsSome(g, Black, Pos(3, 2));
    DirsList();
    assert !FindOwn(g, Black, Pos(4, 3), Dir(1, 1));
  }

  lemma NotLegalAt52(g: Grid)
    requires IsInitial(g)
    ensures !Brackets(g, Black, Pos(5, 2))
  {
    BracketsSome(g, Black, Pos(5, 2));
    DirsList();
    assert !FindOwn(g, Black, Pos(4, 3), Dir(-1, 1));
  }

  lemma NotLegalAt54(g: Grid)
    requires IsInitial(g)
    ensures !Brackets(g, Black, Pos(5, 4))
  {
    BracketsSome(g, Black, Pos(5, 4));
    DirsList();
    assert !FindOwn(g, Black, Pos(4, 3), Dir(-1, -1));
  }

  /** A cell with no white neighbour is neither legal nor one of the four answers. */
  lemma FarCase(g: Grid, p: Pos)
    requires IsInitial(g)
    requires OnBoard(p) && !NextToWhite(p)
    ensures !Legal(g, Black, p) && p !in {Pos(2, 4), Pos(3, 5), Pos(4, 2), Pos(5, 3)}
  {
    FarCellsNotLegal(g, p);
    assert Step(Pos(2, 4), Dirs[6]) == Pos(3, 4) && Step(Pos(3, 5), Dirs[3]) == Pos(3, 4);
    assert Step(Pos(4, 2), Dirs[4]) == Pos(4, 3) && Step(Pos(5, 3), Dirs[1]) == Pos(4, 3);
  }

  /** The cells next to 3_4 or 4_3, other than the discs themselves. */
  lemma NearCells(p: Pos)
    requires OnBoard(p) && NextToWhite(p)
    ensures p in {Pos(2, 4), Pos(3, 5), Pos(4, 2), Pos(5, 3), Pos(2, 3), Pos(2, 5), Pos(4, 5),
                  Pos(3, 2), Pos(5, 2), Pos(5, 4), Pos(3, 3), Pos(4, 4), Pos(3, 4), Pos(4, 3)}
  {
    var j :| 0 <= j < 8 && (Step(p, Dirs[j]) == Pos(3, 4) || Step(p, Dirs[j]) == Pos(4, 3));
    DirsList();
  }

  /** On the opening board a cell is a legal move for black exactly when it is 2_4, 3_5, 4_2 or 5_3. */
  lemma InitialLegal(g: Grid, p: Pos)
    requires IsInitial(g)
    requires OnBoard(p)
    ensures Legal(g, Black, p) <==> p in {Pos(2, 4), Pos(3, 5), Pos(4, 2), Pos(5, 3)}
  {
    if !NextToWhite(p) {
      FarCase(g, p);
    } else if p == Pos(2, 4) {
      LegalAt24(g);
    } else if p == Pos(3, 5) {
      LegalAt35(g);
    } else if p == Pos(4, 2) {
      LegalAt42(g);
    } else if p == Pos(5, 3) {
      LegalAt53(g);
    } else if p == Pos(2, 3) {
      NotLegalAt23(g);
    } else if p == Pos(2, 5) {
      NotLegalAt25(g);
    } else if p == Pos(4, 5) {
      NotLegalAt45(g);
    } else if p == Pos(3, 2) {
      NotLegalAt32(g);
    } else if p == Pos(5, 2) {
      NotLegalAt52(g);
    } else if p == Pos(5, 4) {
      NotLegalAt54(g);
    } else {
      NearCells(p);
      assert At(g, p) != Empty;
    }
  }

  lemma SortedTail(a: seq<Pos>)
    requires SortedCells(a) && a != []
    ensures SortedCells(a[1..])
    ensures forall c :: c in a[1..] <==> c in a && c != a[0]
    ensures forall c :: c in a ==> OnBoard(c) && Idx(a[0]) <= Idx(c)
  {
    forall c | c in a[1..] ensures c in a && c != a[0] {
      var i :| 0 <= i < |a| - 1 && a[1..][i] == c;
      assert a[i + 1] == c;
    }
    assert a == [a[0]] + a[1..];
    forall c | c in a ensures OnBoard(c) && Idx(a[0]) <= Idx(c) {
      var i :| 0 <= i < |a| && a[i] == c;
      if i > 0 { assert Idx(a[0]) < Idx(a[i]); }
    }
  }

  /** Two index-sorted lists of cells with the same members are the same list. */
  lemma {:induction false} SortedUnique(a: seq<Pos>, b: seq<Pos>)
    requires SortedCells(a) && SortedCells(b)
    requires forall c :: c in a <==> c in b
    ensures a == b
  {
    assert a == [] <==> b == [] by {
      if a != [] { assert a[0] in a; }
      if b != [] { assert b[0] in b; }
    }
    if a != [] {
      assert a[0] in b;
      SortedTail(a);
      SortedTail(b);
      IdxInjective(a[0], b[0]);
      SortedUnique(a[1..], b[1..]);
      assert a == [a[0]] + a[1..];
      assert b == [b[0]] + b[1..];
    }
  }

  /** At the start of a game black has exactly four moves: 2_4, 3_5, 4_2 and 5_3, in that order. */
  lemma InitialLegalCells()
    ensures LegalCells(Initial, Black) == [Pos(2, 4), Pos(3, 5), Pos(4, 2), Pos(5, 3)]
  {
    InitialAtAll();
    LegalCellsOfInitial(Initial);
  }

  lemma LegalCellsOfInitial(g: Grid)
    requires IsInitial(g)
    ensures LegalCells(g, Black) == [Pos(2, 4), Pos(3, 5), Pos(4, 2), Pos(5, 3)]
  {
    var expected := [Pos(2, 4), Pos(3, 5), Pos(4, 2), Pos(5, 3)];
    SameMembers(g, LegalCells(g, Black), expected);
  }

  lemma SameMembers(g: Grid, cells: seq<Pos>, expected: seq<Pos>)
    requires IsInitial(g)
    requires cells == LegalCells(g, Black)
    requires expected == [Pos(2, 4), Pos(3, 5), Pos(4, 2), Pos(5, 3)]
    ensures cells == expected
  {
    LegalCellsSpec(g, Black);
    InitialMembers(g, cells, expected);
    ExpectedSorted(expected);
    SortedUnique(cells, expected);
  }

  lemma ExpectedSorted(expected: seq<Pos>)
    requires expected == [Pos(2, 4), Pos(3, 5), Pos(4, 2), Pos(5, 3)]
    ensures SortedCells(expected)
  {
  }

  lemma InitialMembers(g: Grid, cells: seq<Pos>, expected: seq<Pos>)
    requires IsInitial(g)
    requires forall c :: c in cells <==> OnBoard(c) && Legal(g, Black, c)
    requires expected == [Pos(2, 4), Pos(3, 5), Pos(4, 2), Pos(5, 3)]
    ensures forall c :: c in cells <==> c in expected
  {
    forall c | c in cells ensures c in expected { InitialLegal(g, c); }
    forall c | c in expected ensures c in cells { InitialLegal(g, c); }
  }
}
