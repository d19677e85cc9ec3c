/**
 * The rules the Board class applies, as functions on a board value:
 * the directional scan of find_own_piece_in_direction, the per-direction
 * test of check_piece_around, the collection loop of reverse_piece, the
 * placement of dohit, and the list of legal cells the search methods build.
 *
 * Each executable reading (FindOwn, Run, ReverseDirs) is paired with a
 * reference reading (Bracketed, the prefix of a Ray, the batch flip of
 * Flipped) and proved equal to it.
 */
module Rules {
  import opened BoardModel

  /** `turn_to_piece.get(turn)`: 1 for "first", 2 for "second", nothing (Empty here) for "wait". */
  function OwnPiece(t: Turn): Piece {
    match t
    case First => Black
    case Second => White
    case Wait => Empty
  }

  /** The colour dohit writes: 1 when the turn is "first", 2 otherwise. */
  function PlacedPiece(t: Turn): Piece {
    if t == First then Black else White
  }

  /** A cell holding a disc that is not of colour `own`. */
  predicate IsOpp(g: Grid, own: Piece, q: Pos)
    requires OnBoard(q)
  {
    At(g, q) != Empty && At(g, q) != own
  }

  /** How far a scan from p along d can still go before leaving the board; the termination measure. */
  function Reach(p: Pos, d: Dir): int {
    (if d.dx == 1 then 7 - p.x else if d.dx == -1 then p.x else 0)
    + (if d.dy == 1 then 7 - p.y else if d.dy == -1 then p.y else 0)
  }

  function Sgn(z: int): int {
    if z > 0 then 1 else if z < 0 then -1 else 0
  }

  // ---------------------------------------------------------------------
  // Rays
  // ---------------------------------------------------------------------

  /** The on-board cells beyond p along d, nearest first. */
  function Ray(p: Pos, d: Dir): (r: seq<Pos>)
    requires IsDir(d)
    ensures forall c :: c in r ==> OnBoard(c)
    decreases Reach(p, d)
  {
    var n := Step(p, d);
    if OnBoard(n) then [n] + Ray(n, d) else []
  }

  /** Every cell of a ray lies strictly in direction d from its origin. */
  lemma {:induction false} RayDirection(p: Pos, d: Dir, c: Pos)
    requires IsDir(d)
    requires c in Ray(p, d)
    ensures Sgn(c.x - p.x) == d.dx && Sgn(c.y - p.y) == d.dy
    decreases Reach(p, d)
  {
    var n := Step(p, d);
    if c != n {
      RayDirection(n, d, c);
    }
  }

  /** A ray never contains its own origin. */
  lemma RayExcludesOrigin(p: Pos, d: Dir)
    requires IsDir(d)
    ensures p !in Ray(p, d)
  {
    if p in Ray(p, d) {
      RayDirection(p, d, p);
    }
  }

  /** The rays from one cell in two different directions share no cell. */
  lemma RaysDisjoint(p: Pos, d1: Dir, d2: Dir, c: Pos)
    requires IsDir(d1) && IsDir(d2) && d1 != d2
    ensures !(c in Ray(p, d1) && c in Ray(p, d2))
  {
    if c in Ray(p, d1) && c in Ray(p, d2) {
      RayDirection(p, d1, c);
      RayDirection(p, d2, c);
    }
  }

  /** From an on-board cell a ray has at most seven cells. */
  lemma {:induction false} RayLength(p: Pos, d: Dir)
    requires IsDir(d) && OnBoard(p)
    ensures |Ray(p, d)| <= (if d.dx == 1 then 7 - p.x else if d.dx == -1 then p.x
                            else if d.dy == 1 then 7 - p.y else p.y)
    ensures |Ray(p, d)| <= 7
    decreases Reach(p, d)
  {
    var n := Step(p, d);
    if OnBoard(n) {
      RayLength(n, d);
    }
  }

  // ---------------------------------------------------------------------
  // find_own_piece_in_direction
  // ---------------------------------------------------------------------

  /**
   * The scan of find_own_piece_in_direction from q along d: step; off the
   * board or an empty cell answers false, a disc of colour `own` answers
   * true, any other disc continues the scan.
   */
  function FindOwn(g: Grid, own: Piece, q: Pos, d: Dir): bool
    requires IsDir(d)
    decreases Reach(q, d)
  {
    if !OnBoard(q) then false
    else
      var n := Step(q, d);
      if !OnBoard(n) then false
      else if At(g, n) == Empty then false
      else if At(g, n) == own then true
      else FindOwn(g, own, n, d)
  }

  /** Reference reading: along the ray from q, a run of other-coloured discs ends at a disc of colour `own`. */
  predicate Bracketed(g: Grid, own: Piece, q: Pos, d: Dir)
    requires IsDir(d)
  {
    var r := Ray(q, d);
    own != Empty &&
    exists k :: 0 <= k < |r| && At(g, r[k]) == own && forall j :: 0 <= j < k ==> IsOpp(g, own, r[j])
  }

  /** An opponent disc in front of a bracketed ray brackets the longer ray. */
  lemma BracketedExtend(g: Grid, own: Piece, q: Pos, d: Dir)
    requires IsDir(d) && OnBoard(Step(q, d))
    requires IsOpp(g, own, Step(q, d)) && Bracketed(g, own, Step(q, d), d)
    ensures Bracketed(g, own, q, d)
  {
    var n := Step(q, d);
    var r := Ray(q, d);
    var r' := Ray(n, d);
    assert r == [n] + r';
    var k :| 0 <= k < |r'| && At(g, r'[k]) == own && forall j :: 0 <= j < k ==> IsOpp(g, own, r'[j]);
    assert At(g, r[k + 1]) == own;
    forall j | 0 <= j < k + 1 ensures IsOpp(g, own, r[j]) {
      if j > 0 { assert r[j] == r'[j - 1]; }
    }
  }

  /** A bracketed ray whose first cell is not `own` starts with an opponent disc and brackets on from there. */
  lemma BracketedShrink(g: Grid, own: Piece, q: Pos, d: Dir)
    requires IsDir(d) && OnBoard(Step(q, d))
    requires Bracketed(g, own, q, d) && At(g, Step(q, d)) != own
    ensures IsOpp(g, own, Step(q, d)) && Bracketed(g, own, Step(q, d), d)
  {
    var n := Step(q, d);
    var r := Ray(q, d);
    var r' := Ray(n, d);
    assert r == [n] + r';
    var k :| 0 <= k < |r| && At(g, r[k]) == own && forall j :: 0 <= j < k ==> IsOpp(g, own, r[j]);
    assert k > 0 && IsOpp(g, own, r[0]);
    assert At(g, r'[k - 1]) == own;
    forall j | 0 <= j < k - 1 ensures IsOpp(g, own, r'[j]) {
      assert r'[j] == r[j + 1];
    }
  }

  /** Bracketing seen one cell at a time: the first cell closes it, or is an opponent and the rest is bracketed. */
  lemma BracketedCons(g: Grid, own: Piece, q: Pos, d: Dir)
    requires IsDir(d) && OnBoard(Step(q, d))
    ensures var n := Step(q, d);
            Bracketed(g, own, q, d)
            <==> own != Empty && (At(g, n) == own || (IsOpp(g, own, n) && Bracketed(g, own, n, d)))
  {
    var n := Step(q, d);
    if own != Empty && IsOpp(g, own, n) && Bracketed(g, own, n, d) {
      BracketedExtend(g, own, q, d);
    }
    if Bracketed(g, own, q, d) && At(g, n) != own {
      BracketedShrink(g, own, q, d);
    }
    if own != Empty && At(g, n) == own {
      assert At(g, Ray(q, d)[0]) == own;
    }
  }

  /** The scan answers true exactly when the ray from q is bracketed by a disc of colour `own`. */
  lemma {:induction false} FindOwnIsBracketed(g: Grid, own: Piece, q: Pos, d: Dir)
    requires IsDir(d) && OnBoard(q)
    ensures FindOwn(g, own, q, d) <==> Bracketed(g, own, q, d)
    decreases Reach(q, d)
  {
    var n := Step(q, d);
    if OnBoard(n) {
      BracketedCons(g, own, q, d);
      if IsOpp(g, own, n) {
        FindOwnIsBracketed(g, own, n, d);
      }
    }
  }

  // ---------------------------------------------------------------------
  // The run reverse_piece collects in one direction
  // ---------------------------------------------------------------------

  /**
   * The inner loop of reverse_piece started at n: an empty cell or the edge
   * ends it with nothing to flip (None), a disc of colour `own` ends it with
   * the collected cells, any other disc is collected and the scan moves on.
   */
  function Run(g: Grid, own: Piece, n: Pos, d: Dir): (r: Option<seq<Pos>>)
    requires IsDir(d)
    ensures r.Some? ==> forall c :: c in r.value ==> OnBoard(c)
    decreases Reach(n, d)
  {
    if !OnBoard(n) then None
    else if At(g, n) == Empty then None
    else if At(g, n) == own then Some([])
    else match Run(g, own, Step(n, d), d)
      case None => None
      case Some(rest) => Some([n] + rest)
  }

  /** The cells reverse_piece flips in direction d from p (empty when the run is not closed). */
  function Captured(g: Grid, own: Piece, p: Pos, d: Dir): (cs: seq<Pos>)
    requires IsDir(d)
    ensures forall c :: c in cs ==> OnBoard(c)
  {
    match Run(g, own, Step(p, d), d)
    case Some(r) => r
    case None => []
  }

  /**
   * A closed run is exactly the opponent prefix of the ray from p, and the
   * cell right after it holds a disc of colour `own`.
   */
  lemma {:induction false} RunShape(g: Grid, own: Piece, p: Pos, d: Dir)
    requires IsDir(d)
    requires Run(g, own, Step(p, d), d).Some?
    ensures var r := Run(g, own, Step(p, d), d).value;
            var ray := Ray(p, d);
            |r| < |ray| && r == ray[..|r|] && At(g, ray[|r|]) == own &&
            forall i :: 0 <= i < |r| ==> IsOpp(g, own, r[i])
    decreases Reach(p, d)
  {
    var n := Step(p, d);
    if At(g, n) != own {
      RunShape(g, own, n, d);
    }
  }

  /** Conversely, an opponent prefix of the ray closed by a disc of colour `own` is the run. */
  lemma {:induction false} RunOfBracket(g: Grid, own: Piece, p: Pos, d: Dir, k: nat)
    requires IsDir(d) && own != Empty
    requires k < |Ray(p, d)| && At(g, Ray(p, d)[k]) == own
    requires forall j :: 0 <= j < k ==> IsOpp(g, own, Ray(p, d)[j])
    ensures Run(g, own, Step(p, d), d) == Some(Ray(p, d)[..k])
    decreases Reach(p, d)
  {
    var n := Step(p, d);
    var ray := Ray(p, d);
    assert ray[0] == n;
    if k > 0 {
      var ray' := Ray(n, d);
      assert ray == [n] + ray';
      forall j | 0 <= j < k - 1 ensures IsOpp(g, own, ray'[j]) {
        assert ray'[j] == ray[j + 1];
      }
      RunOfBracket(g, own, n, d, k - 1);
      assert ray[..k] == [n] + ray'[..k - 1];
    }
  }

  lemma CapturedInRay(g: Grid, own: Piece, p: Pos, d: Dir)
    requires IsDir(d)
    ensures forall c :: c in Captured(g, own, p, d) ==> c in Ray(p, d) && IsOpp(g, own, c)
  {
    if Run(g, own, Step(p, d), d).Some? {
      RunShape(g, own, p, d);
      var r := Captured(g, own, p, d);
      forall c | c in r ensures c in Ray(p, d) && IsOpp(g, own, c) {
        var i :| 0 <= i < |r| && r[i] == c;
        assert Ray(p, d)[..|r|][i] == c;
      }
    }
  }

  /** No direction flips more than six discs: the run is shorter than the ray. */
  lemma CapturedAtMostSix(g: Grid, own: Piece, p: Pos, d: Dir)
    requires IsDir(d) && OnBoard(p)
    ensures |Captured(g, own, p, d)| <= 6
  {
    RayLength(p, d);
    if Run(g, own, Step(p, d), d).Some? {
      RunShape(g, own, p, d);
    }
  }

  /** The run depends only on the cells of the ray it walks. */
  lemma {:induction false} RunFrame(g: Grid, h: Grid, own: Piece, p: Pos, d: Dir)
    requires IsDir(d)
    requires forall c :: c in Ray(p, d) ==> At(g, c) == At(h, c)
    ensures Run(g, own, Step(p, d), d) == Run(h, own, Step(p, d), d)
    decreases Reach(p, d)
  {
    var n := Step(p, d);
    if OnBoard(n) {
      assert n in Ray(p, d);
      assert Ray(p, d) == [n] + Ray(n, d);
      RunFrame(g, h, own, n, d);
    }
  }

  /** The scan and the run agree on whether a closing disc of colour `own` exists. */
  lemma {:induction false} FindOwnIsRun(g: Grid, own: Piece, q: Pos, d: Dir)
    requires IsDir(d) && OnBoard(q)
    ensures FindOwn(g, own, q, d) <==> Run(g, own, Step(q, d), d).Some?
    decreases Reach(q, d)
  {
    var n := Step(q, d);
    if OnBoard(n) && At(g, n) != Empty && At(g, n) != own {
      FindOwnIsRun(g, own, n, d);
    }
  }

  /** With no colour of its own (the "wait" turn) a run never closes. */
  lemma {:induction false} NoRunWithoutColour(g: Grid, n: Pos, d: Dir)
    requires IsDir(d)
    ensures Run(g, Empty, n, d) == None
    decreases Reach(n, d)
  {
    if OnBoard(n) && At(g, n) != Empty {
      NoRunWithoutColour(g, Step(n, d), d);
    }
  }

  // ---------------------------------------------------------------------
  // Legality (check_piece_around)
  // ---------------------------------------------------------------------

  /**
   * The per-direction test of check_piece_around: the neighbour in
   * direction d holds a disc that is neither empty nor `own`, and the scan
   * from it finds a disc of colour `own`.
   */
  predicate DirCaptures(g: Grid, own: Piece, p: Pos, d: Dir)
    requires IsDir(d)
  {
    var n := Step(p, d);
    OnBoard(n) && IsOpp(g, own, n) && FindOwn(g, own, n, d)
  }

  /** A direction passes the test exactly when reverse_piece would flip something in it. */
  lemma DirCapturesIffFlips(g: Grid, own: Piece, p: Pos, d: Dir)
    requires IsDir(d)
    ensures DirCaptures(g, own, p, d) <==> |Captured(g, own, p, d)| > 0
  {
    var n := Step(p, d);
    if OnBoard(n) && IsOpp(g, own, n) {
      FindOwnIsRun(g, own, n, d);
    }
  }

  /** Some direction among the first k passes the per-direction test, trying the directions in order. */
  predicate BracketsBefore(g: Grid, own: Piece, p: Pos, k: nat)
    requires k <= 8
  {
    k > 0 && (BracketsBefore(g, own, p, k - 1) || DirCaptures(g, own, p, Dirs[k - 1]))
  }

  /** Some direction from p passes the per-direction test (p's own cell is not looked at). */
  predicate Brackets(g: Grid, own: Piece, p: Pos)
  {
    BracketsBefore(g, own, p, 8)
  }

  /** Trying the first k directions in turn succeeds exactly when one of them passes. */
  lemma {:induction false} BracketsBeforeSome(g: Grid, own: Piece, p: Pos, k: nat)
    requires k <= 8
    ensures BracketsBefore(g, own, p, k) <==> exists j :: 0 <= j < k && DirCaptures(g, own, p, Dirs[j])
  {
    if k > 0 {
      BracketsBeforeSome(g, own, p, k - 1);
      if DirCaptures(g, own, p, Dirs[k - 1]) {
        assert 0 <= k - 1 < k && DirCaptures(g, own, p, Dirs[k - 1]);
      }
    }
  }

  /** One passing direction is enough. */
  lemma BracketsByDir(g: Grid, own: Piece, p: Pos, j: nat)
    requires j < 8 && DirCaptures(g, own, p, Dirs[j])
    ensures Brackets(g, own, p)
  {
    BracketsBeforeSome(g, own, p, 8);
  }

  /** p brackets exactly when some direction from p passes the test. */
  lemma BracketsSome(g: Grid, own: Piece, p: Pos)
    ensures Brackets(g, own, p) <==> exists j :: 0 <= j < 8 && DirCaptures(g, own, p, Dirs[j])
  {
    BracketsBeforeSome(g, own, p, 8);
  }

  /** A legal move: an empty cell that brackets in at least one direction. */
  predicate Legal(g: Grid, own: Piece, p: Pos)
  {
    OnBoard(p) && At(g, p) == Empty && Brackets(g, own, p)
  }

  /** Cells listed in strictly increasing index order (so without repeats). */
  predicate SortedCells(s: seq<Pos>) {
    (forall i :: 0 <= i < |s| ==> OnBoard(s[i])) &&
    forall i, j :: 0 <= i < j < |s| ==> OnBoard(s[i]) && OnBoard(s[j]) && Idx(s[i]) < Idx(s[j])
  }

  /**
   * The legal cells of index below k, in index order: the list the search
   * loops have built when they reach the k-th cell of "0_0", "0_1", ...,
   * "7_7".
   */
  function LegalBefore(g: Grid, own: Piece, k: nat): (cells: seq<Pos>)
    requires k <= 64
    ensures forall c :: c in cells ==> OnBoard(c)
  {
    if k == 0 then []
    else
      var c := Pos((k - 1) / 8, (k - 1) % 8);
      LegalBefore(g, own, k - 1) + (if Legal(g, own, c) then [c] else [])
  }

  /** LegalBefore holds exactly the legal cells of index below k, in increasing index order. */
  lemma {:induction false} LegalBeforeSpec(g: Grid, own: Piece, k: nat)
    requires k <= 64
    ensures forall c :: c in LegalBefore(g, own, k) <==> OnBoard(c) && Idx(c) < k && Legal(g, own, c)
    ensures SortedCells(LegalBefore(g, own, k))
  {
    if k > 0 {
      LegalBeforeSpec(g, own, k - 1);
      LegalBeforeStep(g, own, k);
    }
  }

  lemma LegalBeforeStep(g: Grid, own: Piece, k: nat)
    requires 0 < k <= 64
    requires forall c :: c in LegalBefore(g, own, k - 1) <==> OnBoard(c) && Idx(c) < k - 1 && Legal(g, own, c)
    requires SortedCells(LegalBefore(g, own, k - 1))
    ensures forall c :: c in LegalBefore(g, own, k) <==> OnBoard(c) && Idx(c) < k && Legal(g, own, c)
    ensures SortedCells(LegalBefore(g, own, k))
  {
    var c := Pos((k - 1) / 8, (k - 1) % 8);
    assert OnBoard(c) && Idx(c) == k - 1;
    var pre := LegalBefore(g, own, k - 1);
    forall d | OnBoard(d) && Idx(d) == k - 1 ensures d == c {
      IdxInjective(d, c);
    }
    if Legal(g, own, c) {
      assert LegalBefore(g, own, k) == pre + [c];
      SortedSnoc(pre, c);
    } else {
      assert LegalBefore(g, own, k) == pre;
    }
  }

  /** A cell after every cell of a sorted list extends it. */
  lemma SortedSnoc(s: seq<Pos>, c: Pos)
    requires SortedCells(s) && OnBoard(c)
    requires forall d :: d in s ==> Idx(d) < Idx(c)
    ensures SortedCells(s + [c])
  {
    var t := s + [c];
    forall i, j | 0 <= i < j < |t| ensures OnBoard(t[i]) && OnBoard(t[j]) && Idx(t[i]) < Idx(t[j]) {
      if j == |s| {
        assert t[i] in s;
      }
    }
  }

  /** All legal cells, in the order the board enumerates its tags. */
  function LegalCells(g: Grid, own: Piece): (cells: seq<Pos>)
    ensures forall c :: c in cells ==> OnBoard(c)
  {
    LegalBefore(g, own, |g|)
  }

  /** LegalCells lists every legal cell and nothing else, in increasing index order, without repeats. */
  lemma LegalCellsSpec(g: Grid, own: Piece)
    ensures forall c :: c in LegalCells(g, own) <==> OnBoard(c) && Legal(g, own, c)
    ensures SortedCells(LegalCells(g, own))
    ensures forall i, j :: 0 <= i < j < |LegalCells(g, own)| ==> LegalCells(g, own)[i] != LegalCells(g, own)[j]
  {
    LegalBeforeSpec(g, own, |g|);
  }

  // ---------------------------------------------------------------------
  // Playing a move (dohit then reverse_piece)
  // ---------------------------------------------------------------------

  /**
   * reverse_piece on directions 0..k-1: each direction scans the board as
   * the previous directions left it and flips its run in place.
   */
  function ReverseDirs(g: Grid, own: Piece, p: Pos, k: nat): Grid
    requires k <= 8
  {
    if k == 0 then g
    else
      var h := ReverseDirs(g, own, p, k - 1);
      SetAll(h, Captured(h, own, p, Dirs[k - 1]), own)
  }

  /** Reference reading: q lies in the run of some direction, all runs read off the board before any flip. */
  predicate Flipped(g: Grid, own: Piece, p: Pos, q: Pos)
  {
    exists j :: 0 <= j < 8 && q in Captured(g, own, p, Dirs[j])
  }

  /** The length of the run flipped in direction k, as reverse_piece counts it on the board it sees. */
  function RunLength(g: Grid, own: Piece, p: Pos, k: nat): nat
    requires k < 8
  {
    |Captured(ReverseDirs(g, own, p, k), own, p, Dirs[k])|
  }

  function Max(a: int, b: int): int { if a >= b then a else b }

  /** The longest run among directions 0..k-1. */
  function LongestRun(g: Grid, own: Piece, p: Pos, k: nat): nat
    requires k <= 8
  {
    if k == 0 then 0 else Max(LongestRun(g, own, p, k - 1), RunLength(g, own, p, k - 1))
  }

  /** Directions at or after k still see the original board on their rays. */
  lemma {:induction false} LaterRunsUnchanged(g: Grid, own: Piece, p: Pos, k: nat, j: nat)
    requires k <= j < 8
    ensures Captured(ReverseDirs(g, own, p, k), own, p, Dirs[j]) == Captured(g, own, p, Dirs[j])
    decreases k, 1
  {
    var h := ReverseDirs(g, own, p, k);
    forall c | c in Ray(p, Dirs[j]) ensures At(h, c) == At(g, c) {
      ReverseDirsAt(g, own, p, k, c);
      NotInEarlierRuns(g, own, p, k, j, c);
    }
    RunFrame(h, g, own, p, Dirs[j]);
  }

  /** q lies in the run, read off the original board, of one of the first k directions. */
  predicate InRunsBefore(g: Grid, own: Piece, p: Pos, q: Pos, k: nat)
    requires k <= 8
  {
    k > 0 && (InRunsBefore(g, own, p, q, k - 1) || q in Captured(g, own, p, Dirs[k - 1]))
  }

  lemma {:induction false} InRunsBeforeSome(g: Grid, own: Piece, p: Pos, q: Pos, k: nat)
    requires k <= 8
    ensures InRunsBefore(g, own, p, q, k) <==> exists i :: 0 <= i < k && q in Captured(g, own, p, Dirs[i])
  {
    if k > 0 {
      InRunsBeforeSome(g, own, p, q, k - 1);
      if q in Captured(g, own, p, Dirs[k - 1]) {
        assert 0 <= k - 1 < k && q in Captured(g, own, p, Dirs[k - 1]);
      }
    }
  }

  /** A cell on the ray of direction j lies in no run of an earlier direction. */
  lemma {:induction false} NotInEarlierRuns(g: Grid, own: Piece, p: Pos, k: nat, j: nat, c: Pos)
    requires k <= j < 8 && c in Ray(p, Dirs[j])
    ensures !InRunsBefore(g, own, p, c, k)
  {
    if k > 0 {
      NotInEarlierRuns(g, own, p, k - 1, j, c);
      CapturedInRay(g, own, p, Dirs[k - 1]);
      DirsAreDirs();
      RaysDisjoint(p, Dirs[k - 1], Dirs[j], c);
    }
  }

  /** After k directions a cell holds `own` exactly when it lies in one of their runs on the original board. */
  lemma {:induction false} ReverseDirsAt(g: Grid, own: Piece, p: Pos, k: nat, q: Pos)
    requires k <= 8 && OnBoard(q)
    ensures At(ReverseDirs(g, own, p, k), q) == if InRunsBefore(g, own, p, q, k) then own else At(g, q)
    decreases k, 0
  {
    if k > 0 {
      var h := ReverseDirs(g, own, p, k - 1);
      LaterRunsUnchanged(g, own, p, k - 1, k - 1);
      SetAllAt(h, Captured(h, own, p, Dirs[k - 1]), own, q);
      ReverseDirsAt(g, own, p, k - 1, q);
    }
  }

  /** Flipping direction by direction in place gives the same board as flipping all runs at once. */
  lemma ReverseIsBatch(g: Grid, own: Piece, p: Pos, q: Pos)
    requires OnBoard(q)
    ensures At(ReverseDirs(g, own, p, 8), q) == if Flipped(g, own, p, q) then own else At(g, q)
  {
    ReverseDirsAt(g, own, p, 8, q);
    InRunsBeforeSome(g, own, p, q, 8);
  }

  /** The longest of the first k runs, all read off the original board. */
  function BatchLongest(g: Grid, own: Piece, p: Pos, k: nat): nat
    requires k <= 8
  {
    if k == 0 then 0 else Max(BatchLongest(g, own, p, k - 1), |Captured(g, own, p, Dirs[k - 1])|)
  }

  /** Counting run by run on the board as it is being flipped gives the batch count. */
  lemma {:induction false} LongestRunEq(g: Grid, own: Piece, p: Pos, k: nat)
    requires k <= 8
    ensures LongestRun(g, own, p, k) == BatchLongest(g, own, p, k)
  {
    if k > 0 {
      LongestRunEq(g, own, p, k - 1);
      LaterRunsUnchanged(g, own, p, k - 1, k - 1);
    }
  }

  lemma {:induction false} BatchLongestBounds(g: Grid, own: Piece, p: Pos, k: nat)
    requires k <= 8 && OnBoard(p)
    ensures forall j :: 0 <= j < k ==> |Captured(g, own, p, Dirs[j])| <= BatchLongest(g, own, p, k)
    ensures k > 0 ==> exists j :: 0 <= j < k && BatchLongest(g, own, p, k) == |Captured(g, own, p, Dirs[j])|
    ensures BatchLongest(g, own, p, k) <= 6
  {
    if k > 0 {
      BatchLongestBounds(g, own, p, k - 1);
      CapturedAtMostSix(g, own, p, Dirs[k - 1]);
      var m, r := BatchLongest(g, own, p, k - 1), |Captured(g, own, p, Dirs[k - 1])|;
      assert BatchLongest(g, own, p, k) == Max(m, r);
      forall j | 0 <= j < k ensures |Captured(g, own, p, Dirs[j])| <= BatchLongest(g, own, p, k) {
        if j < k - 1 {
          assert |Captured(g, own, p, Dirs[j])| <= m;
        }
      }
      if r < m {
        var j :| 0 <= j < k - 1 && m == |Captured(g, own, p, Dirs[j])|;
        assert BatchLongest(g, own, p, k) == |Captured(g, own, p, Dirs[j])|;
      }
    }
  }

  /** The longest run is the longest of the runs read off the original board, and at most six. */
  lemma LongestRunIsBatch(g: Grid, own: Piece, p: Pos, k: nat)
    requires k <= 8 && OnBoard(p)
    ensures forall j :: 0 <= j < k ==> |Captured(g, own, p, Dirs[j])| <= LongestRun(g, own, p, k)
    ensures k > 0 ==> exists j :: 0 <= j < k && LongestRun(g, own, p, k) == |Captured(g, own, p, Dirs[j])|
    ensures LongestRun(g, own, p, k) <= 6
  {
    LongestRunEq(g, own, p, k);
    BatchLongestBounds(g, own, p, k);
  }

  /** dohit writes the turn's colour on p, then reverse_piece flips with the turn's colour. */
  function ApplyMove(g: Grid, t: Turn, p: Pos): Grid
    requires OnBoard(p)
  {
    ReverseDirs(Set(g, p, PlacedPiece(t)), OwnPiece(t), p, 8)
  }

  /** Writing p does not change any run from p, since no ray from p contains p. */
  lemma PlacementKeepsRuns(g: Grid, own: Piece, p: Pos, v: Piece, d: Dir)
    requires OnBoard(p) && IsDir(d)
    ensures Captured(Set(g, p, v), own, p, d) == Captured(g, own, p, d)
  {
    RayExcludesOrigin(p, d);
    forall c | c in Ray(p, d) ensures At(Set(g, p, v), c) == At(g, c) {
      SetAt(g, p, v, c);
    }
    RunFrame(Set(g, p, v), g, own, p, d);
  }

  /**
   * The effect of a move: p gets the turn's colour, every cell in a closed
   * run of the original board gets the turn's colour, and nothing else
   * changes.
   */
  lemma MoveEffect(g: Grid, t: Turn, p: Pos, q: Pos)
    requires OnBoard(p) && OnBoard(q)
    ensures At(ApplyMove(g, t, p), q)
            == if q == p then PlacedPiece(t)
               else if Flipped(g, OwnPiece(t), p, q) then OwnPiece(t)
               else At(g, q)
  {
    var own := OwnPiece(t);
    var g1 := Set(g, p, PlacedPiece(t));
    ReverseIsBatch(g1, own, p, q);
    DirsAreDirs();
    forall j | 0 <= j < 8 ensures Captured(g1, own, p, Dirs[j]) == Captured(g, own, p, Dirs[j]) {
      PlacementKeepsRuns(g, own, p, PlacedPiece(t), Dirs[j]);
    }
    if q == p {
      forall j | 0 <= j < 8 ensures p !in Captured(g, own, p, Dirs[j]) {
        CapturedInRay(g, own, p, Dirs[j]);
        RayExcludesOrigin(p, Dirs[j]);
      }
    }
  }

  /** Only opponent discs are ever flipped. */
  lemma FlippedAreOpponents(g: Grid, own: Piece, p: Pos, q: Pos)
    requires OnBoard(q) && Flipped(g, own, p, q)
    ensures IsOpp(g, own, q)
  {
    var j :| 0 <= j < 8 && q in Captured(g, own, p, Dirs[j]);
    DirsAreDirs();
    CapturedInRay(g, own, p, Dirs[j]);
  }

  /** A move by the "wait" turn flips nothing. */
  lemma WaitFlipsNothing(g: Grid, p: Pos, q: Pos)
    ensures !Flipped(g, OwnPiece(Wait), p, q)
  {
    DirsAreDirs();
    forall j | 0 <= j < 8 ensures Captured(g, Empty, p, Dirs[j]) == [] {
      NoRunWithoutColour(g, Step(p, Dirs[j]), Dirs[j]);
    }
  }

  /** A move on an empty cell fills exactly one empty cell; flips never create or remove empties. */
  lemma MoveFillsOneCell(g: Grid, t: Turn, p: Pos)
    requires OnBoard(p) && At(g, p) == Empty
    ensures Count(ApplyMove(g, t, p), Empty) == Count(g, Empty) - 1
  {
    var h := ApplyMove(g, t, p);
    forall i | 0 <= i < 64 && i != Idx(p) ensures (g[i] == Empty <==> h[i] == Empty) {
      MoveKeepsEmptiness(g, t, p, PosOf(i));
    }
    MoveEffect(g, t, p, p);
    CountDropOne(g, h, Empty, Idx(p));
  }

  lemma MoveKeepsEmptiness(g: Grid, t: Turn, p: Pos, q: Pos)
    requires OnBoard(p) && OnBoard(q) && q != p
    ensures At(g, q) == Empty <==> At(ApplyMove(g, t, p), q) == Empty
  {
    MoveEffect(g, t, p, q);
    if t == Wait {
      WaitFlipsNothing(g, p, q);
    } else if Flipped(g, OwnPiece(t), p, q) {
      FlippedAreOpponents(g, OwnPiece(t), p, q);
    }
  }

  /**
   * On an empty cell, the move is legal exactly when playing it changes
   * some cell other than p: legality is the same thing as flipping.
   */
  lemma LegalIffFlips(g: Grid, t: Turn, p: Pos)
    requires OnBoard(p) && At(g, p) == Empty && t != Wait
    ensures Legal(g, OwnPiece(t), p)
            <==> exists q :: OnBoard(q) && q != p && At(ApplyMove(g, t, p), q) != At(g, q)
  {
    var own := OwnPiece(t);
    DirsAreDirs();
    BracketsSome(g, own, p);
    if Legal(g, own, p) {
      var j :| 0 <= j < 8 && DirCaptures(g, own, p, Dirs[j]);
      DirCapturesIffFlips(g, own, p, Dirs[j]);
      var q := Captured(g, own, p, Dirs[j])[0];
      CapturedInRay(g, own, p, Dirs[j]);
      RayExcludesOrigin(p, Dirs[j]);
      MoveEffect(g, t, p, q);
      assert At(ApplyMove(g, t, p), q) != At(g, q);
    }
    if exists q :: OnBoard(q) && q != p && At(ApplyMove(g, t, p), q) != At(g, q) {
      var q :| OnBoard(q) && q != p && At(ApplyMove(g, t, p), q) != At(g, q);
      MoveEffect(g, t, p, q);
      var j :| 0 <= j < 8 && q in Captured(g, own, p, Dirs[j]);
      DirCapturesIffFlips(g, own, p, Dirs[j]);
    }
  }
}
