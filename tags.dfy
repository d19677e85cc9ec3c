/**
 * Cell tags.  The view names cell (x, y) by the string f"{x}_{y}"; the board
 * code turns a tag back into its integers with `map(int, tag.split("_"))`, and
 * `tag_to_coord.get(tag)` answers None for any string that is not one of the
 * 64 tags.  Both directions are modelled on the abstract cell `Pos`.
 */
module Tags {
  import opened BoardModel

  predicate IsDigit(c: char) { '0' <= c <= '9' }

  function DigitChar(n: nat): (c: char)
    requires n < 10
    ensures IsDigit(c)
  {
    (('0' as int) + n) as char
  }

  function DigitValue(c: char): (n: nat)
    requires IsDigit(c)
    ensures n < 10
  {
    (c as int) - ('0' as int)
  }

  /** `int` of a digit character is the inverse of printing it. */
  lemma DigitValueChar(c: char)
    requires IsDigit(c)
    ensures DigitChar(DigitValue(c)) == c
  {
  }

  /** The tag string f"{x}_{y}" of an on-board cell. */
  function TagOf(p: Pos): (t: string)
    requires OnBoard(p)
    ensures |t| == 3 && t[1] == '_'
  {
    [DigitChar(p.x), '_', DigitChar(p.y)]
  }

  /** `tag_to_coord.get(tag)`: the cell a tag names, or None for any other string. */
  function ParseTag(t: string): (r: Option<Pos>)
    ensures r.Some? ==> OnBoard(r.value)
  {
    if |t| == 3 && t[1] == '_' && '0' <= t[0] <= '7' && '0' <= t[2] <= '7'
    then Some(Pos(DigitValue(t[0]), DigitValue(t[2])))
    else None
  }

  /** Tags and cells are in bijection: a string parses to a cell exactly when it is that cell's tag. */
  lemma TagRoundTrip(t: string, p: Pos)
    ensures ParseTag(t) == Some(p) <==> OnBoard(p) && t == TagOf(p)
  {
    if |t| == 3 && '0' <= t[0] <= '7' && '0' <= t[2] <= '7' {
      DigitValueChar(t[0]);
      DigitValueChar(t[2]);
    }
    if OnBoard(p) && t == TagOf(p) {
      assert DigitValue(t[0]) == p.x by { DigitCharInjective(DigitValue(t[0]), p.x); }
      assert DigitValue(t[2]) == p.y by { DigitCharInjective(DigitValue(t[2]), p.y); }
    }
    if ParseTag(t) == Some(p) {
      assert t == [t[0], t[1], t[2]];
    }
  }

  lemma DigitCharInjective(m: nat, n: nat)
    requires m < 10 && n < 10
    ensures DigitChar(m) == DigitChar(n) <==> m == n
  {
  }

  lemma TagOfInjective(p: Pos, q: Pos)
    requires OnBoard(p) && OnBoard(q)
    ensures TagOf(p) == TagOf(q) <==> p == q
  {
    TagRoundTrip(TagOf(p), p);
    TagRoundTrip(TagOf(p), q);
  }

  /** Decimal digits of a natural number, as f"{n}" prints it. */
  function NatToString(n: nat): (s: string)
    ensures |s| >= 1
    ensures forall i :: 0 <= i < |s| ==> IsDigit(s[i])
  {
    if n < 10 then [DigitChar(n)] else NatToString(n / 10) + [DigitChar(n % 10)]
  }
}
