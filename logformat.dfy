/**
 * The play log as text: the line update_log_display writes for each move,
 * the pattern start_replay searches each line of a saved log with
 * (`が (\d{1,2}_\d{1,2}) に配置`, first match, group 1), and the proof that
 * reading a log back yields the tags of the moves that wrote it.
 */
module LogFormat {
  import opened BoardModel
  import opened Tags
  import opened Boards

  /** The player label of a log line: "黒(先)" for the first player, "白(後)" otherwise. */
  function Label(t: Turn): (s: string)
    ensures |s| == 4 && 'が' !in s
  {
    if t == First then "黒(先)" else "白(後)"
  }

  /** The three inserts of update_log_display, as one line of the log. */
  function LogLine(e: LogEntry): string
    requires OnBoard(e.pos)
  {
    NatToString(e.count) + ": " + Label(e.turn) + "が " + TagOf(e.pos) + " に配置\n"
  }

  /** The literal text that must follow the captured group. */
  const Suffix: string := " に配置"

  /**
   * `\d` in a str pattern: a Unicode decimal digit, that is, a character of
   * general category Nd (Unicode 15.0): 680 code points in 64 runs.
   */
  predicate IsDecimalDigit(c: char)
  {
    var n := c as int;
    (0x30 <= n <= 0x39) || (0x660 <= n <= 0x669) || (0x6F0 <= n <= 0x6F9) ||
    (0x7C0 <= n <= 0x7C9) || (0x966 <= n <= 0x96F) || (0x9E6 <= n <= 0x9EF) ||
    (0xA66 <= n <= 0xA6F) || (0xAE6 <= n <= 0xAEF) || (0xB66 <= n <= 0xB6F) ||
    (0xBE6 <= n <= 0xBEF) || (0xC66 <= n <= 0xC6F) || (0xCE6 <= n <= 0xCEF) ||
    (0xD66 <= n <= 0xD6F) || (0xDE6 <= n <= 0xDEF) || (0xE50 <= n <= 0xE59) ||
    (0xED0 <= n <= 0xED9) || (0xF20 <= n <= 0xF29) || (0x1040 <= n <= 0x1049) ||
    (0x1090 <= n <= 0x1099) || (0x17E0 <= n <= 0x17E9) || (0x1810 <= n <= 0x1819) ||
    (0x1946 <= n <= 0x194F) || (0x19D0 <= n <= 0x19D9) || (0x1A80 <= n <= 0x1A89) ||
    (0x1A90 <= n <= 0x1A99) || (0x1B50 <= n <= 0x1B59) || (0x1BB0 <= n <= 0x1BB9) ||
    (0x1C40 <= n <= 0x1C49) || (0x1C50 <= n <= 0x1C59) || (0xA620 <= n <= 0xA629) ||
    (0xA8D0 <= n <= 0xA8D9) || (0xA900 <= n <= 0xA909) || (0xA9D0 <= n <= 0xA9D9) ||
    (0xA9F0 <= n <= 0xA9F9) || (0xAA50 <= n <= 0xAA59) || (0xABF0 <= n <= 0xABF9) ||
    (0xFF10 <= n <= 0xFF19) || (0x104A0 <= n <= 0x104A9) || (0x10D30 <= n <= 0x10D39) ||
    (0x11066 <= n <= 0x1106F) || (0x110F0 <= n <= 0x110F9) || (0x11136 <= n <= 0x1113F) ||
    (0x111D0 <= n <= 0x111D9) || (0x112F0 <= n <= 0x112F9) || (0x11450 <= n <= 0x11459) ||
    (0x114D0 <= n <= 0x114D9) || (0x11650 <= n <= 0x11659) || (0x116C0 <= n <= 0x116C9) ||
    (0x11730 <= n <= 0x11739) || (0x118E0 <= n <= 0x118E9) || (0x11950 <= n <= 0x11959) ||
    (0x11C50 <= n <= 0x11C59) || (0x11D50 <= n <= 0x11D59) || (0x11DA0 <= n <= 0x11DA9) ||
    (0x11F50 <= n <= 0x11F59) || (0x16A60 <= n <= 0x16A69) || (0x16AC0 <= n <= 0x16AC9) ||
    (0x16B50 <= n <= 0x16B59) || (0x1D7CE <= n <= 0x1D7FF) || (0x1E140 <= n <= 0x1E149) ||
    (0x1E2F0 <= n <= 0x1E2F9) || (0x1E4F0 <= n <= 0x1E4F9) || (0x1E950 <= n <= 0x1E959) ||
    (0x1FBF0 <= n <= 0x1FBF9)
  }

  /** s holds n characters `\d` matches from position i on. */
  predicate DigitsAt(s: string, i: nat, n: nat) {
    i + n <= |s| && forall k :: i <= k < i + n ==> IsDecimalDigit(s[k])
  }

  predicate SuffixAt(s: string, i: nat) {
    i + |Suffix| <= |s| && s[i..i + |Suffix|] == Suffix
  }

  /**
   * The second `\d{1,2}` and the suffix, the group having started at j and
   * the second number at k: two digits are tried first, then one.
   */
  function MatchSecond(s: string, j: nat, k: nat): (r: Option<string>)
    requires j <= k
    ensures r.Some? ==> exists n :: 1 <= n <= 2 && DigitsAt(s, k, n) && SuffixAt(s, k + n) && r.value == s[j..k + n]
  {
    var two := if DigitsAt(s, k, 2) && SuffixAt(s, k + 2) then Some(s[j..k + 2]) else None;
    if two.Some? then two
    else if DigitsAt(s, k, 1) && SuffixAt(s, k + 1) then Some(s[j..k + 1])
    else None
  }

  /**
   * The group `\d{1,2}_\d{1,2}` and the suffix from position j, with the
   * backtracking of the greedy first number: two digits, and when the rest
   * fails, one.
   */
  function MatchGroup(s: string, j: nat): (r: Option<string>)
  {
    var two := if DigitsAt(s, j, 2) && j + 2 < |s| && s[j + 2] == '_' then MatchSecond(s, j, j + 3) else None;
    if two.Some? then two
    else if DigitsAt(s, j, 1) && j + 1 < |s| && s[j + 1] == '_' then MatchSecond(s, j, j + 2)
    else None
  }

  /** The pattern anchored at position i; the result is group 1. */
  function MatchAt(s: string, i: nat): (r: Option<string>)
    ensures r.Some? ==> i + 2 <= |s| && s[i] == 'が' && s[i + 1] == ' '
  {
    if i + 2 <= |s| && s[i] == 'が' && s[i + 1] == ' ' then MatchGroup(s, i + 2) else None
  }

  /** `re.search`: the leftmost position at or after i where the pattern matches. */
  function SearchFrom(s: string, i: nat): (r: Option<string>)
    decreases |s| - i
  {
    if i > |s| then None
    else match MatchAt(s, i)
      case Some(g) => Some(g)
      case None => SearchFrom(s, i + 1)
  }

  function SearchTag(line: string): Option<string> {
    SearchFrom(line, 0)
  }

  /** A match never starts on a character other than 'が', so the search skips such a stretch. */
  lemma {:induction false} SkipUnmarked(s: string, i: nat, m: nat)
    requires i <= m <= |s|
    requires forall k :: i <= k < m ==> s[k] != 'が'
    ensures SearchFrom(s, i) == SearchFrom(s, m)
    decreases m - i
  {
    if i < m {
      assert MatchAt(s, i) == None;
      SkipUnmarked(s, i + 1, m);
    }
  }

  /** A line without 'が' (a header, a result or a statistics line) yields no tag. */
  lemma NoMarkNoTag(line: string)
    requires 'が' !in line
    ensures SearchTag(line) == None
  {
    SkipUnmarked(line, 0, |line|);
    assert MatchAt(line, |line|) == None;
    assert SearchFrom(line, |line| + 1) == None;
  }

  /** The count and the label, before "が ", carry no 'が'. */
  lemma PrefixUnmarked(e: LogEntry)
    ensures 'が' !in NatToString(e.count) + ": " + Label(e.turn)
  {
    var n := NatToString(e.count);
    assert forall i :: 0 <= i < |n| ==> n[i] != 'が';
  }

  /** A tag "d_d" followed by the suffix is matched by the group, with the greedy first number backing off to one digit. */
  lemma GroupMatches(s: string, j: nat, t: string)
    requires |t| == 3 && IsDecimalDigit(t[0]) && t[1] == '_' && IsDecimalDigit(t[2])
    requires j + 7 <= |s| && s[j..j + 3] == t && s[j + 3..j + 7] == Suffix
    ensures MatchGroup(s, j) == Some(t)
  {
    assert s[j] == t[0] && s[j + 1] == '_' && s[j + 2] == t[2] && s[j + 3] == ' ';
    assert !DigitsAt(s, j, 2) && DigitsAt(s, j, 1);
    assert !DigitsAt(s, j + 2, 2) && DigitsAt(s, j + 2, 1);
    assert SuffixAt(s, j + 3);
  }

  /** A line made of an unmarked prefix, "が ", a tag and " に配置" yields that tag. */
  lemma MarkedLineTag(pre: string, tag: string)
    requires 'が' !in pre
    requires |tag| == 3 && IsDecimalDigit(tag[0]) && tag[1] == '_' && IsDecimalDigit(tag[2])
    ensures SearchTag(pre + ("が " + tag + " に配置\n")) == Some(tag)
  {
    var s := pre + ("が " + tag + " に配置\n");
    var m := |pre|;
    forall k | 0 <= k < m ensures s[k] != 'が' {
      assert s[k] == pre[k] && pre[k] in pre;
    }
    SkipUnmarked(s, 0, m);
    assert s[m] == 'が' && s[m + 1] == ' ';
    assert s[m + 2..m + 5] == tag && s[m + 5..m + 9] == Suffix;
    GroupMatches(s, m + 2, tag);
    assert MatchAt(s, m) == Some(tag);
  }

  /**
   * `\d` also matches the full-width digits: a line naming ２_４ yields that
   * tag, and `tag_to_coord.get` finds no cell for it.
   */
  lemma WideDigitTag(line: string)
    requires line == "1: 黒(先)が ２_４ に配置\n"
    ensures SearchTag(line) == Some("２_４")
    ensures ParseTag("２_４") == None
  {
    MarkedLineTag("1: 黒(先)", "２_４");
    assert line == "1: 黒(先)" + ("が " + "２_４" + " に配置\n");
  }

  /** Reading a log line back with the pattern recovers the tag of the move it records. */
  lemma LogLineTag(e: LogEntry)
    requires OnBoard(e.pos)
    ensures SearchTag(LogLine(e)) == Some(TagOf(e.pos))
  {
    var pre := NatToString(e.count) + ": " + Label(e.turn);
    var tag := TagOf(e.pos);
    assert LogLine(e) == pre + ("が " + tag + " に配置\n");
    PrefixUnmarked(e);
    MarkedLineTag(pre, tag);
  }

  /** The tags the replay loader collects from the lines of a log file, in order. */
  function MoveTags(lines: seq<string>): seq<string> {
    if lines == [] then []
    else
      var n := |lines| - 1;
      MoveTags(lines[..n]) + (match SearchTag(lines[n]) case Some(t) => [t] case None => [])
  }

  /** The `for line in f` loop of start_replay, collecting group 1 of every matching line. */
  method ExtractMoveTags(lines: seq<string>) returns (moveTags: seq<string>)
    ensures moveTags == MoveTags(lines)
  {
    moveTags := [];
    var i := 0;
    while i < |lines|
      invariant 0 <= i <= |lines|
      invariant moveTags == MoveTags(lines[..i])
    {
      var found := SearchTag(lines[i]);
      if found.Some? {
        moveTags := moveTags + [found.value];
      }
      assert lines[..i + 1][..i] == lines[..i];
      i := i + 1;
    }
    assert lines[..|lines|] == lines;
  }

  lemma {:induction false} MoveTagsAppend(a: seq<string>, b: seq<string>)
    ensures MoveTags(a + b) == MoveTags(a) + MoveTags(b)
    decreases |b|
  {
    if b != [] {
      var n := |b| - 1;
      assert (a + b)[..|a + b| - 1] == a + b[..n];
      MoveTagsAppend(a, b[..n]);
    } else {
      assert a + b == a;
    }
  }

  /** The log lines of a sequence of play_log entries, in order. */
  function LogLines(es: seq<LogEntry>): (lines: seq<string>)
    requires forall e :: e in es ==> OnBoard(e.pos)
    ensures |lines| == |es|
  {
    if es == [] then [] else LogLines(es[..|es| - 1]) + [LogLine(es[|es| - 1])]
  }

  /**
   * The round trip of the log: a saved log whose other lines carry no 'が'
   * replays exactly the cells of its entries, one tag per move, in order.
   */
  lemma {:induction false} LogRoundTrip(es: seq<LogEntry>)
    requires forall e :: e in es ==> OnBoard(e.pos)
    ensures |MoveTags(LogLines(es))| == |es|
    ensures forall i :: 0 <= i < |es| ==> MoveTags(LogLines(es))[i] == TagOf(es[i].pos)
  {
    if es != [] {
      var n := |es| - 1;
      LogRoundTrip(es[..n]);
      LogLineTag(es[n]);
      var lines := LogLines(es);
      assert lines[..n] == LogLines(es[..n]) && lines[n] == LogLine(es[n]);
      var prev := MoveTags(LogLines(es[..n]));
      assert MoveTags(lines) == prev + [TagOf(es[n].pos)];
      forall i | 0 <= i < n ensures MoveTags(lines)[i] == TagOf(es[i].pos) {
        assert es[..n][i] == es[i];
      }
    }
  }

  /** Lines without 'が' add no tags. */
  lemma {:induction false} UnmarkedLinesAddNothing(lines: seq<string>)
    requires forall l :: l in lines ==> 'が' !in l
    ensures MoveTags(lines) == []
    decreases |lines|
  {
    if lines != [] {
      var n := |lines| - 1;
      UnmarkedLinesAddNothing(lines[..n]);
      NoMarkNoTag(lines[n]);
    }
  }

  /**
   * A saved log is a header, the move lines and the result lines; when the
   * lines around the moves carry no 'が', the replay reads exactly the tags
   * of the move lines.
   */
  lemma SavedLogTags(header: seq<string>, es: seq<LogEntry>, footer: seq<string>)
    requires forall e :: e in es ==> OnBoard(e.pos)
    requires forall l :: l in header + footer ==> 'が' !in l
    ensures MoveTags(header + LogLines(es) + footer) == MoveTags(LogLines(es))
  {
    UnmarkedLinesAddNothing(header);
    UnmarkedLinesAddNothing(footer);
    MoveTagsAppend(header, LogLines(es));
    MoveTagsAppend(header + LogLines(es), footer);
  }
}
