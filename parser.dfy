/**
 * The line parser of the data-file format: the word scanner shared by
 * string_strdup_word and string_strdup_rest, string_count_words (as written
 * and as intended), the line classifier gxgraph_parse_string, the mark-name
 * lookup and the "low,hi" splitter used for command line ranges.
 *
 * Strings are the characters before the terminating NUL.
 */
module Parser {
  import opened GxTypes

  // Line types returned by gxgraph_parse_string (the enum of parser.h).
  const STRING_NOP: int := 0
  const STRING_DRAW: int := 1
  const STRING_COMMENT: int := 2
  const STRING_MOVE: int := 3
  const STRING_TEXT: int := 4
  const STRING_CHANGE_COLOR: int := 5
  const STRING_CHANGE_OUTLINE_COLOR: int := 6
  const STRING_CHANGE_LINE_WIDTH: int := 7
  const STRING_CHANGE_MARKS: int := 8
  const STRING_CHANGE_NO_LINE: int := 9
  const STRING_CHANGE_SCALE_MARKS: int := 10
  const STRING_CHANGE_MARK_SIZE: int := 11
  const STRING_CHANGE_TEXT_SIZE: int := 12
  const STRING_CHANGE_LINE: int := 13
  const STRING_CHANGE_NO_MARK: int := 14
  const STRING_CHANGE_POLYGON: int := 15
  const STRING_IMAGE_REFERENCE: int := 16
  const STRING_MARKS_REFERENCE: int := 17
  const STRING_LOW_CONTRAST: int := 18
  const STRING_PATH_NAME: int := 19
  const STRING_SET_NAME: int := 20
  const STRING_SET_XUNIT_TEXT: int := 21
  const STRING_SET_YUNIT_TEXT: int := 22
  const STRING_SET_LARGE_PIXELS: int := 23
  const STRING_SET_TITLE: int := 24

  /** The blanks every scanner of this module skips: space, newline and tab. */
  predicate IsSpace(c: char) {
    c == ' ' || c == '\n' || c == '\t'
  }

  // ---------------------------------------------------------------------
  // Words: the reference meaning of "the idx-th word of a line"
  // ---------------------------------------------------------------------

  /** The first non-blank position at or after i (or the end). */
  function SkipSpace(s: string, i: nat): (j: nat)
    requires i <= |s|
    ensures i <= j <= |s| && (j == |s| || !IsSpace(s[j]))
    ensures forall k :: i <= k < j ==> IsSpace(s[k])
    decreases |s| - i
  {
    if i == |s| || !IsSpace(s[i]) then i else SkipSpace(s, i + 1)
  }

  /** The first blank position at or after i (or the end). */
  function RunEnd(s: string, i: nat): (j: nat)
    requires i <= |s|
    ensures i <= j <= |s| && (j == |s| || IsSpace(s[j]))
    ensures forall k :: i <= k < j ==> !IsSpace(s[k])
    decreases |s| - i
  {
    if i == |s| || IsSpace(s[i]) then i else RunEnd(s, i + 1)
  }

  /** The maximal runs of non-blank characters of s[i..], in order. */
  function WordsFrom(s: string, i: nat): seq<string>
    requires i <= |s|
    decreases |s| - i
  {
    var j := SkipSpace(s, i);
    if j == |s| then [] else [s[j..RunEnd(s, j)]] + WordsFrom(s, RunEnd(s, j))
  }

  function Words(s: string): seq<string> {
    WordsFrom(s, 0)
  }

  /** Every word is non-empty and holds no blank. */
  lemma {:induction false} WordsAreRuns(s: string, i: nat)
    requires i <= |s|
    ensures forall w :: w in WordsFrom(s, i) ==> |w| > 0 && forall k :: 0 <= k < |w| ==> !IsSpace(w[k])
    decreases |s| - i
  {
    var j := SkipSpace(s, i);
    if j < |s| {
      var e := RunEnd(s, j);
      WordsAreRuns(s, e);
      var w := s[j..e];
      forall k | 0 <= k < |w| ensures !IsSpace(w[k]) {
        assert w[k] == s[j + k];
      }
    }
  }

  /** A blank adds no word. */
  lemma WordsFromSpace(s: string, i: nat)
    requires i < |s| && IsSpace(s[i])
    ensures WordsFrom(s, i) == WordsFrom(s, i + 1)
  {
    assert SkipSpace(s, i) == SkipSpace(s, i + 1);
  }

  // ---------------------------------------------------------------------
  // The scan of string_strdup_word / string_strdup_rest
  // ---------------------------------------------------------------------

  /** Where the scan stopped, whether it was inside a word, and where that word began. */
  datatype Scan = Scan(stop: nat, inWord: bool, start: nat)

  /**
   * The scan loop from position i: count is the index of the current word
   * (word_count), start its first position (word_start).
   */
  function ScanFrom(s: string, idx: int, i: nat, inWord: bool, count: int, start: nat): (r: Scan)
    requires i <= |s| && (inWord ==> start <= i)
    ensures r.stop <= |s| && (r.inWord ==> r.start <= r.stop)
    decreases |s| - i
  {
    if i == |s| then Scan(i, inWord, start)
    else if !inWord then
      if !IsSpace(s[i]) then ScanFrom(s, idx, i + 1, true, count + 1, i)
      else ScanFrom(s, idx, i + 1, false, count, start)
    else if IsSpace(s[i]) then
      if idx == count then Scan(i, true, start)
      else ScanFrom(s, idx, i + 1, false, count, start)
    else ScanFrom(s, idx, i + 1, true, count, start)
  }

  function ScanLine(s: string, idx: int): (r: Scan)
    ensures r.stop <= |s| && (r.inWord ==> r.start <= r.stop)
  {
    ScanFrom(s, idx, 0, false, -1, 0)
  }

  /** What string_strdup_word returns: None for NULL. */
  function WordAt(s: string, idx: int): Option<string> {
    var r := ScanLine(s, idx);
    if r.inWord then Some(s[r.start..r.stop]) else None
  }

  /** What string_strdup_rest returns: from the start of the word to the end of the line. */
  function RestAt(s: string, idx: int): Option<string> {
    var r := ScanLine(s, idx);
    if r.inWord then Some(s[r.start..]) else None
  }

  /** The scan loop both string_strdup_word and string_strdup_rest run. */
  method ScanWords(s: string, idx: int) returns (inWord: bool, wordStart: nat, nchr: int)
    ensures ScanLine(s, idx).inWord == inWord
    ensures inWord ==> ScanLine(s, idx).start == wordStart && ScanLine(s, idx).stop == wordStart + nchr - 1
  {
    var p := 0;
    inWord := false;
    var wordCount := -1;
    nchr := 1;
    wordStart := 0;
    while p < |s|
      invariant p <= |s| && (inWord ==> wordStart <= p)
      invariant inWord ==> nchr == p - wordStart + 1
      invariant ScanFrom(s, idx, p, inWord, wordCount, wordStart) == ScanLine(s, idx)
    {
      if !inWord {
        if !IsSpace(s[p]) {
          inWord := true;
          wordCount := wordCount + 1;
          nchr := 1;
          wordStart := p;
        }
      } else {
        if IsSpace(s[p]) {
          if idx == wordCount {
            break;
          }
          inWord := false;
        }
      }
      nchr := nchr + 1;
      p := p + 1;
    }
  }

  /** string_strdup_word: the idx-th word, or None (NULL). */
  method StrdupWord(s: string, idx: int) returns (word: Option<string>)
    ensures word == WordAt(s, idx)
    ensures 0 <= idx < |Words(s)| ==> word == Some(Words(s)[idx])
  {
    var inWord, wordStart, nchr := ScanWords(s, idx);
    if inWord {
      word := Some(s[wordStart..wordStart + nchr - 1]);
    } else {
      word := None;
    }
    if 0 <= idx < |Words(s)| {
      WordAtIsWord(s, idx);
    }
  }

  /** string_strdup_rest: the line from the start of the idx-th word on, or None (NULL). */
  method StrdupRest(s: string, idx: int) returns (rest: Option<string>)
    ensures rest == RestAt(s, idx)
  {
    var inWord, wordStart, nchr := ScanWords(s, idx);
    if inWord {
      rest := Some(s[wordStart..]);
    } else {
      rest := None;
    }
  }

  /**
   * The two scanners agree: both are NULL together, the word is a prefix of
   * the rest, and the rest is a suffix of the line.
   */
  lemma WordAndRestAgree(s: string, idx: int)
    ensures WordAt(s, idx).None? <==> RestAt(s, idx).None?
    ensures WordAt(s, idx).Some? ==>
      var w, r := WordAt(s, idx).value, RestAt(s, idx).value;
      |w| <= |r| <= |s| && r[..|w|] == w && s[|s| - |r|..] == r
  {
    var sc := ScanLine(s, idx);
    if sc.inWord {
      assert s[sc.start..][..sc.stop - sc.start] == s[sc.start..sc.stop];
      assert s[|s| - (|s| - sc.start)..] == s[sc.start..];
    }
  }

  /** Scanning blanks outside a word changes nothing. */
  lemma {:induction false} ScanSkip(s: string, idx: int, i: nat, count: int, start: nat)
    requires i <= |s|
    ensures ScanFrom(s, idx, i, false, count, start) == ScanFrom(s, idx, SkipSpace(s, i), false, count, start)
    decreases |s| - i
  {
    if i < |s| && IsSpace(s[i]) {
      ScanSkip(s, idx, i + 1, count, start);
    }
  }

  /** Scanning the inside of a word only moves forward to its end. */
  lemma {:induction false} ScanRun(s: string, idx: int, i: nat, count: int, start: nat)
    requires start <= i <= |s|
    ensures ScanFrom(s, idx, i, true, count, start) == ScanFrom(s, idx, RunEnd(s, i), true, count, start)
    decreases |s| - i
  {
    if i < |s| && !IsSpace(s[i]) {
      ScanRun(s, idx, i + 1, count, start);
    }
  }

  /**
   * Outside a word, with count words already passed, the scan for word idx
   * finds word idx - count - 1 of the rest of the line.
   */
  lemma {:induction false} ScanFindsWord(s: string, idx: int, i: nat, count: int, start: nat)
    requires i <= |s| && count < idx && idx - count - 1 < |WordsFrom(s, i)|
    ensures var r := ScanFrom(s, idx, i, false, count, start);
      r.inWord && s[r.start..r.stop] == WordsFrom(s, i)[idx - count - 1]
    decreases |s| - i, 1
  {
    var j := SkipSpace(s, i);
    ScanSkip(s, idx, i, count, start);
    assert WordsFrom(s, i) == WordsFrom(s, j) by {
      assert SkipSpace(s, j) == j;
    }
    ScanFindsWordAt(s, idx, j, count, start);
  }

  /** The same, from the first character of a word. */
  lemma {:induction false} ScanFindsWordAt(s: string, idx: int, j: nat, count: int, start: nat)
    requires j <= |s| && (j == |s| || !IsSpace(s[j])) && count < idx && idx - count - 1 < |WordsFrom(s, j)|
    ensures var r := ScanFrom(s, idx, j, false, count, start);
      r.inWord && s[r.start..r.stop] == WordsFrom(s, j)[idx - count - 1]
    decreases |s| - j, 0
  {
    assert SkipSpace(s, j) == j;
    var e := RunEnd(s, j);
    assert WordsFrom(s, j) == [s[j..e]] + WordsFrom(s, e);
    assert ScanFrom(s, idx, j, false, count, start) == ScanFrom(s, idx, j + 1, true, count + 1, j);
    ScanRun(s, idx, j + 1, count + 1, j);
    assert RunEnd(s, j + 1) == e;
    if idx == count + 1 {
      ScanStopsAtBlank(s, idx, e, j);
    } else if e < |s| {
      assert ScanFrom(s, idx, e, true, count + 1, j) == ScanFrom(s, idx, e + 1, false, count + 1, j);
      WordsFromSpace(s, e);
      ScanFindsWord(s, idx, e + 1, count + 1, j);
    }
  }

  /** Inside word idx, the scan stops at the blank (or the end) that closes it. */
  lemma ScanStopsAtBlank(s: string, idx: int, e: nat, start: nat)
    requires start <= e <= |s| && (e == |s| || IsSpace(s[e]))
    ensures ScanFrom(s, idx, e, true, idx, start) == Scan(e, true, start)
  {
  }

  /** string_strdup_word returns exactly the idx-th word when the line has one. */
  lemma WordAtIsWord(s: string, idx: int)
    requires 0 <= idx < |Words(s)|
    ensures WordAt(s, idx) == Some(Words(s)[idx])
  {
    ScanFindsWord(s, idx, 0, -1, 0);
  }

  // ---------------------------------------------------------------------
  // string_count_words
  // ---------------------------------------------------------------------

  /**
   * The end-of-word test of string_count_words. As written (line 41) it
   * reads "space, newline, or anything but a tab", so every character other
   * than a tab ends a word; as intended it is IsSpace.
   */
  predicate EndsWord(c: char, asWritten: bool) {
    if asWritten then c == ' ' || c == '\n' || c != '\t' else IsSpace(c)
  }

  /** The counting loop from position i with n words counted. */
  function CountFrom(s: string, i: nat, inWord: bool, n: int, asWritten: bool): int
    requires i <= |s|
    decreases |s| - i
  {
    if i == |s| then (if inWord then n + 1 else n)
    else if !inWord then CountFrom(s, i + 1, !IsSpace(s[i]), n, asWritten)
    else if EndsWord(s[i], asWritten) then CountFrom(s, i + 1, false, n + 1, asWritten)
    else CountFrom(s, i + 1, true, n, asWritten)
  }

  /** string_count_words as written. */
  method CountWordsAsWritten(s: string) returns (nwords: int)
    ensures nwords == CountFrom(s, 0, false, 0, true)
    ensures 0 <= nwords <= |s|
    ensures (forall k :: 0 <= k < |s| ==> IsSpace(s[k])) ==> nwords == 0
  {
    nwords := 0;
    var p := 0;
    var inWord := false;
    while p < |s|
      invariant p <= |s| && 0 <= nwords <= p
      invariant inWord ==> nwords < p
      invariant CountFrom(s, p, inWord, nwords, true) == CountFrom(s, 0, false, 0, true)
      invariant (forall k :: 0 <= k < p ==> IsSpace(s[k])) ==> nwords == 0 && !inWord
    {
      if !inWord {
        if !IsSpace(s[p]) {
          inWord := true;
        }
      } else {
        if s[p] == ' ' || s[p] == '\n' || s[p] != '\t' {
          inWord := false;
          nwords := nwords + 1;
        }
      }
      p := p + 1;
    }
    if inWord {
      nwords := nwords + 1;
    }
  }

  /** string_count_words with the end-of-word test line 41 evidently means. */
  method CountWords(s: string) returns (nwords: int)
    ensures nwords == |Words(s)|
  {
    nwords := 0;
    var p := 0;
    var inWord := false;
    while p < |s|
      invariant p <= |s|
      invariant CountFrom(s, p, inWord, nwords, false) == CountFrom(s, 0, false, 0, false)
    {
      if !inWord {
        if !IsSpace(s[p]) {
          inWord := true;
        }
      } else {
        if IsSpace(s[p]) {
          inWord := false;
          nwords := nwords + 1;
        }
      }
      p := p + 1;
    }
    if inWord {
      nwords := nwords + 1;
    }
    CountIsWords(s, 0, 0);
  }

  /** Skipping blanks outside a word and the inside of a word do not count. */
  lemma {:induction false} CountSkip(s: string, i: nat, n: int)
    requires i <= |s|
    ensures CountFrom(s, i, false, n, false) == CountFrom(s, SkipSpace(s, i), false, n, false)
    decreases |s| - i
  {
    if i < |s| && IsSpace(s[i]) {
      CountSkip(s, i + 1, n);
    }
  }

  lemma {:induction false} CountRun(s: string, i: nat, n: int)
    requires i <= |s|
    ensures CountFrom(s, i, true, n, false) == CountFrom(s, RunEnd(s, i), true, n, false)
    decreases |s| - i
  {
    if i < |s| && !IsSpace(s[i]) {
      CountRun(s, i + 1, n);
    }
  }

  /** The intended count is the number of maximal runs. */
  lemma {:induction false} CountIsWords(s: string, i: nat, n: int)
    requires i <= |s|
    ensures CountFrom(s, i, false, n, false) == n + |WordsFrom(s, i)|
    decreases |s| - i
  {
    var j := SkipSpace(s, i);
    CountSkip(s, i, n);
    if j < |s| {
      var e := RunEnd(s, j);
      assert |WordsFrom(s, i)| == 1 + |WordsFrom(s, e)|;
      assert CountFrom(s, j, false, n, false) == CountFrom(s, j + 1, true, n, false);
      CountRun(s, j + 1, n);
      assert RunEnd(s, j + 1) == e;
      if e < |s| {
        assert CountFrom(s, e, true, n, false) == CountFrom(s, e + 1, false, n + 1, false);
        WordsFromSpace(s, e);
        CountIsWords(s, e + 1, n + 1);
      } else {
        assert WordsFrom(s, e) == [];
      }
    } else {
      assert WordsFrom(s, i) == [];
    }
  }

  /** A run of non-blank characters ending at a blank ends where the blank is. */
  lemma {:induction false} RunEndAt(s: string, i: nat, m: nat)
    requires i <= m < |s| && IsSpace(s[m]) && forall k :: i <= k < m ==> !IsSpace(s[k])
    ensures RunEnd(s, i) == m
    decreases m - i
  {
    if i < m {
      RunEndAt(s, i + 1, m);
    }
  }

  /**
   * As written, a run of non-blank characters other than tabs counts one
   * word for every two characters.
   */
  lemma {:induction false} CountAsWrittenPairs(s: string, i: nat, m: nat, n: int)
    requires i <= m <= |s| && forall k :: i <= k < m ==> !IsSpace(s[k])
    ensures CountFrom(s, i, false, n, true) == CountFrom(s, m, (m - i) % 2 == 1, n + (m - i) / 2, true)
    decreases m - i
  {
    if i + 1 < m {
      assert CountFrom(s, i, false, n, true) == CountFrom(s, i + 2, false, n + 1, true);
      CountAsWrittenPairs(s, i + 2, m, n + 1);
    }
  }

  /**
   * The line "$scale_marks\n" holds one word, which the SCALE_MARKS
   * directive tests for, but line 41 makes string_count_words count six, so
   * the directive goes on to read word 1, which string_strdup_word returns
   * as NULL.
   */
  lemma CountWordsAsWrittenMiscounts()
    ensures CountFrom("$scale_marks\n", 0, false, 0, true) == 6
    ensures Words("$scale_marks\n") == ["$scale_marks"]
    ensures WordAt("$scale_marks\n", 1) == None
  {
    var s := "$scale_marks\n";
    assert forall k :: 0 <= k < 12 ==> !IsSpace(s[k]);
    CountAsWrittenPairs(s, 0, 12, 0);
    RunEndAt(s, 0, 12);
    assert SkipSpace(s, 12) == 13;
    assert Words(s) == [s[0..12]] + WordsFrom(s, 12);
    assert s[0..12] == "$scale_marks";
    assert ScanLine(s, 1) == ScanFrom(s, 1, 1, true, 0, 0);
    ScanRun(s, 1, 1, 0, 0);
    RunEndAt(s, 1, 12);
  }

  /** "$name\n" has no word 1, so string_strdup_rest returns NULL for it. */
  lemma BareNameRest()
    ensures RestAt("$name\n", 1) == None
  {
    var s := "$name\n";
    assert forall k :: 0 <= k < 5 ==> !IsSpace(s[k]);
    assert ScanLine(s, 1) == ScanFrom(s, 1, 1, true, 0, 0);
    ScanRun(s, 1, 1, 0, 0);
    RunEndAt(s, 1, 5);
  }

  // ---------------------------------------------------------------------
  // Case-insensitive keyword tables
  // ---------------------------------------------------------------------

  /** ASCII lower case, as g_strcasecmp compares. */
  function Lower(c: char): char {
    if 'A' <= c <= 'Z' then (c as int + 32) as char else c
  }

  function LowerString(s: string): (r: string)
    ensures |r| == |s| && forall k :: 0 <= k < |s| ==> r[k] == Lower(s[k])
  {
    seq(|s|, k requires 0 <= k < |s| => Lower(s[k]))
  }

  /**
   * g_strcasecmp(w, key) == 0 for a key written in lower case: the tables
   * below hold their keys lowered, which matches the same words.
   */
  predicate Matches(w: string, key: string) {
    LowerString(w) == key
  }

  /** The first entry of table whose key matches w, or dflt. */
  function Lookup(w: string, table: seq<(string, int)>, dflt: int): (r: int)
    ensures (forall i :: 0 <= i < |table| ==> !Matches(w, table[i].0)) ==> r == dflt
    ensures (exists i :: 0 <= i < |table| && Matches(w, table[i].0)) ==>
      exists i :: 0 <= i < |table| && Matches(w, table[i].0) && r == table[i].1
  {
    if table == [] then dflt
    else if Matches(w, table[0].0) then table[0].1
    else
      var r := Lookup(w, table[1..], dflt);
      assert forall i :: 1 <= i < |table| ==> table[i] == table[1..][i - 1];
      r
  }

  /** The '$' directives gxgraph_parse_string recognises. */
  const DIRECTIVES: seq<(string, int)> := [
    ("$lw", STRING_CHANGE_LINE_WIDTH),
    ("$color", STRING_CHANGE_COLOR),
    ("$outline_color", STRING_CHANGE_OUTLINE_COLOR),
    ("$marks", STRING_CHANGE_MARKS),
    ("$noline", STRING_CHANGE_NO_LINE),
    ("$scale_marks", STRING_CHANGE_SCALE_MARKS),
    ("$path", STRING_PATH_NAME),
    ("$mark_size", STRING_CHANGE_MARK_SIZE),
    ("$text_size", STRING_CHANGE_TEXT_SIZE),
    ("$nomark", STRING_CHANGE_NO_MARK),
    ("$line", STRING_CHANGE_LINE),
    ("$image", STRING_IMAGE_REFERENCE),
    ("$polygon", STRING_CHANGE_POLYGON),
    ("$marks_file", STRING_MARKS_REFERENCE),
    ("$low_contrast", STRING_LOW_CONTRAST),
    ("$title", STRING_SET_TITLE),
    ("$name", STRING_SET_NAME)]

  /** The xgraph "Keyword:" lines gxgraph_parse_string recognises (Title:, TitleText:, XUnitText:, ...). */
  const KEYWORDS: seq<(string, int)> := [
    ("title:", STRING_SET_TITLE),
    ("titletext:", STRING_SET_TITLE),
    ("xunittext:", STRING_SET_XUNIT_TEXT),
    ("yunittext:", STRING_SET_YUNIT_TEXT),
    ("largepixels:", STRING_SET_LARGE_PIXELS)]

  /** The mark names gxgraph_parse_mark_type recognises. */
  const MARK_NAMES: seq<(string, int)> := [
    ("circle", MARK_TYPE_CIRCLE),
    ("fcircle", MARK_TYPE_FCIRCLE),
    ("square", MARK_TYPE_SQUARE),
    ("fsquare", MARK_TYPE_FSQUARE),
    ("pixel", MARK_TYPE_PIXEL)]

  /** No two keys of a table are the same. */
  predicate Unambiguous(table: seq<(string, int)>) {
    forall i, j :: 0 <= i < j < |table| ==> table[i].0 != table[j].0
  }

  /** In an unambiguous table a matching word gets exactly its entry's code. */
  lemma {:induction false} LookupFinds(w: string, table: seq<(string, int)>, dflt: int, i: nat)
    requires Unambiguous(table) && i < |table| && Matches(w, table[i].0)
    ensures Lookup(w, table, dflt) == table[i].1
    decreases i
  {
    if i > 0 {
      assert table[0].0 != table[i].0;
      assert Unambiguous(table[1..]) by {
        forall a, b | 0 <= a < b < |table[1..]| ensures table[1..][a].0 != table[1..][b].0 {
          assert table[1..][a] == table[a + 1] && table[1..][b] == table[b + 1];
        }
      }
      assert table[1..][i - 1] == table[i];
      LookupFinds(w, table[1..], dflt, i - 1);
    }
  }

  /** Every entry of an unambiguous table is found by each spelling of its key. */
  lemma LookupTable(w: string, table: seq<(string, int)>, dflt: int)
    requires Unambiguous(table)
    ensures forall i :: 0 <= i < |table| && Matches(w, table[i].0) ==> Lookup(w, table, dflt) == table[i].1
  {
    forall i | 0 <= i < |table| && Matches(w, table[i].0) ensures Lookup(w, table, dflt) == table[i].1 {
      LookupFinds(w, table, dflt, i);
    }
  }

  /** gxgraph_parse_mark_type: the mark type of a mark name; unknown names give CIRCLE. */
  function ParseMarkType(name: string): (r: int)
    ensures r == MARK_TYPE_CIRCLE || r == MARK_TYPE_FCIRCLE || r == MARK_TYPE_SQUARE
      || r == MARK_TYPE_FSQUARE || r == MARK_TYPE_PIXEL
  {
    Lookup(name, MARK_NAMES, MARK_TYPE_CIRCLE)
  }

  /** Each mark name, in any letter case, selects its own mark type. */
  lemma ParseMarkTypeNames(name: string)
    ensures forall i :: 0 <= i < |MARK_NAMES| && Matches(name, MARK_NAMES[i].0) ==>
      ParseMarkType(name) == MARK_NAMES[i].1
    ensures (forall i :: 0 <= i < |MARK_NAMES| ==> !Matches(name, MARK_NAMES[i].0)) ==>
      ParseMarkType(name) == MARK_TYPE_CIRCLE
  {
    MarkNamesUnambiguous();
    LookupTable(name, MARK_NAMES, MARK_TYPE_CIRCLE);
  }

  // ---------------------------------------------------------------------
  // gxgraph_parse_string
  // ---------------------------------------------------------------------

  predicate IsDigit(c: char) { '0' <= c <= '9' }
  predicate IsLetter(c: char) { ('a' <= c <= 'z') || ('A' <= c <= 'Z') }

  /** The classification of one input line; -1 for an unknown '$' directive. */
  function ParseString(s: string): int {
    if |s| == 0 then STRING_DRAW   // first_char is the NUL: no branch but the last applies
    else Classify(s[0], FirstWord(s))
  }

  /** The branches of gxgraph_parse_string on the first character and the first word. */
  function Classify(firstChar: char, firstWord: string): int {
    if IsDigit(firstChar) then STRING_DRAW
    else if firstChar == '#' then STRING_COMMENT
    else if firstChar == '$' then Lookup(firstWord, DIRECTIVES, -1)
    else if IsLetter(firstChar) && |firstWord| > 0 && firstWord[|firstWord| - 1] == ':' then
      Lookup(firstWord, KEYWORDS, STRING_NOP)
    else if firstChar == 'M' || firstChar == 'm' then STRING_MOVE
    else if firstChar == 'T' || firstChar == 't' then STRING_TEXT
    else if firstChar == '"' then STRING_SET_NAME
    else STRING_DRAW
  }

  /** first_word: word 0 of the line, read as "" where it is NULL (no branch reads it then). */
  function FirstWord(s: string): string {
    if WordAt(s, 0).Some? then WordAt(s, 0).value else ""
  }

  /** The first word of a line that starts with a non-blank character. */
  function Head(s: string): string
    requires |s| > 0
  {
    s[..RunEnd(s, 0)]
  }

  /** A line that starts with a non-blank character has its leading run as word 0. */
  lemma {:induction false} FirstWordOfLine(s: string)
    requires |s| > 0 && !IsSpace(s[0])
    ensures FirstWord(s) == Head(s) && |Head(s)| > 0
  {
    assert SkipSpace(s, 0) == 0;
    assert Words(s) == [s[0..RunEnd(s, 0)]] + WordsFrom(s, RunEnd(s, 0));
    WordAtIsWord(s, 0);
  }

  lemma ParseStringHead(s: string)
    requires |s| > 0 && !IsSpace(s[0])
    ensures ParseString(s) == Classify(s[0], Head(s)) && |Head(s)| > 0
  {
    FirstWordOfLine(s);
  }

  lemma DirectivesUnambiguous()
    ensures Unambiguous(DIRECTIVES)
  {
  }

  lemma KeywordsUnambiguous()
    ensures Unambiguous(KEYWORDS)
  {
  }

  lemma MarkNamesUnambiguous()
    ensures Unambiguous(MARK_NAMES)
  {
  }

  /** A '$' word is classified by the directive it spells in any letter case, -1 when it spells none. */
  lemma ClassifyDirective(w: string)
    ensures forall i :: 0 <= i < |DIRECTIVES| && Matches(w, DIRECTIVES[i].0) ==>
      Classify('$', w) == DIRECTIVES[i].1
    ensures Classify('$', w) == -1 <==> forall i :: 0 <= i < |DIRECTIVES| ==> !Matches(w, DIRECTIVES[i].0)
  {
    DirectivesUnambiguous();
    LookupTable(w, DIRECTIVES, -1);
    assert forall i :: 0 <= i < |DIRECTIVES| ==> DIRECTIVES[i].1 != -1;
  }

  /** A letter-led word ending in ':' is classified by the keyword it spells, NOP when it spells none. */
  lemma ClassifyKeyword(c: char, w: string)
    requires IsLetter(c) && |w| > 0 && w[|w| - 1] == ':'
    ensures forall i :: 0 <= i < |KEYWORDS| && Matches(w, KEYWORDS[i].0) ==>
      Classify(c, w) == KEYWORDS[i].1
    ensures (forall i :: 0 <= i < |KEYWORDS| ==> !Matches(w, KEYWORDS[i].0)) ==> Classify(c, w) == STRING_NOP
  {
    KeywordsUnambiguous();
    LookupTable(w, KEYWORDS, STRING_NOP);
  }

  /** The one-character classes: digits, comments and set names. */
  lemma ParseStringLeadingChar(s: string)
    requires |s| > 0
    ensures IsDigit(s[0]) ==> ParseString(s) == STRING_DRAW
    ensures s[0] == '#' ==> ParseString(s) == STRING_COMMENT
    ensures s[0] == '"' ==> ParseString(s) == STRING_SET_NAME
  {
  }

  /** A bare "$name" line is classified as SET_NAME. */
  lemma BareNameParse()
    ensures ParseString("$name\n") == STRING_SET_NAME
  {
    var s := "$name\n";
    assert forall k :: 0 <= k < 5 ==> !IsSpace(s[k]);
    RunEndAt(s, 0, 5);
    assert Head(s) == "$name";
    ParseStringHead(s);
    assert Matches("$name", DIRECTIVES[|DIRECTIVES| - 1].0);
    ClassifyDirective("$name");
  }

  /** A letter-led line whose first word does not end in ':' is a move, a text or a draw line. */
  lemma ParseStringLetter(s: string)
    requires |s| > 0 && IsLetter(s[0]) && s[RunEnd(s, 0) - 1] != ':'
    ensures ParseString(s) == (if s[0] == 'M' || s[0] == 'm' then STRING_MOVE
                               else if s[0] == 'T' || s[0] == 't' then STRING_TEXT else STRING_DRAW)
  {
    ParseStringHead(s);
    HeadLast(s);
    ClassifyLetter(s[0], Head(s));
  }

  lemma HeadLast(s: string)
    requires |s| > 0 && !IsSpace(s[0])
    ensures |Head(s)| == RunEnd(s, 0) > 0 && Head(s)[|Head(s)| - 1] == s[RunEnd(s, 0) - 1]
  {
  }

  lemma ClassifyLetter(c: char, w: string)
    requires IsLetter(c) && |w| > 0 && w[|w| - 1] != ':'
    ensures Classify(c, w) == (if c == 'M' || c == 'm' then STRING_MOVE
                               else if c == 'T' || c == 't' then STRING_TEXT else STRING_DRAW)
  {
  }

  // ---------------------------------------------------------------------
  // split_string_to_double_pair
  // ---------------------------------------------------------------------

  /** strchr(s, ','): the first comma. */
  function FirstComma(s: string): (r: Option<nat>)
    ensures r.None? <==> ',' !in s
    ensures r.Some? ==> r.value < |s| && s[r.value] == ',' && ',' !in s[..r.value]
  {
    if |s| == 0 then None
    else if s[0] == ',' then Some(0)
    else
      var r := FirstComma(s[1..]);
      if r.None? then None
      else
        assert s[..r.value + 1] == [s[0]] + s[1..][..r.value];
        Some(r.value + 1)
  }

  /**
   * split_string_to_double_pair: -1 with the outputs untouched when there is
   * no comma; otherwise 0 with the number before the first comma in low and
   * the one after it in hi. atof is the C library conversion.
   */
  method SplitPair(s: string, atof: string -> real, low0: real, hi0: real)
    returns (status: int, low: real, hi: real)
    ensures status == -1 <==> ',' !in s
    ensures status == -1 ==> low == low0 && hi == hi0
    ensures status == 0 ==>
      exists c :: 0 <= c < |s| && s[c] == ',' && ',' !in s[..c] && low == atof(s[..c]) && hi == atof(s[c + 1..])
    ensures status == 0 || status == -1
  {
    var comma := FirstComma(s);
    if comma.None? {
      return -1, low0, hi0;
    }
    var c := comma.value;
    status, low, hi := 0, atof(s[..c]), atof(s[c + 1..]);
  }
}
