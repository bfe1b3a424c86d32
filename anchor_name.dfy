/**
 * Extraction of the broadcaster's name from a guard announcement
 * (`_LotteryHandler` in bilive/listener.ts). The source runs the regular
 * expression `(?:(主播 )).*(?=( 的直播间开通了总督))` and drops the first
 * three characters of the match. The model states what that match is:
 * the leftmost occurrence of the prefix, followed by a run of characters
 * that `.` accepts (anything but a line terminator), up to the LAST
 * occurrence of the suffix that such a run can reach (`.*` is greedy).
 */
module AnchorName {
  import opened Wrappers

  /** "主播 " ("broadcaster "): three characters. */
  const Prefix: string := "主播 "

  /** " 的直播间开通了总督" (" 's live room has opened a governor"). */
  const Suffix: string := " 的直播间开通了总督"

  /** The characters JavaScript's `.` does not match. */
  predicate IsLineTerminator(ch: char)
  {
    ch == '\n' || ch == '\r' || ch == '\U{2028}' || ch == '\U{2029}'
  }

  /** `t` occurs in `s` starting at index `i`. */
  predicate Occurs(s: string, i: int, t: string)
  {
    0 <= i && i + |t| <= |s| && s[i..i + |t|] == t
  }

  /** No line terminator in `s[lo..hi]`. */
  ghost predicate NoBreak(s: string, lo: int, hi: int)
    requires 0 <= lo <= hi <= |s|
  {
    forall k :: lo <= k < hi ==> !IsLineTerminator(s[k])
  }

  /** The pattern matches `s[i..j]`: prefix at `i`, no line break up to `j`, suffix at `j`. */
  ghost predicate MatchAt(s: string, i: int, j: int)
  {
    Occurs(s, i, Prefix) && i + |Prefix| <= j && Occurs(s, j, Suffix) && NoBreak(s, i + |Prefix|, j)
  }

  /** `s[i..j]` is the match the regular expression reports: leftmost start, longest run. */
  ghost predicate FirstLongestMatch(s: string, i: int, j: int)
  {
    && MatchAt(s, i, j)
    && (forall i', j' :: 0 <= i' < i ==> !MatchAt(s, i', j'))
    && (forall j' :: j < j' ==> !MatchAt(s, i, j'))
  }

  /** The first line terminator at or after `lo`, or `|s|` if there is none. */
  function LineEnd(s: string, lo: nat): (k: nat)
    requires lo <= |s|
    ensures lo <= k <= |s|
    ensures NoBreak(s, lo, k)
    ensures k < |s| ==> IsLineTerminator(s[k])
    decreases |s| - lo
  {
    if lo == |s| || IsLineTerminator(s[lo]) then lo else LineEnd(s, lo + 1)
  }

  /** The largest `j` in `[lo, hi]` at which the suffix occurs. */
  function LastSuffix(s: string, lo: nat, hi: nat): (r: Option<nat>)
    ensures r.Some? ==> lo <= r.value <= hi && Occurs(s, r.value, Suffix)
    ensures r.Some? ==> forall j :: r.value < j <= hi ==> !Occurs(s, j, Suffix)
    ensures r.None? ==> forall j :: lo <= j <= hi ==> !Occurs(s, j, Suffix)
    decreases hi
  {
    if hi < lo then None
    else if Occurs(s, hi, Suffix) then Some(hi)
    else if hi == 0 then None
    else LastSuffix(s, lo, hi - 1)
  }

  /** A match whose run starts after `lo` cannot reach past the end of `lo`'s line. */
  lemma MatchEndsOnLine(s: string, i: int, j: int)
    requires MatchAt(s, i, j)
    ensures j <= LineEnd(s, i + |Prefix|)
  {
  }

  /** The leftmost start at or after `from` where the pattern matches, with its longest run. */
  function Search(s: string, from: nat): (r: Option<(nat, nat)>)
    ensures r.Some? ==> from <= r.value.0 && MatchAt(s, r.value.0, r.value.1)
    ensures r.Some? ==> forall i, j :: from <= i < r.value.0 ==> !MatchAt(s, i, j)
    ensures r.Some? ==> forall j :: r.value.1 < j ==> !MatchAt(s, r.value.0, j)
    ensures r.None? ==> forall i, j :: from <= i ==> !MatchAt(s, i, j)
    decreases |s| - from
  {
    if from + |Prefix| > |s| then None
    else
      var lo := from + |Prefix|;
      var found := if Occurs(s, from, Prefix) then LastSuffix(s, lo, LineEnd(s, lo)) else None;
      assert forall j :: MatchAt(s, from, j) ==> lo <= j <= LineEnd(s, lo) && Occurs(s, from, Prefix) by {
        forall j | MatchAt(s, from, j) ensures j <= LineEnd(s, lo) {
          MatchEndsOnLine(s, from, j);
        }
      }
      match found
      case Some(j) =>
        assert NoBreak(s, lo, LineEnd(s, lo));
        Some((from, j))
      case None => Search(s, from + 1)
  }

  /**
   * The broadcaster's name in a guard announcement: the text between the
   * prefix and the suffix of the match, or None when the pattern does not match.
   */
  function ExtractAnchorName(msg: string): (name: Option<string>)
    ensures name.None? <==> forall i, j :: !MatchAt(msg, i, j)
    ensures name.Some? ==> exists i, j :: FirstLongestMatch(msg, i, j) && name.value == msg[i + |Prefix|..j]
  {
    match Search(msg, 0)
    case None => None
    case Some((i, j)) =>
      assert FirstLongestMatch(msg, i, j);
      Some(msg[i..j][|Prefix|..])
  }

  /** There is only one leftmost-longest match. */
  lemma FirstLongestMatchUnique(s: string, i: int, j: int, i': int, j': int)
    requires FirstLongestMatch(s, i, j) && FirstLongestMatch(s, i', j')
    ensures i == i' && j == j'
  {
  }

  /** The name is the text between the prefix and the suffix of THE regular-expression match. */
  lemma ExtractAnchorNameIsMatch(msg: string, i: int, j: int)
    requires FirstLongestMatch(msg, i, j)
    ensures ExtractAnchorName(msg) == Some(msg[i + |Prefix|..j])
  {
    var name := ExtractAnchorName(msg);
    var i', j' :| FirstLongestMatch(msg, i', j') && name.value == msg[i' + |Prefix|..j'];
    FirstLongestMatchUnique(msg, i, j, i', j');
  }

  /** The announcement "主播 Foo 的直播间开通了总督" names the broadcaster "Foo". */
  lemma ExtractAnchorNameExample()
    ensures ExtractAnchorName("主播 Foo 的直播间开通了总督") == Some("Foo")
  {
    var s := "主播 Foo 的直播间开通了总督";
    assert Occurs(s, 0, Prefix);
    assert Occurs(s, 6, Suffix);
    assert MatchAt(s, 0, 6);
    ExtractAnchorNameIsMatch(s, 0, 6);
    assert s[3..6] == "Foo";
  }
}
