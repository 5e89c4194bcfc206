/**
 * The time extraction step of `processImage`: the first substring of the
 * recognized text that matches the pattern `\d{1,2}:\d{2}`, found the way
 * `Regex.find` finds it (leftmost start, then the greedy hour alternative).
 * `\d` is taken to be the ASCII digits `0`..`9`, as in the JVM's regex engine
 * without UNICODE_CHARACTER_CLASS; Android's ICU-backed engine also lets it
 * match other Unicode decimal digits, which this model does not accept.
 */
module TimeExtractor {
  import opened Wrappers

  predicate IsDigit(c: char)
  {
    '0' <= c <= '9'
  }

  /** One or two digits, a colon, then exactly two digits: the whole of `\d{1,2}:\d{2}`. */
  predicate IsTimeToken(t: string)
  {
    (|t| == 4 || |t| == 5)
    && IsDigit(t[0])
    && (|t| == 5 ==> IsDigit(t[1]))
    && t[|t| - 3] == ':'
    && IsDigit(t[|t| - 2])
    && IsDigit(t[|t| - 1])
  }

  /** The pattern matches the `len` characters of `s` that start at index `i`. */
  predicate MatchAt(s: string, i: nat, len: nat)
  {
    i + len <= |s| && IsTimeToken(s[i..i + len])
  }

  /** Some alternative of the pattern matches at start index `i`. */
  predicate HasMatchAt(s: string, i: nat)
  {
    MatchAt(s, i, 4) || MatchAt(s, i, 5)
  }

  /** A match at `i` of length `len`, and no match starts earlier. */
  predicate IsLeftmostMatch(s: string, i: nat, len: nat)
  {
    MatchAt(s, i, len) && forall j: nat :: j < i ==> !HasMatchAt(s, j)
  }

  // DigitValue, HourValue and MinuteValue only name the numbers written in a
  // token; the code never computes them, and they serve to state that no
  // range check is applied.

  function DigitValue(c: char): (v: nat)
    requires IsDigit(c)
    ensures v <= 9
  {
    (c as int) - ('0' as int)
  }

  /** The number written before the colon of a token (no range check is ever applied to it). */
  function HourValue(t: string): (h: nat)
    requires IsTimeToken(t)
    ensures h <= 99
  {
    if |t| == 5 then 10 * DigitValue(t[0]) + DigitValue(t[1]) else DigitValue(t[0])
  }

  /** The number written after the colon of a token. */
  function MinuteValue(t: string): (m: nat)
    requires IsTimeToken(t)
    ensures m <= 99
  {
    10 * DigitValue(t[|t| - 2]) + DigitValue(t[|t| - 1])
  }

  /** No match starts at a character that is not a digit. */
  lemma NonDigitStartsNoMatch(s: string, j: nat)
    requires j < |s| && !IsDigit(s[j])
    ensures !HasMatchAt(s, j)
  {
    assert j + 4 <= |s| ==> s[j..j + 4][0] == s[j];
    assert j + 5 <= |s| ==> s[j..j + 5][0] == s[j];
  }

  /** At a fixed start the one-digit and two-digit hour alternatives exclude each other. */
  lemma MatchLengthUnique(s: string, i: nat, len1: nat, len2: nat)
    requires MatchAt(s, i, len1) && MatchAt(s, i, len2)
    ensures len1 == len2
  {
  }

  /** The length of the match at `i`; the greedy two-digit hour is tried first. */
  function MatchLength(s: string, i: nat): (len: nat)
    requires HasMatchAt(s, i)
    ensures MatchAt(s, i, len)
    ensures forall other: nat :: MatchAt(s, i, other) ==> other == len
  {
    var len := if MatchAt(s, i, 5) then 5 else 4;
    forall other: nat | MatchAt(s, i, other) ensures other == len {
      MatchLengthUnique(s, i, len, other);
    }
    len
  }

  /** The leftmost start index at or after `from` where the pattern matches. */
  function LeftmostMatchFrom(s: string, from: nat): (r: Option<nat>)
    decreases |s| - from
    ensures r.Some? ==> from <= r.value && HasMatchAt(s, r.value)
    ensures r.Some? ==> forall j: nat :: from <= j < r.value ==> !HasMatchAt(s, j)
    ensures r.None? ==> forall j: nat :: from <= j ==> !HasMatchAt(s, j)
  {
    if from + 4 > |s| then None
    else if HasMatchAt(s, from) then Some(from)
    else LeftmostMatchFrom(s, from + 1)
  }

  /**
   * `Regex("\\d{1,2}:\\d{2}").find(text)?.value`: the text of the first match,
   * or None when the pattern matches nowhere.
   */
  function FindTime(s: string): (r: Option<string>)
    ensures r.Some? ==> IsTimeToken(r.value)
    ensures r.None? <==> forall i: nat, len: nat :: !MatchAt(s, i, len)
  {
    match LeftmostMatchFrom(s, 0)
    case None =>
      assert forall i: nat, len: nat :: MatchAt(s, i, len) ==> HasMatchAt(s, i);
      None
    case Some(i) =>
      var len := MatchLength(s, i);
      Some(s[i..i + len])
  }

  /** FindTime returns exactly the text of the leftmost match, and nothing else. */
  lemma {:induction false} FindTimeIsLeftmostMatch(s: string, t: string)
    ensures FindTime(s) == Some(t) <==> exists i: nat :: IsLeftmostMatch(s, i, |t|) && s[i..i + |t|] == t
  {
    var r := LeftmostMatchFrom(s, 0);
    if FindTime(s) == Some(t) {
      var i := r.value;
      assert IsLeftmostMatch(s, i, |t|) && s[i..i + |t|] == t;
    }
    if exists i: nat :: IsLeftmostMatch(s, i, |t|) && s[i..i + |t|] == t {
      var i: nat :| IsLeftmostMatch(s, i, |t|) && s[i..i + |t|] == t;
      assert HasMatchAt(s, i);
      assert r.Some? && r.value == i;
      assert MatchLength(s, i) == |t|;
    }
  }

  /** A leftmost match determines FindTime's result. */
  lemma LeftmostMatchIsFound(s: string, i: nat, len: nat)
    requires IsLeftmostMatch(s, i, len)
    ensures FindTime(s) == Some(s[i..i + len])
  {
    FindTimeIsLeftmostMatch(s, s[i..i + len]);
  }

  /** The returned time string is a contiguous substring of the text. */
  lemma FindTimeIsSubstring(s: string)
    requires FindTime(s).Some?
    ensures exists i: nat :: MatchAt(s, i, |FindTime(s).value|) && s[i..i + |FindTime(s).value|] == FindTime(s).value
  {
    var t := FindTime(s).value;
    FindTimeIsLeftmostMatch(s, t);
  }

  /** Matching is syntactic: every well-shaped token is returned whole, whatever its numbers. */
  lemma TokenIsFoundWhole(t: string)
    requires IsTimeToken(t)
    ensures FindTime(t) == Some(t)
  {
    assert t[0..|t|] == t;
    LeftmostMatchIsFound(t, 0, |t|);
  }

  /** "99:99" is accepted although 99 is no hour and no minute. */
  lemma OutOfRangeTimeIsAccepted()
    ensures FindTime("99:99") == Some("99:99")
    ensures HourValue("99:99") == 99 && MinuteValue("99:99") == 99
  {
    TokenIsFoundWhole("99:99");
  }

  /** The first match wins: in "at 9:05 room 3:99" the later "3:99" is ignored. */
  lemma FirstMatchWinsExample()
    ensures FindTime("at 9:05 room 3:99") == Some("9:05")
  {
    var s := "at 9:05 room 3:99";
    forall j: nat | j < 3 ensures !HasMatchAt(s, j) {
      assert s[j] in "at ";
      NonDigitStartsNoMatch(s, j);
    }
    assert s[3..7] == "9:05";
    LeftmostMatchIsFound(s, 3, 4);
  }

  /** A digit before the hour does not block a match: "123:45" yields "23:45". */
  lemma LeadingDigitExample()
    ensures FindTime("123:45") == Some("23:45")
  {
    var s := "123:45";
    assert !HasMatchAt(s, 0);
    assert s[1..6] == "23:45";
    LeftmostMatchIsFound(s, 1, 5);
  }

  /** A digit after the minutes does not block a match: "12:345" yields "12:34". */
  lemma TrailingDigitExample()
    ensures FindTime("12:345") == Some("12:34")
  {
    var s := "12:345";
    assert s[0..5] == "12:34";
    LeftmostMatchIsFound(s, 0, 5);
  }

  /** A left-to-right scan that tries each start index in turn, greedy hour first. */
  method ScanForTime(s: string) returns (r: Option<string>)
    ensures r == FindTime(s)
  {
    var i: nat := 0;
    while i + 4 <= |s|
      invariant forall j: nat :: j < i ==> !HasMatchAt(s, j)
    {
      if i + 5 <= |s| && IsDigit(s[i]) && IsDigit(s[i + 1]) && s[i + 2] == ':'
         && IsDigit(s[i + 3]) && IsDigit(s[i + 4])
      {
        assert MatchAt(s, i, 5);
        LeftmostMatchIsFound(s, i, 5);
        return Some(s[i..i + 5]);
      }
      if IsDigit(s[i]) && s[i + 1] == ':' && IsDigit(s[i + 2]) && IsDigit(s[i + 3]) {
        assert MatchAt(s, i, 4);
        LeftmostMatchIsFound(s, i, 4);
        return Some(s[i..i + 4]);
      }
      assert !MatchAt(s, i, 5);
      assert !MatchAt(s, i, 4);
      i := i + 1;
    }
    assert forall k: nat, len: nat :: MatchAt(s, k, len) ==> HasMatchAt(s, k);
    return None;
  }
}
