/**
 * The string operations the ledger applies to its inputs: `String.prototype.trim`
 * on the description field, and the two ways a timestamp is cut into calendar keys,
 * `iso.split('T')[0]` for the day and `iso.slice(0, 7)` for the month.
 */
module Text {

  /** ECMAScript WhiteSpace and LineTerminator code points, the set `trim` removes. */
  predicate IsSpace(c: char) {
    || c == '\t' || c == '\n' || c == '\U{000B}' || c == '\U{000C}' || c == '\r' || c == ' '
    || c == '\U{00A0}' || c == '\U{1680}' || ('\U{2000}' <= c <= '\U{200A}')
    || c == '\U{2028}' || c == '\U{2029}' || c == '\U{202F}' || c == '\U{205F}'
    || c == '\U{3000}' || c == '\U{FEFF}'
  }

  predicate AllSpace(s: string) {
    forall k :: 0 <= k < |s| ==> IsSpace(s[k])
  }

  /** The number of white-space characters `s` starts with. */
  function SpacePrefix(s: string): (n: nat)
    ensures n <= |s|
    ensures forall k :: 0 <= k < n ==> IsSpace(s[k])
    ensures n < |s| ==> !IsSpace(s[n])
  {
    if s != [] && IsSpace(s[0]) then 1 + SpacePrefix(s[1..]) else 0
  }

  /** The number of white-space characters `s` ends with. */
  function SpaceSuffix(s: string): (n: nat)
    ensures n <= |s|
    ensures forall k :: |s| - n <= k < |s| ==> IsSpace(s[k])
    ensures n < |s| ==> !IsSpace(s[|s| - 1 - n])
  {
    if s != [] && IsSpace(s[|s| - 1]) then 1 + SpaceSuffix(s[..|s| - 1]) else 0
  }

  /** `s.trim()`: white space dropped from both ends. */
  function Trim(s: string): (r: string)
    ensures |r| <= |s|
    ensures r != [] ==> !IsSpace(r[0]) && !IsSpace(r[|r| - 1])
  {
    var i := SpacePrefix(s);
    s[i..|s| - SpaceSuffix(s[i..])]
  }

  /** The trimmed text is a slice of the input, and everything cut off on either side is white space. */
  lemma TrimSlice(s: string)
    ensures exists i, j :: (0 <= i <= j <= |s| && Trim(s) == s[i..j]
      && (forall k :: 0 <= k < i ==> IsSpace(s[k])) && (forall k :: j <= k < |s| ==> IsSpace(s[k])))
  {
    var i := SpacePrefix(s);
    var t := s[i..];
    var j := |s| - SpaceSuffix(t);
    forall k | j <= k < |s| ensures IsSpace(s[k]) {
      assert t[k - i] == s[k];
    }
    assert Trim(s) == s[i..j];
  }

  /** Trimming leaves nothing exactly when the input is all white space (the empty string included). */
  lemma TrimEmptyIff(s: string)
    ensures Trim(s) == [] <==> AllSpace(s)
  {
    if Trim(s) == [] {
      assert SpacePrefix(s) == |s|;
    }
  }

  /** Trimming twice is trimming once. */
  lemma TrimIdempotent(s: string)
    ensures Trim(Trim(s)) == Trim(s)
  {
    var r := Trim(s);
    if r != [] {
      assert SpacePrefix(r) == 0;
      assert r[0..] == r;
      assert SpaceSuffix(r) == 0;
    }
  }

  /** `s.split('T')[0]`: the longest prefix of `s` without a 'T': it is a prefix, has no 'T', and
      is followed by a 'T' unless it is all of `s`. */
  function DayKey(s: string): (r: string)
    ensures r <= s
    ensures 'T' !in r
    ensures |r| < |s| ==> s[|r|] == 'T'
  {
    if s == [] then [] else if s[0] == 'T' then [] else [s[0]] + DayKey(s[1..])
  }

  /** `s.slice(0, 7)`: the first seven characters, or all of a shorter `s`. */
  function MonthKey(s: string): (r: string)
    ensures r <= s
    ensures |r| == if |s| < 7 then |s| else 7
  {
    s[..if |s| < 7 then |s| else 7]
  }

  /** Two timestamps on the same day key fall in the same month key, as long as the day key
      is at least as long as a month key (a `YYYY-MM-DD` day is). */
  lemma SameDaySameMonth(a: string, b: string)
    requires DayKey(a) == DayKey(b)
    requires |DayKey(b)| >= 7
    ensures MonthKey(a) == MonthKey(b)
  {
    var d := DayKey(b);
    assert a[..7] == d[..7] == b[..7];
  }

  predicate IsDigit(c: char) { '0' <= c <= '9' }

  /** The shape `Date.prototype.toISOString` gives for years 0000 to 9999: `YYYY-MM-DDTHH:mm:ss.sssZ`. */
  predicate IsIsoInstant(s: string) {
    && |s| == 24
    && IsDigit(s[0]) && IsDigit(s[1]) && IsDigit(s[2]) && IsDigit(s[3]) && s[4] == '-'
    && IsDigit(s[5]) && IsDigit(s[6]) && s[7] == '-' && IsDigit(s[8]) && IsDigit(s[9])
    && s[10] == 'T'
  }

  /** If `s` has no 'T' before position `n` and a 'T' at `n`, its day key is `s[..n]`. */
  lemma {:induction false} DayKeyAt(s: string, n: nat)
    requires n < |s| && s[n] == 'T'
    requires forall k :: 0 <= k < n ==> s[k] != 'T'
    ensures DayKey(s) == s[..n]
  {
    if n > 0 {
      DayKeyAt(s[1..], n - 1);
      assert [s[0]] + s[1..][..n - 1] == s[..n];
    }
  }

  /** On an ISO instant the day key is `YYYY-MM-DD`, the month key is `YYYY-MM`, and the month key
      is a prefix of the day key. */
  lemma IsoKeys(s: string)
    requires IsIsoInstant(s)
    ensures DayKey(s) == s[..10] && MonthKey(s) == s[..7]
    ensures MonthKey(s) <= DayKey(s) && |DayKey(s)| == 10
  {
    DayKeyAt(s, 10);
  }
}
