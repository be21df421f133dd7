/**
  String trimming as performed by ECMAScript's `String.prototype.trim`
  (section 22.1.3.32 of ECMA-262): leading and trailing code points that are
  WhiteSpace or LineTerminator are removed.
 */
module Text {

  /**
    The code points of ECMAScript's WhiteSpace (TAB, VT, FF, SP, NBSP, ZWNBSP and the
    Unicode Zs category) and LineTerminator (LF, CR, LS, PS) productions.
   */
  predicate IsWhitespace(c: char) {
    var n := c as int;
    || (0x09 <= n <= 0x0D) || n == 0x20 || n == 0xA0 || n == 0x1680
    || (0x2000 <= n <= 0x200A) || n == 0x2028 || n == 0x2029 || n == 0x202F
    || n == 0x205F || n == 0x3000 || n == 0xFEFF
  }

  /** Every character is whitespace (the empty string included). */
  predicate IsBlank(s: string) {
    forall i :: 0 <= i < |s| ==> IsWhitespace(s[i])
  }

  /** `s[lo..hi]` is what remains of `s` once its whitespace borders are stripped. */
  predicate TrimmedAt(s: string, lo: int, hi: int) {
    && 0 <= lo <= hi <= |s|
    && (forall i :: 0 <= i < lo ==> IsWhitespace(s[i]))
    && (forall i :: hi <= i < |s| ==> IsWhitespace(s[i]))
    && (lo < hi ==> !IsWhitespace(s[lo]) && !IsWhitespace(s[hi - 1]))
  }

  /** The index of the first non-whitespace character at or after `i`, or `|s|` if there is none. */
  function SkipLeading(s: string, i: nat): (k: nat)
    requires i <= |s|
    ensures i <= k <= |s|
    ensures forall j :: i <= j < k ==> IsWhitespace(s[j])
    ensures k < |s| ==> !IsWhitespace(s[k])
    decreases |s| - i
  {
    if i < |s| && IsWhitespace(s[i]) then SkipLeading(s, i + 1) else i
  }

  /** The end of `s[lo..j]` once its trailing whitespace is dropped. */
  function SkipTrailing(s: string, lo: nat, j: nat): (k: nat)
    requires lo <= j <= |s|
    ensures lo <= k <= j
    ensures forall m :: k <= m < j ==> IsWhitespace(s[m])
    ensures lo < k ==> !IsWhitespace(s[k - 1])
    decreases j - lo
  {
    if lo < j && IsWhitespace(s[j - 1]) then SkipTrailing(s, lo, j - 1) else j
  }

  /** `String.prototype.trim`: strips whitespace from both ends. */
  function Trim(s: string): (r: string)
    ensures exists lo, hi :: TrimmedAt(s, lo, hi) && r == s[lo..hi]
    ensures IsBlank(s) <==> r == []
  {
    var lo := SkipLeading(s, 0);
    var hi := SkipTrailing(s, lo, |s|);
    assert TrimmedAt(s, lo, hi);
    s[lo..hi]
  }

  /** Any whitespace-bordered split of `s` yields exactly `Trim(s)`: the trimmed text is unique. */
  lemma TrimmedAtIsTrim(s: string, lo: int, hi: int)
    requires TrimmedAt(s, lo, hi)
    ensures s[lo..hi] == Trim(s)
  {
  }

  /** Trimming twice is trimming once. */
  lemma TrimIdempotent(s: string)
    ensures Trim(Trim(s)) == Trim(s)
  {
  }
}
