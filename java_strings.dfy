/**
 * The few `java.lang.String` operations the plugin relies on, over Dafny strings.
 * `String.trim` removes every leading and trailing character whose code point is
 * at most U+0020; `startsWith` and `endsWith` are case-sensitive affix tests.
 */
module JavaStrings {

  /** A character `String.trim` removes: code point at most U+0020. */
  predicate IsTrimmable(c: char) {
    c <= ' '
  }

  predicate AllTrimmable(s: string) {
    forall i :: 0 <= i < |s| ==> IsTrimmable(s[i])
  }

  /** A string that `trim` leaves alone: empty, or neither end is trimmable. */
  predicate IsTrimmed(s: string) {
    s == [] || (!IsTrimmable(s[0]) && !IsTrimmable(s[|s| - 1]))
  }

  /** `s` is `r` placed at offset `i`, with only trimmable characters around it. */
  predicate PaddedAt(s: string, i: nat, r: string) {
    && i + |r| <= |s|
    && s[i..i + |r|] == r
    && (forall k :: 0 <= k < i ==> IsTrimmable(s[k]))
    && (forall k :: i + |r| <= k < |s| ==> IsTrimmable(s[k]))
  }

  predicate StartsWith(s: string, prefix: string) {
    |prefix| <= |s| && s[..|prefix|] == prefix
  }

  predicate EndsWith(s: string, suffix: string) {
    |suffix| <= |s| && s[|s| - |suffix|..] == suffix
  }

  /** The first index at or after `st` that holds a character `trim` keeps (or `|s|`). */
  function TrimStartIndex(s: string, st: nat): (k: nat)
    requires st <= |s|
    ensures st <= k <= |s|
    ensures forall m :: st <= m < k ==> IsTrimmable(s[m])
    ensures k < |s| ==> !IsTrimmable(s[k])
    decreases |s| - st
  {
    if st < |s| && IsTrimmable(s[st]) then TrimStartIndex(s, st + 1) else st
  }

  /** The end of `s[st..len]` once its trailing trimmable characters are dropped. */
  function TrimEndIndex(s: string, st: nat, len: nat): (k: nat)
    requires st <= len <= |s|
    ensures st <= k <= len
    ensures forall m :: k <= m < len ==> IsTrimmable(s[m])
    ensures k > st ==> !IsTrimmable(s[k - 1])
    decreases len
  {
    if st < len && IsTrimmable(s[len - 1]) then TrimEndIndex(s, st, len - 1) else len
  }

  /** `String.trim`: `s` with the trimmable characters removed from both ends. */
  function Trim(s: string): (r: string)
    ensures IsTrimmed(r)
    ensures PaddedAt(s, TrimStartIndex(s, 0), r)
  {
    var st := TrimStartIndex(s, 0);
    s[st..TrimEndIndex(s, st, |s|)]
  }

  /** Whatever the padding, the trimmed string is the unique trimmed core of `s`. */
  lemma {:induction false} TrimUnique(s: string, i: nat, r: string)
    requires PaddedAt(s, i, r) && IsTrimmed(r)
    ensures Trim(s) == r
  {
    var j := TrimStartIndex(s, 0);
    var t := Trim(s);
    assert PaddedAt(s, j, t);
  }

  /** Surrounding padding never changes what `trim` returns. */
  lemma {:induction false} TrimIgnoresPadding(pre: string, s: string, post: string)
    requires AllTrimmable(pre) && AllTrimmable(post)
    ensures Trim(pre + s + post) == Trim(s)
  {
    var i := TrimStartIndex(s, 0);
    var r := Trim(s);
    var whole := pre + s + post;
    assert whole[|pre| + i..|pre| + i + |r|] == s[i..i + |r|];
    assert PaddedAt(whole, |pre| + i, r);
    TrimUnique(whole, |pre| + i, r);
  }

  /** Trimming twice is trimming once. */
  lemma TrimIdempotent(s: string)
    ensures Trim(Trim(s)) == Trim(s)
  {
    var r := Trim(s);
    assert r[..0] == [] && r[0 + |r|..] == [] && r[0..|r|] == r;
    TrimUnique(r, 0, r);
  }
}
