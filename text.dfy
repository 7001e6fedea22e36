/** JavaScript string operations used by the dev server, on `string` (= seq<char>). */
module Text {

  /** `s.startsWith(prefix)` */
  predicate StartsWith(s: string, prefix: string) {
    |prefix| <= |s| && s[..|prefix|] == prefix
  }

  /** `s.endsWith(suffix)` */
  predicate EndsWith(s: string, suffix: string) {
    |suffix| <= |s| && s[|s| - |suffix|..] == suffix
  }

  /** `endsWith` holds exactly when `s` is some string followed by `suffix`. */
  lemma EndsWithIsSuffix(s: string, suffix: string)
    ensures EndsWith(s, suffix) <==> exists p :: s == p + suffix
  {
    if EndsWith(s, suffix) {
      assert s == s[..|s| - |suffix|] + suffix;
    }
    forall p | s == p + suffix ensures EndsWith(s, suffix) {
      assert s[|s| - |suffix|..] == suffix;
    }
  }

  /** `pat` occurs in `s` starting at index `i`. */
  predicate OccursAt(s: string, pat: string, i: int) {
    0 <= i && i + |pat| <= |s| && s[i..i + |pat|] == pat
  }

  ghost predicate Contains(s: string, pat: string) {
    exists i :: OccursAt(s, pat, i)
  }

  /** `k` is the leftmost place where `pat` occurs in `s`. */
  ghost predicate IsFirstOccurrence(s: string, pat: string, k: int) {
    OccursAt(s, pat, k) && forall j :: 0 <= j < k ==> !OccursAt(s, pat, j)
  }

  /** `s.indexOf(pat, from)`: the leftmost occurrence at or after `from`, or -1. */
  function IndexFrom(s: string, pat: string, from: nat): (r: int)
    requires from <= |s|
    ensures r == -1 || (from <= r && OccursAt(s, pat, r))
    ensures r == -1 ==> forall j :: from <= j ==> !OccursAt(s, pat, j)
    ensures r != -1 ==> forall j :: from <= j < r ==> !OccursAt(s, pat, j)
    decreases |s| - from
  {
    if OccursAt(s, pat, from) then from
    else if |s| <= from + |pat| then -1
    else IndexFrom(s, pat, from + 1)
  }

  /** `s.indexOf(pat)` */
  function IndexOf(s: string, pat: string): (r: int)
    ensures r == -1 <==> !Contains(s, pat)
    ensures r != -1 ==> IsFirstOccurrence(s, pat, r)
  {
    IndexFrom(s, pat, 0)
  }

  /**
   * `s.replace(pat, '')` with a string pattern: JavaScript removes only the
   * FIRST occurrence of `pat`, and leaves `s` alone when `pat` does not occur.
   */
  function RemoveFirst(s: string, pat: string): (r: string)
    ensures !Contains(s, pat) ==> r == s
    ensures forall k :: IsFirstOccurrence(s, pat, k) ==> r == s[..k] + s[k + |pat|..]
  {
    var k := IndexOf(s, pat);
    if k == -1 then s else s[..k] + s[k + |pat|..]
  }

  /** Appending `t` to a string ending in `c` gives a string ending in `c + t`. */
  lemma EndsWithAppend(s: string, c: string, t: string)
    requires EndsWith(s, c)
    ensures EndsWith(s + t, c + t)
  {
    var st := s + t;
    assert st[|st| - |c + t|..] == s[|s| - |c|..] + t;
  }

  /** A path under `root` loses exactly its leading `root`. */
  lemma RemoveFirstOfPrefix(s: string, root: string)
    requires StartsWith(s, root)
    ensures RemoveFirst(s, root) == s[|root|..]
  {
    assert IsFirstOccurrence(s, root, 0);
  }

  /** Removing an occurring pattern shortens the string by exactly its length. */
  lemma RemoveFirstLength(s: string, pat: string)
    requires Contains(s, pat)
    ensures |RemoveFirst(s, pat)| == |s| - |pat|
  {
    var k := IndexOf(s, pat);
    assert IsFirstOccurrence(s, pat, k);
  }

  /** An empty root removes nothing (`"x".replace("", "") == "x"`). */
  lemma RemoveFirstEmpty(s: string)
    ensures RemoveFirst(s, "") == s
  {
    assert IsFirstOccurrence(s, "", 0);
  }

  /** Only the first of several occurrences goes; later ones stay. */
  lemma RemoveFirstKeepsLaterOccurrences()
    ensures RemoveFirst("/app/src/app/main.js", "/app") == "/src/app/main.js"
  {
    RemoveFirstOfPrefix("/app/src/app/main.js", "/app");
  }
}
