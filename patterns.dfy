/**
 * The two regular expressions of the dev server. Each has a reference
 * definition that spells out what a JavaScript `RegExp.test` search means for
 * that pattern, character by character, and a computable test proved equal to it.
 */
module Patterns {
  import opened Text

  /**
   * `/\.t|js$/` matches at position `i`: either the first alternative `\.t`
   * (anywhere, it is not anchored) or the second alternative `js` followed by
   * the end of input.
   */
  ghost predicate UpdateRegexMatchesAt(s: string, i: int) {
    0 <= i && i + 2 <= |s| &&
    ((s[i] == '.' && s[i + 1] == 't') || (i + 2 == |s| && s[i] == 'j' && s[i + 1] == 's'))
  }

  /** `/\.t|js$/.test(s)`: some start position matches. */
  ghost predicate UpdateRegexMatches(s: string) {
    exists i :: UpdateRegexMatchesAt(s, i)
  }

  /**
   * The search for `/\.t|js$/` succeeds exactly when `.t` occurs somewhere in
   * `s` or `s` ends with `js`.
   */
  lemma UpdateRegexCases(s: string)
    ensures UpdateRegexMatches(s) <==> Contains(s, ".t") || EndsWith(s, "js")
  {
    if Contains(s, ".t") {
      var k :| OccursAt(s, ".t", k);
      assert s[k..k + 2] == ".t";
      assert UpdateRegexMatchesAt(s, k);
    } else if EndsWith(s, "js") {
      assert s[|s| - 2..] == "js";
      assert UpdateRegexMatchesAt(s, |s| - 2);
    }
    forall i | UpdateRegexMatchesAt(s, i) ensures Contains(s, ".t") || EndsWith(s, "js") {
      if s[i] == '.' && s[i + 1] == 't' {
        assert s[i..i + 2] == ".t";
        assert OccursAt(s, ".t", i);
      } else {
        assert s[|s| - 2..] == "js";
      }
    }
  }

  /** The change handler's JS-or-CSS decision: `.t` occurs somewhere, or the path ends with `js`. */
  function IsJsUpdatePath(file: string): (r: bool)
    ensures r <==> UpdateRegexMatches(file)
  {
    UpdateRegexCases(file);
    IndexOf(file, ".t") != -1 || EndsWith(file, "js")
  }

  /** The regex's quirk on concrete names: `.txt` counts as script, `.json` and `.jsx` do not. */
  lemma UpdateRegexExamples()
    ensures IsJsUpdatePath("a.ts")
    ensures IsJsUpdatePath("/proj/notes.txt")
    ensures IsJsUpdatePath("/proj/.tmp/style.css")
    ensures IsJsUpdatePath("main.js")
    ensures !IsJsUpdatePath("a.json")
    ensures !IsJsUpdatePath("a.jsx")
    ensures !IsJsUpdatePath("a.css")
  {
    assert UpdateRegexMatchesAt("a.ts", 1);
    assert UpdateRegexMatchesAt("/proj/notes.txt", 11);
    assert UpdateRegexMatchesAt("/proj/.tmp/style.css", 6);
    assert UpdateRegexMatchesAt("main.js", 5);
    NoUpdateMatch("a.json");
    NoUpdateMatch("a.jsx");
    NoUpdateMatch("a.css");
  }

  /** Helper: a name with no `.t` and no trailing `js` does not match. */
  lemma NoUpdateMatch(s: string)
    requires forall i :: 0 <= i < |s| - 1 ==> !(s[i] == '.' && s[i + 1] == 't')
    requires !(2 <= |s| && s[|s| - 2] == 'j' && s[|s| - 1] == 's')
    ensures !UpdateRegexMatches(s)
  {
  }

  /**
   * `/\.[tj]sx?$/` matches at position `i`: a dot, `t` or `j`, `s`, an
   * optional `x`, then the end of input.
   */
  ghost predicate AssetRegexMatchesAt(p: string, i: int) {
    0 <= i && i + 3 <= |p| &&
    p[i] == '.' && (p[i + 1] == 't' || p[i + 1] == 'j') && p[i + 2] == 's' &&
    (i + 3 == |p| || (i + 4 == |p| && p[i + 3] == 'x'))
  }

  /** `/\.[tj]sx?$/.test(p)` */
  ghost predicate AssetRegexMatches(p: string) {
    exists i :: AssetRegexMatchesAt(p, i)
  }

  /** The search for `/\.[tj]sx?$/` succeeds exactly when the path ends in `.ts`, `.js`, `.tsx` or `.jsx`. */
  lemma AssetRegexCases(p: string)
    ensures AssetRegexMatches(p) <==>
      EndsWith(p, ".ts") || EndsWith(p, ".js") || EndsWith(p, ".tsx") || EndsWith(p, ".jsx")
  {
    if EndsWith(p, ".ts") || EndsWith(p, ".js") {
      assert p[|p| - 3..] == ".ts" || p[|p| - 3..] == ".js";
      assert AssetRegexMatchesAt(p, |p| - 3);
    } else if EndsWith(p, ".tsx") || EndsWith(p, ".jsx") {
      assert p[|p| - 4..] == ".tsx" || p[|p| - 4..] == ".jsx";
      assert AssetRegexMatchesAt(p, |p| - 4);
    }
    forall i | AssetRegexMatchesAt(p, i)
      ensures EndsWith(p, ".ts") || EndsWith(p, ".js") || EndsWith(p, ".tsx") || EndsWith(p, ".jsx")
    {
      if i + 3 == |p| {
        assert p[i..] == [p[i], p[i + 1], p[i + 2]];
      } else {
        assert p[i..] == [p[i], p[i + 1], p[i + 2], p[i + 3]];
      }
    }
  }

  /** sirv's script test: the path ends in `.ts`, `.js`, `.tsx` or `.jsx`. */
  function IsScriptAssetPath(p: string): (r: bool)
    ensures r <==> AssetRegexMatches(p)
  {
    AssetRegexCases(p);
    EndsWith(p, ".ts") || EndsWith(p, ".js") || EndsWith(p, ".tsx") || EndsWith(p, ".jsx")
  }

  lemma AssetRegexExamples()
    ensures IsScriptAssetPath("/src/main.ts") && IsScriptAssetPath("/src/App.tsx")
    ensures IsScriptAssetPath("/lib.js") && IsScriptAssetPath("/App.jsx")
    ensures !IsScriptAssetPath("/data.json") && !IsScriptAssetPath("/mod.mjs")
    ensures !IsScriptAssetPath("/style.css") && !IsScriptAssetPath("/a.tsxx")
  {
  }
}
