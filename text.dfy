/** The string operations the views rely on: Python's `in` on strings and
    `str.replace(pattern, '')`. */
module Text {

  /** `sub in s` for Python strings; the empty string occurs everywhere. */
  predicate Contains(s: string, sub: string)
    decreases |s|
  {
    sub <= s || (s != [] && Contains(s[1..], sub))
  }

  /** `s.replace(pat, '')`: scans left to right and drops every
      non-overlapping occurrence of `pat`. With an empty pattern the string
      comes back unchanged, as in Python. */
  function RemoveAll(s: string, pat: string): string
    decreases |s|
  {
    if pat == [] || |s| < |pat| then s
    else if pat <= s then RemoveAll(s[|pat|..], pat)
    else [s[0]] + RemoveAll(s[1..], pat)
  }

  /** Removing a one-character pattern leaves no occurrence of that
      character and shortens the string by the number of occurrences. */
  lemma {:induction false} RemoveCharLeavesNone(s: string, c: char)
    ensures c !in RemoveAll(s, [c])
    ensures |RemoveAll(s, [c])| <= |s|
    decreases |s|
  {
    if s != [] {
      RemoveCharLeavesNone(s[1..], c);
      if [c] <= s {
        assert RemoveAll(s, [c]) == RemoveAll(s[1..], [c]);
      } else {
        assert s[0] != c;
        assert RemoveAll(s, [c]) == [s[0]] + RemoveAll(s[1..], [c]);
      }
    }
  }

  /** A string ending in `suffix` contains it. */
  lemma SuffixContained(s: string, suffix: string)
    requires |suffix| <= |s| && s[|s| - |suffix|..] == suffix
    ensures Contains(s, suffix)
    decreases |s|
  {
    if |s| > |suffix| {
      assert s[1..][|s[1..]| - |suffix|..] == suffix;
      SuffixContained(s[1..], suffix);
    } else {
      assert s == suffix;
    }
  }

  /** Removing a pattern leaves the string no longer. */
  lemma {:induction false} RemoveAllShortens(s: string, pat: string)
    ensures |RemoveAll(s, pat)| <= |s|
    decreases |s|
  {
    if pat != [] && |s| >= |pat| {
      if pat <= s {
        RemoveAllShortens(s[|pat|..], pat);
      } else {
        RemoveAllShortens(s[1..], pat);
      }
    }
  }

  /** A stretch that does not hold the pattern's first character is kept
      as it is, and the scan resumes after it. */
  lemma {:induction false} RemoveAllPastClean(x: string, y: string, pat: string)
    requires pat != [] && pat[0] !in x
    ensures RemoveAll(x + y, pat) == x + RemoveAll(y, pat)
    decreases |x|
  {
    if x != [] {
      assert (x + y)[1..] == x[1..] + y;
      RemoveAllPastClean(x[1..], y, pat);
      if |x + y| < |pat| {
        assert RemoveAll(y, pat) == y;
      } else {
        assert (x + y)[0] == x[0] != pat[0];
        assert RemoveAll(x + y, pat) == [x[0]] + RemoveAll(x[1..] + y, pat);
        assert [x[0]] + (x[1..] + RemoveAll(y, pat)) == x + RemoveAll(y, pat);
      }
    } else {
      assert x + y == y;
    }
  }

  /** An occurrence at the head is dropped. */
  lemma RemoveAllAtHead(y: string, pat: string)
    requires pat != []
    ensures RemoveAll(pat + y, pat) == RemoveAll(y, pat)
  {
    assert (pat + y)[|pat|..] == y;
  }

  /** Removing `direct` from a string ending in `direct__` whose rest has
      no `d`: only that occurrence goes. */
  lemma DropDirect(x: string)
    requires 'd' !in x
    ensures RemoveAll(x + "direct__", "direct") == x + "__"
  {
    assert x + "direct__" == x + ("direct" + "__");
    RemoveAllPastClean(x, "direct" + "__", "direct");
    RemoveAllAtHead("__", "direct");
    assert RemoveAll("__", "direct") == "__";
  }

  /** Removing a pattern that occurs once, its first character nowhere
      else. */
  lemma DropViewer(x: string, pat: string, rest: string)
    requires pat != [] && pat[0] !in x && pat[0] !in rest
    ensures RemoveAll(x + (pat + rest), pat) == x + rest
  {
    RemoveAllPastClean(x, pat + rest, pat);
    RemoveAllAtHead(rest, pat);
    RemoveAllPastClean(rest, [], pat);
    assert rest + [] == rest;
  }

  /** Removing `_` from a core framed by runs of underscores leaves the
      core. */
  lemma {:induction false} StripUnderscores(pre: string, core: string, post: string)
    requires forall i :: 0 <= i < |pre| ==> pre[i] == '_'
    requires forall i :: 0 <= i < |post| ==> post[i] == '_'
    requires '_' !in core
    ensures RemoveAll(pre + (core + post), "_") == core
    decreases |pre|
  {
    if pre != [] {
      assert pre + (core + post) == "_" + (pre[1..] + (core + post));
      RemoveAllAtHead(pre[1..] + (core + post), "_");
      StripUnderscores(pre[1..], core, post);
    } else {
      assert pre + (core + post) == core + post;
      RemoveAllPastClean(core, post, "_");
      OnlyUnderscores(post);
      assert core + [] == core;
    }
  }

  lemma {:induction false} OnlyUnderscores(s: string)
    requires forall i :: 0 <= i < |s| ==> s[i] == '_'
    ensures RemoveAll(s, "_") == []
    decreases |s|
  {
    if s != [] {
      assert s == "_" + s[1..];
      RemoveAllAtHead(s[1..], "_");
      OnlyUnderscores(s[1..]);
    }
  }

  /** Removing `me` from a framed pair of names where the second starts
      with `me`: both occurrences go. */
  lemma DropViewerBesideLongerName(me: string, rest: string)
    requires me != [] && '_' !in me && '_' !in rest && me[0] !in rest
    ensures RemoveAll("__" + (me + ("_" + (me + (rest + "___")))), me) == "__" + ("_" + (rest + "___"))
  {
    assert me[0] != '_';
    var t2 := rest + "___";
    var t1 := "_" + (me + t2);
    RemoveAllPastClean("__", me + t1, me);
    RemoveAllAtHead(t1, me);
    RemoveAllPastClean("_", me + t2, me);
    RemoveAllAtHead(t2, me);
    RemoveAllPastClean(rest, "___", me);
    RemoveAllPastClean("___", [], me);
    assert "___" + [] == "___";
  }
}
