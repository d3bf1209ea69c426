/** Path normalisation used by the directory listing:
    `str.replace(/\/+/g, '/')`, every run of slashes collapsed to one. */
module Paths {

  predicate NoDoubleSlash(s: string)
  {
    forall i :: 0 <= i < |s| - 1 ==> !(s[i] == '/' && s[i + 1] == '/')
  }

  /** The characters of `s` other than '/', in order. */
  function NonSlash(s: string): string
  {
    if s == [] then [] else (if s[0] == '/' then [] else [s[0]]) + NonSlash(s[1..])
  }

  /** Collapses each maximal run of '/' into a single '/'. The first
      character is kept and the string never grows. */
  function CollapseSlashes(s: string): (r: string)
    ensures |r| <= |s|
    ensures |s| > 0 ==> |r| > 0 && r[0] == s[0]
  {
    if |s| == 0 then []
    else if |s| >= 2 && s[0] == '/' && s[1] == '/' then CollapseSlashes(s[1..])
    else [s[0]] + CollapseSlashes(s[1..])
  }

  /** The result never holds two adjacent slashes. */
  lemma {:induction false} CollapseHasNoDoubleSlash(s: string)
    ensures NoDoubleSlash(CollapseSlashes(s))
  {
    if |s| == 0 {
    } else if |s| >= 2 && s[0] == '/' && s[1] == '/' {
      CollapseHasNoDoubleSlash(s[1..]);
    } else {
      CollapseHasNoDoubleSlash(s[1..]);
      var t := CollapseSlashes(s[1..]);
      var r := [s[0]] + t;
      forall i | 0 <= i < |r| - 1
        ensures !(r[i] == '/' && r[i + 1] == '/')
      {
        if i > 0 {
          assert r[i] == t[i - 1] && r[i + 1] == t[i];
        }
      }
    }
  }

  /** Only slashes are dropped: every other character survives, in order. */
  lemma {:induction false} CollapseKeepsNonSlash(s: string)
    ensures NonSlash(CollapseSlashes(s)) == NonSlash(s)
  {
    if |s| == 0 {
    } else if |s| >= 2 && s[0] == '/' && s[1] == '/' {
      CollapseKeepsNonSlash(s[1..]);
    } else {
      CollapseKeepsNonSlash(s[1..]);
      var r := [s[0]] + CollapseSlashes(s[1..]);
      assert r[0] == s[0] && r[1..] == CollapseSlashes(s[1..]);
    }
  }

  /** A string without a doubled slash is left as it is. */
  lemma {:induction false} CollapseFixesClean(s: string)
    requires NoDoubleSlash(s)
    ensures CollapseSlashes(s) == s
  {
    if |s| > 0 {
      assert NoDoubleSlash(s[1..]) by {
        forall i | 0 <= i < |s[1..]| - 1
          ensures !(s[1..][i] == '/' && s[1..][i + 1] == '/')
        {
          assert s[1..][i] == s[i + 1] && s[1..][i + 1] == s[i + 2];
        }
      }
      CollapseFixesClean(s[1..]);
      if |s| >= 2 {
        assert !(s[0] == '/' && s[1] == '/');
      }
      assert s == [s[0]] + s[1..];
    }
  }

  /** Doubling any slash does not change the result. With CollapseFixesClean
      this pins CollapseSlashes down: every string rewrites to its collapsed
      form by undoing doubled slashes one at a time. */
  lemma {:induction false} CollapseAbsorbsSlash(s: string, i: nat)
    requires i < |s| && s[i] == '/'
    ensures CollapseSlashes(s[..i] + "/" + s[i..]) == CollapseSlashes(s)
  {
    var t := s[..i] + "/" + s[i..];
    if i == 0 {
      assert t == "/" + s && t[1..] == s;
    } else {
      assert t[0] == s[0];
      assert t[1] == s[1];
      assert t[1..] == s[1..][..i - 1] + "/" + s[1..][i - 1..];
      CollapseAbsorbsSlash(s[1..], i - 1);
    }
  }

  /** Collapsing twice is collapsing once. */
  lemma CollapseIdempotent(s: string)
    ensures CollapseSlashes(CollapseSlashes(s)) == CollapseSlashes(s)
  {
    CollapseHasNoDoubleSlash(s);
    CollapseFixesClean(CollapseSlashes(s));
  }
}
