/**
  The label directory of a split is derived from its image directory with
  Python's `str.replace('images', 'labels')` (yolo_dataset_stats.py:50):
  every non-overlapping occurrence of the pattern, found scanning from the
  left, is replaced.
 */
module PathRewrite {

  const IMAGES: string := "images"
  const LABELS: string := "labels"

  predicate StartsWith(s: string, p: string) {
    |p| <= |s| && s[..|p|] == p
  }

  /** `p` occurs somewhere in `s` (Python's `p in s`). */
  predicate Contains(s: string, p: string)
    decreases |s|
  {
    StartsWith(s, p) || (s != [] && Contains(s[1..], p))
  }

  /**
    Python's `s.replace(pat, rep)` for a non-empty pattern: scan from the
    left; where `pat` starts, emit `rep` and resume after the match,
    otherwise keep one character.
   */
  function ReplaceAll(s: string, pat: string, rep: string): (r: string)
    requires pat != []
    ensures |pat| == |rep| ==> |r| == |s|
    ensures !Contains(s, pat) ==> r == s
    decreases |s|
  {
    if StartsWith(s, pat) then rep + ReplaceAll(s[|pat|..], pat, rep)
    else if s == [] then []
    else [s[0]] + ReplaceAll(s[1..], pat, rep)
  }

  /** `img_dir.replace('images', 'labels')`. */
  function LabelDir(imagesDir: string): (labelsDir: string)
    ensures |labelsDir| == |imagesDir|
    ensures !Contains(imagesDir, IMAGES) ==> labelsDir == imagesDir
  {
    ReplaceAll(imagesDir, IMAGES, LABELS)
  }

  /** A prefix free of the pattern, in front of a match, is copied unchanged. */
  lemma {:induction false} CleanPrefixKept(a: string, t: string)
    requires !Contains(a, IMAGES)
    requires StartsWith(t, IMAGES)
    ensures LabelDir(a + t) == a + LabelDir(t)
    decreases |a|
  {
    if a != [] {
      assert !StartsWith(a + t, IMAGES) by {
        if |a| >= |IMAGES| {
          assert (a + t)[..|IMAGES|] == a[..|IMAGES|];
        } else {
          // the 'i' of the match in `t` would sit at an index of IMAGES holding no 'i'
          assert (a + t)[|a|] == t[0] == 'i';
          assert IMAGES[|a|] != 'i';
        }
      }
      assert (a + t)[1..] == a[1..] + t;
      assert !Contains(a[1..], IMAGES);
      CleanPrefixKept(a[1..], t);
      calc {
        LabelDir(a + t);
        [a[0]] + LabelDir(a[1..] + t);
        [a[0]] + (a[1..] + LabelDir(t));
        { assert [a[0]] + a[1..] == a; }
        a + LabelDir(t);
      }
    } else {
      assert a + t == t;
    }
  }

  /**
    A path holding exactly one occurrence of `images` has that one segment
    turned into `labels` and is otherwise identical.
   */
  lemma {:induction false} SingleSegmentReplaced(a: string, b: string)
    requires !Contains(a, IMAGES) && !Contains(b, IMAGES)
    ensures LabelDir(a + IMAGES + b) == a + LABELS + b
  {
    assert StartsWith(IMAGES + b, IMAGES);
    CleanPrefixKept(a, IMAGES + b);
    assert (IMAGES + b)[|IMAGES|..] == b;
    assert a + IMAGES + b == a + (IMAGES + b);
  }

  /**
    The rewrite never creates the tail `w` of a word at the front of its
    output unless the input already began with it, provided no suffix of
    `w` is a prefix of `labels` (so no emitted `labels` can supply it).
   */
  lemma {:induction false} TailNotCreated(t: string, w: string)
    requires 0 < |w| < |LABELS|
    requires forall j :: 0 <= j < |w| ==> !StartsWith(LABELS, w[j..])
    ensures StartsWith(LabelDir(t), w) ==> StartsWith(t, w)
    decreases |w|
  {
    if StartsWith(t, IMAGES) {
      assert LabelDir(t) == LABELS + LabelDir(t[|IMAGES|..]);
      assert !StartsWith(LabelDir(t), w) by {
        assert w[0..] == w;
        assert LabelDir(t)[..|w|] == LABELS[..|w|];
      }
    } else if t != [] {
      assert LabelDir(t) == [t[0]] + LabelDir(t[1..]);
      if |w| > 1 && StartsWith(LabelDir(t), w) {
        assert LabelDir(t[1..])[..|w| - 1] == LabelDir(t)[1..|w|];
        forall j | 0 <= j < |w| - 1 ensures !StartsWith(LABELS, w[1..][j..]) {
          assert w[1..][j..] == w[j + 1..];
        }
        TailNotCreated(t[1..], w[1..]);
        assert t[..|w|] == [t[0]] + t[1..][..|w| - 1];
      }
    }
  }

  lemma LabelsTailFree()
    ensures forall j :: 0 <= j < 5 ==> !StartsWith(LABELS, LABELS[1..][j..])
  {
    forall j | 0 <= j < 5 ensures !StartsWith(LABELS, LABELS[1..][j..]) {
      var w := LABELS[1..][j..];
      if j == 3 {
        assert w == "ls";
        assert LABELS[1] != w[1];
      } else {
        assert w[0] == LABELS[j + 1];
        assert w[0] != LABELS[0];
      }
    }
  }

  lemma ImagesTailFree()
    ensures forall j :: 0 <= j < 5 ==> !StartsWith(LABELS, IMAGES[1..][j..])
  {
    forall j | 0 <= j < 5 ensures !StartsWith(LABELS, IMAGES[1..][j..]) {
      assert IMAGES[1..][j..][0] == IMAGES[j + 1] != 'l';
    }
  }

  /** Text before which no 'i' occurs cannot host the start of an `images`. */
  lemma {:induction false} NoMatchInLabels(y: string)
    requires !Contains(y, IMAGES)
    ensures !Contains(LABELS + y, IMAGES)
  {
    var k := 0;
    while k < |LABELS|
      invariant 0 <= k <= |LABELS|
      invariant Contains(LABELS + y, IMAGES) ==> Contains((LABELS + y)[k..], IMAGES)
    {
      assert (LABELS + y)[k] == LABELS[k] != 'i';
      assert !StartsWith((LABELS + y)[k..], IMAGES);
      assert (LABELS + y)[k..][1..] == (LABELS + y)[k + 1..];
      k := k + 1;
    }
    assert (LABELS + y)[|LABELS|..] == y;
  }

  /** Every occurrence is replaced: no `images` survives the rewrite. */
  lemma {:induction false} NoImagesRemain(s: string)
    ensures !Contains(LabelDir(s), IMAGES)
    decreases |s|
  {
    if StartsWith(s, IMAGES) {
      NoImagesRemain(s[|IMAGES|..]);
      NoMatchInLabels(LabelDir(s[|IMAGES|..]));
    } else if s != [] {
      var r := LabelDir(s);
      NoImagesRemain(s[1..]);
      assert r == [s[0]] + LabelDir(s[1..]);
      assert r[1..] == LabelDir(s[1..]);
      if StartsWith(r, IMAGES) {
        assert StartsWith(LabelDir(s[1..]), IMAGES[1..]) by {
          assert LabelDir(s[1..])[..|IMAGES| - 1] == r[1..|IMAGES|];
        }
        ImagesTailFree();
        TailNotCreated(s[1..], IMAGES[1..]);
        assert false;
      }
    }
  }

  /**
    On a path that does not already contain `labels`, the reverse rewrite
    recovers the image directory from the label directory.
   */
  lemma {:induction false} LabelDirRoundTrip(s: string)
    requires !Contains(s, LABELS)
    ensures ReplaceAll(LabelDir(s), LABELS, IMAGES) == s
    decreases |s|
  {
    var r := LabelDir(s);
    if StartsWith(s, IMAGES) {
      assert r == LABELS + LabelDir(s[|IMAGES|..]);
      assert !Contains(s[|IMAGES|..], LABELS) by { SuffixKeepsAbsence(s, |IMAGES|, LABELS); }
      LabelDirRoundTrip(s[|IMAGES|..]);
      assert StartsWith(r, LABELS);
      assert r[|LABELS|..] == LabelDir(s[|IMAGES|..]);
      assert IMAGES + s[|IMAGES|..] == s;
    } else if s != [] {
      assert r == [s[0]] + LabelDir(s[1..]);
      assert r[1..] == LabelDir(s[1..]);
      LabelDirRoundTrip(s[1..]);
      if StartsWith(r, LABELS) {
        assert StartsWith(LabelDir(s[1..]), LABELS[1..]) by {
          assert LabelDir(s[1..])[..|LABELS| - 1] == r[1..|LABELS|];
        }
        LabelsTailFree();
        TailNotCreated(s[1..], LABELS[1..]);
        assert false;
      }
      assert [s[0]] + s[1..] == s;
    }
  }

  lemma {:induction false} SuffixKeepsAbsence(s: string, n: nat, p: string)
    requires n <= |s|
    requires !Contains(s, p)
    ensures !Contains(s[n..], p)
    decreases n
  {
    if n > 0 {
      SuffixKeepsAbsence(s[1..], n - 1, p);
      assert s[1..][n - 1..] == s[n..];
    }
  }
}
