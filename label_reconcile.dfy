/** The axis-label reconciliation folds run when several subsets share one
    chart axis. The plain fold (bar chart, 3D bars without Z) keeps the
    longer of two agreeing label lists and replaces them by [""] on a
    collision, so a later subset can still recover. The sticky fold (3D bars
    with Z) gives up for good at the first collision. */
module LabelReconcile {
  import opened PlotParameters

  /** Every two candidates are non-empty and agree on their common part. */
  predicate Pairwise(cands: seq<seq<string>>)
  {
    forall i, j :: 0 <= i < |cands| && 0 <= j < |cands| ==> CommonPartAgrees(cands[i], cands[j])
  }

  /** One step of the plain fold after the first list. */
  function MergeLabels(prev: seq<string>, cur: seq<string>): seq<string>
  {
    if CommonPartAgrees(prev, cur) then (if |prev| < |cur| then cur else prev)
    else [""]
  }

  /** The plain fold: the first list initialises the labels, agreeing lists
      keep the longer one, and a collision leaves the single label "". */
  function FoldLabels(cands: seq<seq<string>>): (r: seq<string>)
    ensures |cands| == 0 ==> r == []
    ensures |cands| > 0 ==> r == [""] || r in cands
  {
    if |cands| == 0 then []
    else if |cands| == 1 then cands[0]
    else MergeLabels(FoldLabels(cands[..|cands| - 1]), cands[|cands| - 1])
  }

  /** Prefix order on label lists is transitive. */
  lemma PrefixTrans(a: seq<string>, b: seq<string>, c: seq<string>)
    requires a <= b && b <= c
    ensures a <= c
  {
    assert a == c[..|a|] by {
      assert b == c[..|b|];
      assert a == b[..|a|];
    }
  }

  /** Merging a list that agrees with the running labels keeps a label list
      that extends both of them. */
  lemma MergeAgreeing(prev: seq<string>, cur: seq<string>)
    requires CommonPartAgrees(prev, cur)
    ensures prev <= MergeLabels(prev, cur) && cur <= MergeLabels(prev, cur)
  {
    CommonPartIsPrefix(prev, cur);
  }

  /** With pairwise agreeing candidates the plain fold picks a candidate
      that extends every other, i.e. the longest one. */
  lemma {:induction false} FoldCompatible(cands: seq<seq<string>>)
    requires |cands| > 0 && Pairwise(cands)
    ensures FoldLabels(cands) in cands
    ensures forall k :: 0 <= k < |cands| ==> cands[k] <= FoldLabels(cands)
  {
    if |cands| > 1 {
      var init := cands[..|cands| - 1];
      var cur := cands[|cands| - 1];
      assert Pairwise(init) by {
        forall i, j | 0 <= i < |init| && 0 <= j < |init| ensures CommonPartAgrees(init[i], init[j]) {
          assert init[i] == cands[i] && init[j] == cands[j];
        }
      }
      FoldCompatible(init);
      var prev := FoldLabels(init);
      var m :| 0 <= m < |init| && init[m] == prev;
      assert cands[m] == prev;
      MergeAgreeing(prev, cur);
      var r := FoldLabels(cands);
      forall k | 0 <= k < |cands| ensures cands[k] <= r {
        if k < |init| {
          assert init[k] == cands[k];
          PrefixTrans(cands[k], prev, r);
        }
      }
    }
  }

  /** Running state of the sticky fold: whether no collision was seen, and
      the labels gathered so far. */
  datatype StickyLabels = StickyLabels(same: bool, labels: seq<string>)

  const StickyInit := StickyLabels(true, [])

  /** One step of the sticky fold: nothing once a collision was seen;
      otherwise an empty running list takes the new one, agreeing lists
      keep the longer one, and a disagreement clears the flag. */
  function StickyStep(st: StickyLabels, cur: seq<string>): StickyLabels
  {
    if !st.same then st
    else if |st.labels| == 0 then st.(labels := cur)
    else if CommonPartAgrees(st.labels, cur) then
      (if |st.labels| < |cur| then st.(labels := cur) else st)
    else st.(same := false)
  }

  /** The sticky fold over the candidates in order. Once the flag is clear
      nothing changes any more. */
  function StickyFold(st: StickyLabels, cands: seq<seq<string>>): (r: StickyLabels)
    ensures !st.same ==> r == st
    ensures r.same ==> st.same
  {
    if |cands| == 0 then st
    else StickyStep(StickyFold(st, cands[..|cands| - 1]), cands[|cands| - 1])
  }

  /** The labels handed to every series: [""] after a collision. */
  function FinalLabels(st: StickyLabels): seq<string>
  {
    if st.same then st.labels else [""]
  }

  /** Folding two stretches one after the other is folding their concatenation,
      so the flag, once clear, stays clear for every later candidate. */
  lemma {:induction false} StickyFoldAppend(st: StickyLabels, a: seq<seq<string>>, b: seq<seq<string>>)
    ensures StickyFold(st, a + b) == StickyFold(StickyFold(st, a), b)
    ensures !StickyFold(st, a).same ==> StickyFold(st, a + b) == StickyFold(st, a)
  {
    if |b| > 0 {
      assert (a + b)[..|a + b| - 1] == a + b[..|b| - 1];
      assert (a + b)[|a + b| - 1] == b[|b| - 1];
      StickyFoldAppend(st, a, b[..|b| - 1]);
    } else {
      assert a + b == a;
    }
  }

  /** While no collision was seen, the running labels extend every candidate
      and are either empty or one of them. */
  lemma {:induction false} StickyUpperBound(cands: seq<seq<string>>)
    ensures var r := StickyFold(StickyInit, cands);
            r.same ==>
              && (r.labels == [] || r.labels in cands)
              && forall k :: 0 <= k < |cands| ==> cands[k] <= r.labels
  {
    if |cands| > 0 {
      var init := cands[..|cands| - 1];
      var cur := cands[|cands| - 1];
      StickyUpperBound(init);
      var st := StickyFold(StickyInit, init);
      var r := StickyFold(StickyInit, cands);
      if r.same {
        assert forall k :: 0 <= k < |init| ==> init[k] == cands[k];
        if |st.labels| == 0 {
          forall k | 0 <= k < |cands| ensures cands[k] <= r.labels {
            if k < |init| { assert init[k] <= st.labels; }
          }
        } else {
          MergeAgreeing(st.labels, cur);
          forall k | 0 <= k < |cands| ensures cands[k] <= r.labels {
            if k < |init| {
              assert init[k] <= st.labels;
              PrefixTrans(cands[k], st.labels, r.labels);
            }
          }
          if r.labels == st.labels {
            var m :| 0 <= m < |init| && init[m] == st.labels;
            assert cands[m] == r.labels;
          }
        }
      }
    }
  }

  /** When the flag survives, no two candidates collide: every pair of
      non-empty candidates agrees on its common part. */
  lemma StickySameMeansAgreement(cands: seq<seq<string>>, i: int, j: int)
    requires 0 <= i < |cands| && 0 <= j < |cands| && |cands[i]| > 0 && |cands[j]| > 0
    requires StickyFold(StickyInit, cands).same
    ensures CommonPartAgrees(cands[i], cands[j])
  {
    StickyUpperBound(cands);
    var l := StickyFold(StickyInit, cands).labels;
    assert cands[i] == l[..|cands[i]|] && cands[j] == l[..|cands[j]|];
  }

  /** With pairwise agreeing candidates the sticky flag survives, and both
      folds end on the same labels. */
  lemma {:induction false} StickyPairwise(cands: seq<seq<string>>)
    requires Pairwise(cands)
    ensures StickyFold(StickyInit, cands).same
    ensures StickyFold(StickyInit, cands).labels == FoldLabels(cands)
  {
    if |cands| > 0 {
      var init := cands[..|cands| - 1];
      var cur := cands[|cands| - 1];
      assert Pairwise(init) by {
        forall i, j | 0 <= i < |init| && 0 <= j < |init| ensures CommonPartAgrees(init[i], init[j]) {
          assert init[i] == cands[i] && init[j] == cands[j];
        }
      }
      StickyPairwise(init);
      if |init| > 0 {
        FoldCompatible(init);
        var prev := FoldLabels(init);
        var m :| 0 <= m < |init| && init[m] == prev;
        assert CommonPartAgrees(cands[m], cur);
      }
    }
  }

  /** The two folds differ after a collision: the plain fold recovers when a
      later list starts with "", the sticky fold does not. */
  lemma CollisionRecovery()
    ensures FoldLabels([["a"], ["b"], ["", "c"]]) == ["", "c"]
    ensures FinalLabels(StickyFold(StickyInit, [["a"], ["b"], ["", "c"]])) == [""]
  {
    var cands := [["a"], ["b"], ["", "c"]];
    assert cands[..1] == [["a"]];
    assert cands[..2] == [["a"], ["b"]];
    assert cands[..2][..1] == [["a"]];
    assert FoldLabels(cands[..2]) == [""];
    assert StickyFold(StickyInit, cands[..1]) == StickyLabels(true, ["a"]);
    assert !CommonPartAgrees(["a"], ["b"]) by { assert ["a"][0] != ["b"][0]; }
    assert StickyFold(StickyInit, cands[..2]) == StickyLabels(false, ["a"]);
  }

  /** A longer agreeing list replaces the running one; a disagreeing one collides. */
  lemma FoldExamples()
    ensures FoldLabels([["a", "b"], ["a", "b", "c"]]) == ["a", "b", "c"]
    ensures FoldLabels([["a", "b"], ["x", "y"]]) == [""]
  {
    assert [["a", "b"], ["a", "b", "c"]][..1] == [["a", "b"]];
    assert [["a", "b"], ["x", "y"]][..1] == [["a", "b"]];
    assert !CommonPartAgrees(["a", "b"], ["x", "y"]) by {
      assert ["a", "b"][0] != ["x", "y"][0];
    }
  }
  /** One step of the plain fold, as the source spells it out: the first
      list initialises, agreeing lists keep the longer one, a collision
      leaves [""]. */
  method PlainUpdate(prev: seq<string>, cur: seq<string>, first: bool) returns (r: seq<string>)
    ensures r == if first then cur else MergeLabels(prev, cur)
  {
    if first {
      r := cur;  // init
    } else {
      var agree := CommonPartEqual(prev, cur);
      if agree {
        r := if |prev| < |cur| then cur else prev;  // the longer list wins
      } else {
        r := [""];  // collision
      }
    }
  }

  /** Folding one more list is one more step of the plain fold. */
  lemma FoldLabelsSnoc(cands: seq<seq<string>>, cur: seq<string>)
    ensures FoldLabels(cands + [cur]) == if |cands| == 0 then cur else MergeLabels(FoldLabels(cands), cur)
  {
    assert (cands + [cur])[..|cands|] == cands;
  }

  /** One step of the sticky fold, as the source spells it out. */
  method StickyUpdate(st: StickyLabels, cur: seq<string>) returns (r: StickyLabels)
    ensures r == StickyStep(st, cur)
  {
    r := st;
    if r.same {
      if |r.labels| == 0 {
        r := r.(labels := cur);  // init
      } else {
        var agree := CommonPartEqual(r.labels, cur);
        if agree {
          if |r.labels| < |cur| {
            r := r.(labels := cur);  // the longer list wins
          }
        } else {
          r := r.(same := false);  // collision, for good
        }
      }
    }
  }

  /** Folding one more candidate is one more step. */
  lemma StickyFoldSnoc(st: StickyLabels, cands: seq<seq<string>>, cur: seq<string>)
    ensures StickyFold(st, cands + [cur]) == StickyStep(StickyFold(st, cands), cur)
  {
    assert (cands + [cur])[..|cands|] == cands;
  }

}
