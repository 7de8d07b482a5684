/** Which releases scripts/prune-control-plane-releases.sh keeps and which it removes. */
module Retention {
  import opened Names
  import opened Sequences

  type Tag = Name

  function Unprotected(tags: seq<Tag>, safe: set<Tag>): nat {
    if tags == [] then 0 else Unprotected(tags[..|tags| - 1], safe) + if tags[|tags| - 1] in safe then 0 else 1
  }

  function Min(a: int, b: int): int { if a < b then a else b }

  function Max(a: int, b: int): int { if a < b then b else a }

  /** Whatever is dropped is older than everything kept for its age, and only dropped when the quota is full. */
  ghost predicate NewestFirst(tags: seq<Tag>, keep: set<Tag>, safe: set<Tag>, retention: nat) {
    && (forall j | 0 <= j < |tags| && tags[j] !in keep :: retention <= |keep|)
    && forall i, j | 0 <= i < |tags| && 0 <= j < |tags| && tags[i] in keep - safe && tags[j] !in keep :: i < j
  }

  ghost predicate RightSize(tags: seq<Tag>, keep: set<Tag>, safe: set<Tag>, retention: nat) {
    && safe <= keep && (forall t | t in keep :: t in safe || t in tags)
    && |keep| == Max(|safe|, Min(retention, |safe| + Unprotected(tags, safe)))
  }

  function Chosen(keep: set<Tag>, t: Tag, retention: nat): set<Tag> {
    if t !in keep && |keep| < retention then keep + {t} else keep
  }

  lemma ChosenSize(tags: seq<Tag>, t: Tag, keep: set<Tag>, safe: set<Tag>, retention: nat)
    requires RightSize(tags, keep, safe, retention) && t !in tags
    ensures RightSize(tags + [t], Chosen(keep, t, retention), safe, retention)
  {
    assert (tags + [t])[..|tags|] == tags;
    assert Unprotected(tags + [t], safe) == Unprotected(tags, safe) + if t in safe then 0 else 1;
    hide Unprotected;
  }

  lemma ChosenOrder(tags: seq<Tag>, t: Tag, keep: set<Tag>, safe: set<Tag>, retention: nat)
    requires NewestFirst(tags, keep, safe, retention) && t !in tags && (t in keep ==> t in safe)
    ensures NewestFirst(tags + [t], Chosen(keep, t, retention), safe, retention)
  {
    var more := tags + [t];
    assert forall i | 0 <= i < |tags| :: more[i] == tags[i] && more[i] != t;
  }

  lemma NewTag(ordered: seq<Tag>, n: nat)
    requires Distinct(ordered) && n < |ordered|
    ensures ordered[n] !in ordered[..n] && ordered[..n + 1] == ordered[..n] + [ordered[n]] && Distinct(ordered[..n])
  {
  }

  lemma KeptIsSafe(tags: seq<Tag>, t: Tag, keep: set<Tag>, safe: set<Tag>, retention: nat)
    requires RightSize(tags, keep, safe, retention) && t !in tags && t in keep
    ensures t in safe
  {
    hide Unprotected;
  }

  /** The greedy loop over releases, newest first. */
  method Retain(ordered: seq<Tag>, installed: Tag, deployed: Tag, retention: nat) returns (keep: set<Tag>)
    requires Distinct(ordered) && retention > 0
    ensures var safe := {installed, deployed};
      && safe <= keep && (forall t | t in keep :: t in safe || t in ordered)
      && |keep| == Max(|safe|, Min(retention, |safe| + Unprotected(ordered, safe)))
      && forall i, j | 0 <= i < |ordered| && 0 <= j < |ordered| && ordered[i] in keep - safe && ordered[j] !in keep :: i < j
  {
    var safe := {installed, deployed};
    keep := safe;
    var keepCount := |keep|;
    for n := 0 to |ordered|
      invariant keepCount == |keep|
      invariant RightSize(ordered[..n], keep, safe, retention) && NewestFirst(ordered[..n], keep, safe, retention)
    {
      NewTag(ordered, n);
      if ordered[n] in keep { KeptIsSafe(ordered[..n], ordered[n], keep, safe, retention); }
      hide RightSize, NewestFirst, Distinct, Unprotected;
      ChosenSize(ordered[..n], ordered[n], keep, safe, retention);
      ChosenOrder(ordered[..n], ordered[n], keep, safe, retention);
      if ordered[n] !in keep && keepCount < retention {
        keep := keep + {ordered[n]};
        keepCount := keepCount + 1;
      }
    }
    assert ordered[..|ordered|] == ordered;
  }

  // ---------------------------------------------------------------- pruning

  datatype Removal = Image(tag: Tag) | Directory(tag: Tag) | Archive(tag: Tag)

  /** What goes with a release, in the script's order; the image only if docker has it. */
  function Removals(t: Tag, images: set<Tag>): seq<Removal> {
    (if t in images then [Image(t)] else []) + [Directory(t), Archive(t)]
  }

  /** Everything the script sets out to remove. */
  function Plan(ordered: seq<Tag>, keep: set<Tag>, images: set<Tag>): seq<Removal> {
    if ordered == [] then []
    else
      var n := |ordered| - 1;
      Plan(ordered[..n], keep, images) + if ordered[n] in keep then [] else Removals(ordered[n], images)
  }

  lemma {:induction false} PlanGrows(ordered: seq<Tag>, n: nat, keep: set<Tag>, images: set<Tag>)
    requires n <= |ordered|
    ensures Plan(ordered[..n], keep, images) <= Plan(ordered, keep, images)
  {
    var last := |ordered| - 1;
    if n <= last {
      PlanGrows(ordered[..last], n, keep, images);
      assert ordered[..last][..n] == ordered[..n];
    } else {
      assert ordered[..n] == ordered;
    }
  }

  /** Stopped at the first removal that fails, with all earlier ones done. */
  ghost predicate Progress(done: seq<Removal>, plan: seq<Removal>, failing: set<Removal>) {
    done <= plan && (forall r | r in done :: r !in failing) && (|done| < |plan| ==> plan[|done|] in failing)
  }

  /** Removes in order until something fails. */
  method RemoveAll(removals: seq<Removal>, failing: set<Removal>) returns (done: seq<Removal>)
    ensures Progress(done, removals, failing)
  {
    done := [];
    for i := 0 to |removals|
      invariant done == removals[..i] && forall r | r in done :: r !in failing
    {
      if removals[i] in failing { return; }
      done := done + [removals[i]];
    }
  }

  /** The pruning loop under `set -e`. */
  method Prune(ordered: seq<Tag>, keep: set<Tag>, images: set<Tag>, failing: set<Removal>) returns (done: seq<Removal>, ok: bool)
    ensures Progress(done, Plan(ordered, keep, images), failing)
    ensures ok <==> done == Plan(ordered, keep, images)
  {
    done := [];
    for n := 0 to |ordered|
      invariant done == Plan(ordered[..n], keep, images) && forall r | r in done :: r !in failing
    {
      var tag := ordered[n];
      assert ordered[..n + 1][..n] == ordered[..n];
      if tag in keep { continue; }
      PlanGrows(ordered, n + 1, keep, images);
      var now := RemoveAll(Removals(tag, images), failing);
      ghost var next := Plan(ordered[..n + 1], keep, images);
      assert next == done + Removals(tag, images);
      done := done + now;
      if |now| < |Removals(tag, images)| {
        assert next[|done|] == Removals(tag, images)[|now|];
        return done, false;
      }
    }
    assert ordered[..|ordered|] == ordered;
    ok := true;
  }

  ghost predicate Covers(plan: seq<Removal>, ordered: seq<Tag>, keep: set<Tag>, images: set<Tag>) {
    && (forall r | r in plan :: r.tag in ordered && r.tag !in keep && (r.Image? ==> r.tag in images))
    && (forall t | t in ordered && t !in keep ::
          Directory(t) in plan && Archive(t) in plan && (t in images ==> Image(t) in plan))
  }

  lemma OneTag(t: Tag, images: set<Tag>)
    ensures Distinct(Removals(t, images)) && (forall r | r in Removals(t, images) :: r.tag == t && (r.Image? ==> t in images))
    ensures Directory(t) in Removals(t, images) && Archive(t) in Removals(t, images) && (t in images ==> Image(t) in Removals(t, images))
  {
    if t in images { assert Removals(t, images) == [Image(t), Directory(t), Archive(t)]; }
  }

  lemma CoversMore(plan: seq<Removal>, ordered: seq<Tag>, t: Tag, keep: set<Tag>, images: set<Tag>)
    requires Covers(plan, ordered, keep, images)
    ensures Covers(plan + (if t in keep then [] else Removals(t, images)), ordered + [t], keep, images)
  {
    OneTag(t, images);
    hide Removals;
  }

  lemma TogetherDistinct(a: seq<Removal>, b: seq<Removal>, tags: seq<Tag>, t: Tag)
    requires Distinct(a) && Distinct(b) && t !in tags
    requires (forall r | r in a :: r.tag in tags) && forall r | r in b :: r.tag == t
    ensures Distinct(a + b)
  {
    forall i, j | 0 <= i < j < |a + b| ensures (a + b)[i] != (a + b)[j] {
      if i < |a| <= j { assert a[i] in a && b[j - |a|] in b; }
    }
  }

  /** The plan spares every kept tag, takes directory and archive of every other one, each thing once, and a directory only after its image. */
  lemma PlanStep(ordered: seq<Tag>, keep: set<Tag>, images: set<Tag>)
    requires ordered != []
    ensures var n := |ordered| - 1;
      Plan(ordered, keep, images) == Plan(ordered[..n], keep, images) + if ordered[n] in keep then [] else Removals(ordered[n], images)
  {
    hide Removals;
  }

  lemma EmptyPlan(keep: set<Tag>, images: set<Tag>)
    ensures Plan([], keep, images) == [] && Covers([], [], keep, images)
  {
  }

  lemma {:induction false} PlanIsRight(ordered: seq<Tag>, keep: set<Tag>, images: set<Tag>)
    requires Distinct(ordered)
    ensures Distinct(Plan(ordered, keep, images)) && Covers(Plan(ordered, keep, images), ordered, keep, images)
  {
    hide Plan, Removals, Covers;
    if ordered == [] {
      EmptyPlan(keep, images);
    } else {
      var n := |ordered| - 1;
      var earlier, last := Plan(ordered[..n], keep, images), Removals(ordered[n], images);
      NewTag(ordered, n);
      assert ordered[..n + 1] == ordered;
      hide Distinct;
      PlanIsRight(ordered[..n], keep, images);
      PlanStep(ordered, keep, images);
      OneTag(ordered[n], images);
      CoversMore(earlier, ordered[..n], ordered[n], keep, images);
      if ordered[n] in keep {
        assert earlier + [] == earlier;
      } else {
        CoveredTags(earlier, ordered[..n], keep, images);
        TogetherDistinct(earlier, last, ordered[..n], ordered[n]);
      }
    }
  }

  lemma CoveredTags(plan: seq<Removal>, ordered: seq<Tag>, keep: set<Tag>, images: set<Tag>)
    requires Covers(plan, ordered, keep, images)
    ensures forall r | r in plan :: r.tag in ordered
  {
  }

  /** Whatever point the script reaches, a directory is only gone after the release's image, and an archive after its directory. */
  lemma {:induction false} ImagesGoFirst(ordered: seq<Tag>, keep: set<Tag>, images: set<Tag>, done: seq<Removal>, t: Tag)
    requires Distinct(ordered) && done <= Plan(ordered, keep, images)
    ensures Directory(t) in done && t in images ==> Image(t) in done
    ensures Archive(t) in done ==> Directory(t) in done
  {
    if ordered != [] {
      var n := |ordered| - 1;
      var earlier, last := Plan(ordered[..n], keep, images), if ordered[n] in keep then [] else Removals(ordered[n], images);
      assert Plan(ordered, keep, images) == earlier + last;
      PlanIsRight(ordered[..n], keep, images);
      if |done| <= |earlier| {
        assert done <= earlier;
        ImagesGoFirst(ordered[..n], keep, images, done, t);
      } else {
        ImagesGoFirst(ordered[..n], keep, images, earlier, t);
        LastOnes(earlier, last, done, t, ordered[n], images, keep);
      }
    }
  }

  lemma LastOnes(earlier: seq<Removal>, last: seq<Removal>, done: seq<Removal>, t: Tag, tag: Tag, images: set<Tag>, keep: set<Tag>)
    requires last == if tag in keep then [] else Removals(tag, images)
    requires done <= earlier + last && |done| > |earlier|
    requires Directory(t) in earlier && t in images ==> Image(t) in earlier
    requires Archive(t) in earlier ==> Directory(t) in earlier
    ensures Directory(t) in done && t in images ==> Image(t) in done
    ensures Archive(t) in done ==> Directory(t) in done
  {
    var some := done[|earlier|..];
    assert done == earlier + some && some <= last && some[0] == last[0];
    if |some| > 1 { assert some[1] == last[1]; }
    if |some| > 2 { assert some[2] == last[2]; }
  }
}
