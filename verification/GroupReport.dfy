/**
  What a finished job tells about its group: the folded status, the triggers that run, and the
  tag in the subject of the group's email.
*/
module GroupReport {
  import opened Prelude
  import opened BuildFarm
  import Text

  // ---------------------------------------------------------------------------
  // The status fold
  // ---------------------------------------------------------------------------

  predicate AllSuccess(jobs: seq<Status>) {
    forall i | 0 <= i < |jobs| :: jobs[i].Success?
  }

  predicate AllDone(jobs: seq<Status>) {
    forall i | 0 <= i < |jobs| :: jobs[i].Terminal()
  }

  /** `status` is the last entry that is not a success. */
  ghost predicate LastTrouble(jobs: seq<Status>, status: Status) {
    exists i :: 0 <= i < |jobs| && jobs[i] == status && !status.Success? && AllSuccess(jobs[i + 1..])
  }

  /** `done` and `status` are right for the jobs read so far. */
  ghost predicate Folded(jobs: seq<Status>, done: bool, status: Status) {
    && (done <==> AllDone(jobs))
    && (status.Success? <==> AllSuccess(jobs))
    && (!status.Success? ==> LastTrouble(jobs, status))
  }

  function Unfinished(st: Status): bool {
    st.Running? || st.Queued? || st.Pending?
  }

  lemma AllOneMore(jobs: seq<Status>, job: Status)
    ensures AllDone(jobs + [job]) <==> AllDone(jobs) && job.Terminal()
    ensures AllSuccess(jobs + [job]) <==> AllSuccess(jobs) && job.Success?
  {
    var all := jobs + [job];
    assert all[|jobs|] == job && forall i | 0 <= i < |jobs| :: all[i] == jobs[i];
    if AllDone(all) {
      assert forall i | 0 <= i < |jobs| :: all[i].Terminal();
    }
    if AllSuccess(all) {
      assert forall i | 0 <= i < |jobs| :: all[i].Success?;
    }
  }

  lemma FoldOneMore(jobs: seq<Status>, done: bool, status: Status, job: Status)
    requires Folded(jobs, done, status)
    ensures var status' := if job.Success? then status else job;
      Folded(jobs + [job], done && !Unfinished(status'), status')
  {
    var all := jobs + [job];
    AllOneMore(jobs, job);
    if !job.Success? {
      assert all[|jobs|] == job && AllSuccess(all[|jobs| + 1..]);
    } else if !status.Success? {
      var i :| 0 <= i < |jobs| && jobs[i] == status && AllSuccess(jobs[i + 1..]);
      assert all[i] == status && all[i + 1..] == jobs[i + 1..] + [job];
      AllOneMore(jobs[i + 1..], job);
      assert AllDone(jobs) ==> jobs[i].Terminal();
    }
  }

  /** The group's status: done exactly when every member is, a success exactly when every member is. */
  method FoldStatus(jobs: seq<Status>) returns (done: bool, status: Status)
    ensures done <==> AllDone(jobs)
    ensures status.Success? <==> AllSuccess(jobs)
    ensures !status.Success? ==> LastTrouble(jobs, status)
  {
    done, status := true, Success;
    for i := 0 to |jobs|
      invariant Folded(jobs[..i], done, status)
    {
      FoldOneMore(jobs[..i], done, status, jobs[i]);
      assert jobs[..i + 1] == jobs[..i] + [jobs[i]];
      if !jobs[i].Success? {
        status := jobs[i];
      }
      if status.Running? || status.Queued? || status.Pending? {
        done := false;
      }
    }
    assert jobs[..|jobs|] == jobs;
  }

  // ---------------------------------------------------------------------------
  // The completeness aggregate
  // ---------------------------------------------------------------------------

  /** sum(CASE WHEN status not in ('pending', 'queued') THEN 1 ELSE 0 END) */
  function PastQueue(jobs: seq<Status>): nat {
    if jobs == [] then 0
    else (if jobs[0].Pending? || jobs[0].Queued? then 0 else 1) + PastQueue(jobs[1..])
  }

  /** GetJobGroup's `complete`: the sum equals the count exactly when no member is pending or queued. */
  lemma {:induction false} CompleteMeansPastQueue(jobs: seq<Status>)
    ensures PastQueue(jobs) <= |jobs|
    ensures PastQueue(jobs) == |jobs| <==> forall i | 0 <= i < |jobs| :: !jobs[i].Pending? && !jobs[i].Queued?
  {
    if jobs != [] {
      CompleteMeansPastQueue(jobs[1..]);
      assert forall i | 0 < i < |jobs| :: jobs[i] == jobs[1..][i - 1];
    }
  }

  // ---------------------------------------------------------------------------
  // The trigger loop
  // ---------------------------------------------------------------------------

  datatype Condition = WhenAlways | WhenFailure | WhenSuccess
  datatype GroupTrigger = GroupTrigger(condition: Condition, email: bool)

  predicate Failure(st: Status) {
    st.Failed? || st.Timeout? || st.Cancelled?
  }

  /** The condition as the loop tests it: success is looked up in the finishing job. */
  predicate Met(t: GroupTrigger, group: Status, finishing: Status) {
    || t.condition.WhenAlways?
    || (t.condition.WhenFailure? && Failure(group))
    || (t.condition.WhenSuccess? && finishing.Success?)
  }

  /**
    Runs the email triggers whose condition is met, in order; other actions are only logged.  An `always`
    trigger is always met, a `failure` trigger by a group that failed, timed out or was cancelled, and a
    `success` trigger by a finishing job that succeeded.
  */
  method RunGroupTriggers(triggers: seq<GroupTrigger>, group: Status, finishing: Status) returns (ran: seq<nat>)
    ensures forall i :: i in ran <==> 0 <= i < |triggers| && triggers[i].email && Met(triggers[i], group, finishing)
    ensures forall i, k | 0 <= i < k < |ran| :: ran[i] < ran[k]
    ensures forall i | i in ran :: i < |triggers| && triggers[i].email
    ensures forall i | 0 <= i < |triggers| && triggers[i].email && triggers[i].condition.WhenAlways? :: i in ran
    ensures forall i | 0 <= i < |triggers| && triggers[i].email && triggers[i].condition.WhenFailure? ::
      i in ran <==> group in {Failed, Timeout, Cancelled}
    ensures forall i | 0 <= i < |triggers| && triggers[i].email && triggers[i].condition.WhenSuccess? ::
      i in ran <==> finishing == Success
  {
    ran := [];
    for i := 0 to |triggers|
      invariant forall k :: k in ran <==> 0 <= k < i && triggers[k].email && Met(triggers[k], group, finishing)
      invariant forall j, k | 0 <= j < k < |ran| :: ran[j] < ran[k]
    {
      var process := triggers[i].condition.WhenAlways?;
      if Failure(group) {
        process := process || triggers[i].condition.WhenFailure?;
      }
      if finishing.Success? {
        process := process || triggers[i].condition.WhenSuccess?;
      }
      if process {
        if triggers[i].email {
          assert forall k | 0 <= k < |ran| :: ran[k] in ran;
          ran := ran + [i];
        }
      }
    }
  }

  /** On a finished group the failure triggers run exactly when some member did not succeed. */
  lemma FailureConditionIsRight(jobs: seq<Status>, group: Status, finishing: Status, email: bool)
    requires AllDone(jobs) && (group.Success? <==> AllSuccess(jobs)) && (!group.Success? ==> LastTrouble(jobs, group))
    ensures Met(GroupTrigger(WhenFailure, email), group, finishing) <==> !AllSuccess(jobs)
  {
  }

  // ---------------------------------------------------------------------------
  // The tag fold
  // ---------------------------------------------------------------------------

  type Tags = seq<string>

  /** The two lists have the same entry wherever both have one. */
  predicate Agree(a: Tags, b: Tags) {
    forall i | 0 <= i < |a| && i < |b| :: a[i] == b[i]
  }

  ghost predicate Refuted(tags: Tags, lists: seq<Tags>) {
    exists l :: l in lists && !Agree(tags, l)
  }

  /** `tags` is the longest prefix of `first` that agrees with every list. */
  ghost predicate LongestAgreeing(tags: Tags, first: Tags, lists: seq<Tags>) {
    && tags <= first
    && !Refuted(tags, lists)
    && forall n | |tags| < n <= |first| :: Refuted(first[..n], lists)
  }

  /** The tag lists of the tagged jobs, in order. */
  function TagLists(jobs: seq<Option<string>>): seq<Tags> {
    if jobs == [] then []
    else
      var before := TagLists(jobs[..|jobs| - 1]);
      var last := jobs[|jobs| - 1];
      if last.Some? then before + [Text.Split(last.value, "/")] else before
  }

  /** Cuts `tags` at the first entry on which `jt` differs. */
  method CutAtDifference(tags: Tags, jt: Tags) returns (cut: Tags)
    ensures cut <= tags && Agree(cut, jt)
    ensures |cut| < |tags| ==> |cut| < |jt| && tags[|cut|] != jt[|cut|]
  {
    cut := tags;
    var i := 0;
    while i < |jt|
      invariant 0 <= i <= |jt| && cut == tags
      invariant forall k | 0 <= k < i && k < |tags| :: tags[k] == jt[k]
    {
      if i < |cut| && cut[i] != jt[i] {
        cut := cut[..i];
        return;
      }
      i := i + 1;
    }
  }

  /** The subject tag of a group: none without a tagged job, else the longest agreeing prefix of the first. */
  method FoldTags(jobs: seq<Option<string>>) returns (tags: Option<Tags>)
    ensures tags.None? <==> TagLists(jobs) == []
    ensures tags.Some? ==> LongestAgreeing(tags.value, TagLists(jobs)[0], TagLists(jobs))
  {
    tags := None;
    for i := 0 to |jobs|
      invariant tags.None? <==> TagLists(jobs[..i]) == []
      invariant tags.Some? ==> LongestAgreeing(tags.value, TagLists(jobs[..i])[0], TagLists(jobs[..i]))
    {
      ghost var lists := TagLists(jobs[..i]);
      assert jobs[..i + 1][..i] == jobs[..i];
      if jobs[i].Some? {
        var jt := Text.Split(jobs[i].value, "/");
        assert TagLists(jobs[..i + 1]) == lists + [jt];
        if tags.None? {
          tags := Some(jt);
        } else {
          var cut := CutAtDifference(tags.value, jt);
          CutIsLongest(tags.value, cut, lists[0], lists, jt);
          tags := Some(cut);
        }
      } else {
        assert TagLists(jobs[..i + 1]) == lists;
      }
    }
    assert jobs[..|jobs|] == jobs;
  }

  lemma CutIsLongest(tags: Tags, cut: Tags, first: Tags, lists: seq<Tags>, jt: Tags)
    requires LongestAgreeing(tags, first, lists)
    requires cut <= tags && Agree(cut, jt) && (|cut| < |tags| ==> |cut| < |jt| && tags[|cut|] != jt[|cut|])
    ensures LongestAgreeing(cut, first, lists + [jt])
  {
    forall n | |cut| < n <= |first| ensures Refuted(first[..n], lists + [jt]) {
      if n <= |tags| {
        assert first[..n][|cut|] == tags[|cut|];
        assert jt in lists + [jt] && !Agree(first[..n], jt);
      } else {
        assert Refuted(first[..n], lists);
        var l :| l in lists && !Agree(first[..n], l);
        assert l in lists + [jt];
      }
    }
  }

  predicate CommonPrefix(p: Tags, lists: seq<Tags>) {
    forall l | l in lists :: p <= l
  }

  /** A list that is shorter than the first one and ends before any list disagrees with the first. */
  ghost predicate EndsTooEarly(l: Tags, first: Tags, lists: seq<Tags>) {
    |l| < |first| && !Refuted(first[..|l| + 1], lists)
  }

  lemma RefutedLonger(first: Tags, n: nat, m: nat, lists: seq<Tags>)
    requires n <= m <= |first| && Refuted(first[..n], lists)
    ensures Refuted(first[..m], lists)
  {
    var l :| l in lists && !Agree(first[..n], l);
    var i :| 0 <= i < n && i < |l| && first[..n][i] != l[i];
    assert first[..m][i] != l[i];
  }

  /**
    The folded tag is a common prefix of all the tag lists exactly when no list ends before the first
    disagreement, and then it is the longest one.
  */
  lemma WhenTagsAreCommon(tags: Tags, lists: seq<Tags>)
    requires lists != [] && LongestAgreeing(tags, lists[0], lists)
    ensures CommonPrefix(tags, lists) <==> !exists l :: l in lists && EndsTooEarly(l, lists[0], lists)
    ensures CommonPrefix(tags, lists) ==> forall p | CommonPrefix(p, lists) :: |p| <= |tags|
  {
    var first := lists[0];
    assert tags == first[..|tags|];
    forall l | l in lists ensures tags <= l <==> !EndsTooEarly(l, first, lists) {
      assert Agree(tags, l);
      if |l| < |tags| {
        if Refuted(first[..|l| + 1], lists) {
          RefutedLonger(first, |l| + 1, |tags|, lists);
        }
      } else if |l| < |first| {
        assert Refuted(first[..|tags| + 1], lists);
        RefutedLonger(first, |tags| + 1, |l| + 1, lists);
      }
    }
    forall p | CommonPrefix(p, lists) ensures |p| <= |tags| {
      assert lists[0] in lists && p == lists[0][..|p|];
      assert !Refuted(p, lists);
    }
  }

  /** In particular when all tag lists have the same length. */
  lemma TagsOfEqualLength(tags: Tags, lists: seq<Tags>)
    requires lists != [] && LongestAgreeing(tags, lists[0], lists)
    requires forall l | l in lists :: |l| == |lists[0]|
    ensures CommonPrefix(tags, lists) && forall p | CommonPrefix(p, lists) :: |p| <= |tags|
  {
    WhenTagsAreCommon(tags, lists);
  }

  /** What stands in the subject's brackets. */
  function Subject(tags: Option<Tags>): string {
    if tags.Some? then Text.Join(tags.value, "/") else "builds.sr.ht"
  }

  lemma {:induction false} SharedTagLists(jobs: seq<Option<string>>, tag: string)
    requires forall i | 0 <= i < |jobs| && jobs[i].Some? :: jobs[i].value == tag
    ensures forall l | l in TagLists(jobs) :: l == Text.Split(tag, "/")
  {
    if jobs != [] {
      SharedTagLists(jobs[..|jobs| - 1], tag);
    }
  }

  /** Jobs that share one tag string give the group's email exactly this string; untagged ones the site's name. */
  lemma SharedTagIsSubject(jobs: seq<Option<string>>, tags: Tags, tag: string)
    requires forall i | 0 <= i < |jobs| && jobs[i].Some? :: jobs[i].value == tag
    requires TagLists(jobs) != [] && LongestAgreeing(tags, TagLists(jobs)[0], TagLists(jobs))
    ensures Subject(Some(tags)) == tag && Subject(None) == "builds.sr.ht"
  {
    var lists := TagLists(jobs);
    SharedTagLists(jobs, tag);
    assert lists[0] in lists;
    var first := lists[0];
    assert !Refuted(first, lists);
    assert first[..|first|] == first;
    assert |tags| == |first| && tags == first;
    Text.JoinSplit(tag, "/");
  }

  /** A later, shorter tag list does not cut the tag. */
  lemma ShorterListKeepsTag(lists: seq<Tags>)
    requires lists == [["a", "b"], ["a"]]
    ensures LongestAgreeing(["a", "b"], lists[0], lists) && !CommonPrefix(["a", "b"], lists)
  {
    assert lists[1] in lists && |lists[1]| < 2;
  }
}
