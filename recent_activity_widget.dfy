/**
 * The recent-activity card: six sample events and the per-tab filter by
 * event type ("all", "commit", "pr", "jira").
 */
module RecentActivityWidget {
  import opened Optional
  import opened JsArray

  datatype Activity = Activity(
    id: int, kind: string, user: string, action: string, target: string, time: string, avatar: string)

  const Activities: seq<Activity> := [
    Activity(1, "commit", "Sarah Miller", "pushed 3 commits to", "feature/auth", "10 min ago", "SM"),
    Activity(2, "pr", "Mike Roberts", "opened PR", "#892 - OAuth integration", "25 min ago", "MR"),
    Activity(3, "jira", "Anna Kim", "moved", "PROJ-145 to In Progress", "1 hour ago", "AK"),
    Activity(4, "commit", "John Doe", "pushed 1 commit to", "main", "2 hours ago", "JD"),
    Activity(5, "pr", "Tom Chen", "merged PR", "#889 - Notifications", "3 hours ago", "TC"),
    Activity(6, "jira", "Sarah Miller", "completed", "PROJ-140", "4 hours ago", "SM")
  ]

  /** The tabs, in the order they are rendered. */
  const Tabs: seq<string> := ["all", "commit", "pr", "jira"]

  function OfKind(kind: string): Activity -> bool {
    (a: Activity) => a.kind == kind
  }

  /** `!type || type === "all"`: an absent or empty type, or "all". */
  predicate ShowsAll(kind: Option<string>) {
    kind.None? || kind.value == "" || kind.value == "all"
  }

  /** `filterActivities(type)` over a list of activities. */
  function FilterActivities(acts: seq<Activity>, kind: Option<string>): (r: seq<Activity>)
    ensures ShowsAll(kind) ==> r == acts
    ensures !ShowsAll(kind) ==>
      IsSubsequence(r, acts) &&
      (forall k :: 0 <= k < |r| ==> r[k].kind == kind.value) &&
      (forall k :: 0 <= k < |acts| && acts[k].kind == kind.value ==> acts[k] in r) &&
      (forall k :: 0 <= k < |acts| ==>
        multiset(r)[acts[k]] == if acts[k].kind == kind.value then multiset(acts)[acts[k]] else 0)
  {
    if ShowsAll(kind) then acts
    else
      forall k | 0 <= k < |acts|
        ensures multiset(Filter(acts, OfKind(kind.value)))[acts[k]] ==
          if acts[k].kind == kind.value then multiset(acts)[acts[k]] else 0
      {
        FilterMultiplicity(acts, OfKind(kind.value), acts[k]);
      }
      Filter(acts, OfKind(kind.value))
  }

  /** A type no activity has selects nothing. */
  lemma UnknownKindIsEmpty(acts: seq<Activity>, kind: string)
    requires kind != "" && kind != "all"
    requires forall k :: 0 <= k < |acts| ==> acts[k].kind != kind
    ensures FilterActivities(acts, Some(kind)) == []
  {
    FilterKeepsNone(acts, OfKind(kind));
  }

  /** A type tab other than "all" shows `filter` by that type. */
  lemma TypeTab(acts: seq<Activity>, kind: string)
    requires kind in {"commit", "pr", "jira"}
    ensures FilterActivities(acts, Some(kind)) == Filter(acts, OfKind(kind))
  {
    assert |kind| != |""| && |kind| != |"all"|;
  }

  /** When every activity is a commit, a PR or a ticket move, the three
      type tabs together list each activity exactly once. */
  lemma {:induction false} KindsPartition(acts: seq<Activity>)
    requires forall k :: 0 <= k < |acts| ==> acts[k].kind in {"commit", "pr", "jira"}
    ensures Count(acts, OfKind("commit")) + Count(acts, OfKind("pr")) + Count(acts, OfKind("jira")) == |acts|
  {
    if acts != [] {
      KindsPartition(acts[1..]);
      CountCons(acts, OfKind("commit"));
      CountCons(acts, OfKind("pr"));
      CountCons(acts, OfKind("jira"));
      assert |"commit"| != |"pr"| && |"pr"| != |"jira"| && |"commit"| != |"jira"|;
    }
  }

  lemma KindTabsPartition(acts: seq<Activity>)
    requires forall k :: 0 <= k < |acts| ==> acts[k].kind in {"commit", "pr", "jira"}
    ensures |FilterActivities(acts, Some("commit"))| + |FilterActivities(acts, Some("pr"))|
      + |FilterActivities(acts, Some("jira"))| == |acts|
  {
    KindsPartition(acts);
    TypeTab(acts, "commit");
    TypeTab(acts, "pr");
    TypeTab(acts, "jira");
  }

  /** The kinds of the sample activities, in order. */
  predicate SampleKinds(acts: seq<Activity>) {
    |acts| == 6 &&
    acts[0].kind == "commit" && acts[1].kind == "pr" && acts[2].kind == "jira" &&
    acts[3].kind == "commit" && acts[4].kind == "pr" && acts[5].kind == "jira"
  }

  lemma SampleShape()
    ensures SampleKinds(Activities)
  {
  }

  lemma CountsOfSampleKinds(acts: seq<Activity>)
    requires SampleKinds(acts)
    ensures Count(acts, OfKind("commit")) == 2
    ensures Count(acts, OfKind("pr")) == 2
    ensures Count(acts, OfKind("jira")) == 2
  {
    CountOfSix(acts, OfKind("commit"));
    CountOfSix(acts, OfKind("pr"));
    CountOfSix(acts, OfKind("jira"));
  }

  /** On the sample data each type tab lists two activities, and the three tabs
      list all six between them. */
  lemma SampleTabs()
    ensures |FilterActivities(Activities, Some("commit"))| == 2
    ensures |FilterActivities(Activities, Some("pr"))| == 2
    ensures |FilterActivities(Activities, Some("jira"))| == 2
    ensures FilterActivities(Activities, Some(Tabs[0])) == Activities
  {
    SampleShape();
    CountsOfSampleKinds(Activities);
    TypeTab(Activities, "commit");
    TypeTab(Activities, "pr");
    TypeTab(Activities, "jira");
  }
}
