/**
 The grouping executor: `moveTabsToGroup` and `createNewGroup` as the browser
 calls they issue, and — as an assumption about the browser, not part of the
 extension — what those calls do to a window.
 */
module Executor {
  import opened Base
  import opened Domain
  import opened Rules
  import opened Classifier
  import opened Resolver

  /** One browser call. `GroupTabs(ids, Some(g))` is `chrome.tabs.group` with
      a `groupId`; `GroupTabs(ids, None)` is the same call without one, which
      makes the browser create a group; `UpdateCreatedGroup` is
      `chrome.tabGroups.update` on the group that call created, issued from
      its callback. */
  datatype GroupCall =
    | GroupTabs(tabIds: seq<TabId>, into: Option<int>)
    | UpdateCreatedGroup(title: string, color: string)

  /** The calls one action issues, in order. */
  function Execute(a: Action): (calls: seq<GroupCall>)
    ensures a.NoOp? <==> |calls| == 0
    ensures forall k :: 0 <= k < |calls| && calls[k].GroupTabs? ==> calls[k].tabIds == a.tabIds
    ensures a.JoinExisting? ==> |calls| == 1 && calls[0] == GroupTabs(a.tabIds, Some(a.groupId))
    ensures a.CreateNew? ==> |calls| == 2 && calls[0].GroupTabs? && calls[0].into.None?
    ensures a.CreateNew? ==> calls[1] == UpdateCreatedGroup(a.title, a.color)
  {
    match a
    case NoOp => []
    case JoinExisting(g, ids) => [GroupTabs(ids, Some(g))]
    case CreateNew(ids, title, color) => [GroupTabs(ids, None), UpdateCreatedGroup(title, color)]
  }

  datatype GroupInfo = GroupInfo(title: string, color: string)

  /** A window as the browser holds it: its tabs in order and the title and
      colour of each of its groups. */
  datatype Window = Window(tabs: seq<Tab>, groups: map<int, GroupInfo>)

  /** The tabs whose id is listed, moved into group `g`; the rest unchanged. */
  function MoveInto(tabs: seq<Tab>, ids: seq<TabId>, g: int): (r: seq<Tab>)
    ensures |r| == |tabs|
    ensures forall i :: 0 <= i < |tabs| ==>
              r[i].id == tabs[i].id && r[i].url == tabs[i].url
              && r[i].groupId == (if tabs[i].id in ids then g else tabs[i].groupId)
  {
    Map(tabs, (t: Tab) => if t.id in ids then t.(groupId := g) else t)
  }

  /** The browser's response to one call. `created` is the id the browser
      gives a group it creates; a new group is untitled until updated (the
      browser's own choice of initial colour is not modelled). */
  function ApplyCall(w: Window, call: GroupCall, created: int): Window {
    match call
    case GroupTabs(ids, Some(g)) => w.(tabs := MoveInto(w.tabs, ids, g))
    case GroupTabs(ids, None) =>
      Window(MoveInto(w.tabs, ids, created), w.groups[created := GroupInfo("", "")])
    case UpdateCreatedGroup(title, color) => w.(groups := w.groups[created := GroupInfo(title, color)])
  }

  function ApplyAll(w: Window, calls: seq<GroupCall>, created: int): Window
    decreases |calls|
  {
    if |calls| == 0 then w else ApplyAll(ApplyCall(w, calls[0], created), calls[1..], created)
  }

  /** The group a carried-out action leaves the classified tabs in. */
  function TargetGroup(a: Action, created: int): int
    requires !a.NoOp?
  {
    if a.JoinExisting? then a.groupId else created
  }

  /** Joining moves every classified tab, already placed or not, into the
      group and leaves every group's title and colour as it was. */
  lemma JoinKeepsMetadata(w: Window, a: Action, created: int)
    requires a.JoinExisting?
    ensures ApplyAll(w, Execute(a), created).groups == w.groups
    ensures ApplyAll(w, Execute(a), created).tabs == MoveInto(w.tabs, a.tabIds, a.groupId)
  {
    assert Execute(a)[1..] == [];
  }

  /** Creating adds exactly one group, titled and coloured from the rule, and
      moves every classified tab into it. */
  lemma CreateAddsOneLabelledGroup(w: Window, a: Action, created: int)
    requires a.CreateNew? && created !in w.groups
    ensures ApplyAll(w, Execute(a), created).groups == w.groups[created := GroupInfo(a.title, a.color)]
    ensures ApplyAll(w, Execute(a), created).groups.Keys == w.groups.Keys + {created}
    ensures |ApplyAll(w, Execute(a), created).groups| == |w.groups| + 1
    ensures ApplyAll(w, Execute(a), created).tabs == MoveInto(w.tabs, a.tabIds, created)
  {
    var calls := Execute(a);
    var w1 := ApplyCall(w, calls[0], created);
    var w2 := ApplyCall(w1, calls[1], created);
    assert w1.groups == w.groups[created := GroupInfo("", "")];
    assert ApplyAll(w, calls, created) == ApplyAll(w1, calls[1..], created);
    assert calls[1..][1..] == [];
    assert ApplyAll(w1, calls[1..], created) == ApplyAll(w2, calls[1..][1..], created);
  }

  /** Whichever way an action places the tabs, carrying it out moves the
      classified tabs into its target group and touches no other tab. */
  lemma CarryOutMovesTabs(w: Window, a: Action, created: int)
    requires !a.NoOp? && (a.CreateNew? ==> created !in w.groups)
    ensures ApplyAll(w, Execute(a), created).tabs == MoveInto(w.tabs, a.tabIds, TargetGroup(a, created))
  {
    if a.JoinExisting? {
      JoinKeepsMetadata(w, a, created);
    } else {
      CreateAddsOneLabelledGroup(w, a, created);
    }
  }

  /** Moving tabs between groups does not change which tabs are classified. */
  lemma {:induction false} MoveKeepsClassification(parse: HostParser, target: string, tabs: seq<Tab>, ids: seq<TabId>, g: int)
    ensures Classify(parse, target, MoveInto(tabs, ids, g)) == Classify(parse, target, tabs)
  {
    SameKeysSameClusterIds(parse, target, MoveInto(tabs, ids, g), tabs);
    ClassifyIsClusterIds(parse, target, MoveInto(tabs, ids, g));
    ClassifyIsClusterIds(parse, target, tabs);
  }

  /** Two windows whose tabs agree on id and URL, position by position,
      classify alike. */
  lemma {:induction false} SameKeysSameClusterIds(parse: HostParser, target: string, xs: seq<Tab>, ys: seq<Tab>)
    requires |xs| == |ys|
    requires forall i :: 0 <= i < |xs| ==> xs[i].id == ys[i].id && xs[i].url == ys[i].url
    ensures IdsOf(ClusterTabs(parse, target, xs)) == IdsOf(ClusterTabs(parse, target, ys))
  {
    if |xs| > 0 {
      SameKeysSameClusterIds(parse, target, xs[1..], ys[1..]);
      ClusterTabsUnfold(parse, target, xs);
      ClusterTabsUnfold(parse, target, ys);
      var hx := if InCluster(parse, target, xs[0]) then [xs[0]] else [];
      var hy := if InCluster(parse, target, ys[0]) then [ys[0]] else [];
      IdsOfConcat(hx, ClusterTabs(parse, target, xs[1..]));
      IdsOfConcat(hy, ClusterTabs(parse, target, ys[1..]));
      assert IdsOf(hx) == IdsOf(hy);
    }
  }

  /** Once the classified tabs have been moved into a real group, resolving
      the same ids again joins that same group: a second run is stable. */
  lemma RerunJoinsSameGroup(ids: seq<TabId>, tabs: seq<Tab>, g: int, rule: Rule)
    requires IsExistingGroup(g)
    requires exists t :: t in tabs && t.id in ids
    ensures Resolve(ids, MoveInto(tabs, ids, g), rule) == JoinExisting(g, ids)
  {
    var moved := MoveInto(tabs, ids, g);
    var t :| t in tabs && t.id in ids;
    var k :| 0 <= k < |tabs| && tabs[k] == t;
    assert AlreadyGrouped(ids, moved[k]);
    var a := Resolve(ids, moved, rule);
    var i :| 0 <= i < |moved| && AlreadyGrouped(ids, moved[i]) && moved[i].groupId == a.groupId;
  }
}
