/**
 The group resolver: the decision `checkExistingGroups` takes over the
 classified ids and a snapshot of the window's tabs, returned as an action
 value instead of being carried out.
 */
module Resolver {
  import opened Base
  import opened Rules
  import opened Classifier

  /** `chrome.tabGroups.TAB_GROUP_ID_NONE`. */
  const TabGroupIdNone: int := -1

  /** `groupId` is truthy (non-zero) and not `TAB_GROUP_ID_NONE`. */
  predicate IsExistingGroup(groupId: int) {
    groupId != 0 && groupId != TabGroupIdNone
  }

  /** The tab is one of the classified tabs and already sits in a group. */
  predicate AlreadyGrouped(ids: seq<TabId>, t: Tab) {
    IsExistingGroup(t.groupId) && t.id in ids
  }

  /** The first value of `existingGroupIds`: the set fills in window order,
      so its first element is the group of the first already-grouped
      classified tab. */
  function ExistingGroup(ids: seq<TabId>, tabs: seq<Tab>): (g: Option<int>)
    ensures g.None? <==> forall i :: 0 <= i < |tabs| ==> !AlreadyGrouped(ids, tabs[i])
    ensures g.Some? ==> IsExistingGroup(g.value)
    ensures g.Some? ==> exists i :: && 0 <= i < |tabs| && AlreadyGrouped(ids, tabs[i])
                                    && tabs[i].groupId == g.value
                                    && forall j :: 0 <= j < i ==> !AlreadyGrouped(ids, tabs[j])
  {
    match FirstWhere(tabs, (t: Tab) => AlreadyGrouped(ids, t))
    case None => None
    case Some(i) => Some(tabs[i].groupId)
  }

  /** What one run asks of the browser. */
  datatype Action =
    | NoOp
      /** `moveTabsToGroup(tabIds, groupId)` */
    | JoinExisting(groupId: int, tabIds: seq<TabId>)
      /** `createNewGroup(tabIds, groupConfig)` */
    | CreateNew(tabIds: seq<TabId>, title: string, color: string)

  /** `checkExistingGroups(tabIds, groupConfig)` over the snapshot `tabs`. */
  function Resolve(ids: seq<TabId>, tabs: seq<Tab>, rule: Rule): (a: Action)
    ensures a.NoOp? <==> |ids| == 0
    ensures a.JoinExisting? ==> a.tabIds == ids && IsExistingGroup(a.groupId)
    ensures a.JoinExisting? ==> exists i :: && 0 <= i < |tabs| && AlreadyGrouped(ids, tabs[i])
                                            && tabs[i].groupId == a.groupId
                                            && forall j :: 0 <= j < i ==> !AlreadyGrouped(ids, tabs[j])
    ensures a.CreateNew? <==> |ids| > 0 && forall i :: 0 <= i < |tabs| ==> !AlreadyGrouped(ids, tabs[i])
    ensures a.CreateNew? ==> a.tabIds == ids && a.title == rule.name && a.color == rule.color
  {
    if |ids| == 0 then NoOp
    else
      match ExistingGroup(ids, tabs)
      case Some(g) => JoinExisting(g, ids)
      case None => CreateNew(ids, rule.name, rule.color)
  }

  /** Classified tabs split across several groups converge on the group of
      the first of them in window order; tabs in other groups move too. */
  lemma SplitTabsConvergeOnFirst(ids: seq<TabId>, tabs: seq<Tab>, rule: Rule, i: nat, j: nat)
    requires i < j < |tabs|
    requires AlreadyGrouped(ids, tabs[i]) && AlreadyGrouped(ids, tabs[j])
    requires forall k :: 0 <= k < i ==> !AlreadyGrouped(ids, tabs[k])
    ensures Resolve(ids, tabs, rule) == JoinExisting(tabs[i].groupId, ids)
  {
    var a := Resolve(ids, tabs, rule);
    assert a.JoinExisting?;
    var i' :| && 0 <= i' < |tabs| && AlreadyGrouped(ids, tabs[i'])
              && tabs[i'].groupId == a.groupId
              && forall k :: 0 <= k < i' ==> !AlreadyGrouped(ids, tabs[k]);
    assert i' == i;
  }

  /** Group ids that are not truthy, or equal `TAB_GROUP_ID_NONE`, never make
      a tab count as grouped: a window whose classified tabs all carry 0 or
      -1 gets a new group. */
  lemma UngroupedWindowCreates(ids: seq<TabId>, tabs: seq<Tab>, rule: Rule)
    requires |ids| > 0
    requires forall i :: 0 <= i < |tabs| ==> tabs[i].groupId == 0 || tabs[i].groupId == TabGroupIdNone
    ensures Resolve(ids, tabs, rule) == CreateNew(ids, rule.name, rule.color)
  {
  }

  /** Two ungrouped tabs, both classified, go into a new group. */
  lemma UngroupedPairCreates(t1: Tab, t2: Tab, rule: Rule)
    requires !IsExistingGroup(t1.groupId) && !IsExistingGroup(t2.groupId)
    ensures Resolve([t1.id, t2.id], [t1, t2], rule) == CreateNew([t1.id, t2.id], rule.name, rule.color)
  {
    var tabs := [t1, t2];
    assert forall i :: 0 <= i < |tabs| ==> tabs[i].groupId == 0 || tabs[i].groupId == TabGroupIdNone;
    UngroupedWindowCreates([t1.id, t2.id], tabs, rule);
  }
}
