/**
 The tab classifier: the `tabs.filter(...).map(t => t.id)` step of
 `handleTabGrouping`, which picks the window's tabs that share the target
 domain's cluster.
 */
module Classifier {
  import opened Base
  import opened JsString
  import opened Domain
  import opened Rules

  type TabId = int

  /** A tab as the browser reports it. `url` is None where the browser gives
      no URL; `groupId` is -1 (`TAB_GROUP_ID_NONE`) for an ungrouped tab. */
  datatype Tab = Tab(id: TabId, url: Option<string>, groupId: int)

  /** `t.url` is truthy: present and non-empty. */
  predicate HasUrl(t: Tab) {
    t.url.Some? && |t.url.value| > 0
  }

  /** Two domains belong to one cluster when they are equal or one is a
      dot-bounded subdomain of the other. */
  predicate Related(target: string, tabDomain: string) {
    || tabDomain == target
    || EndsWith(tabDomain, "." + target)
    || EndsWith(target, "." + tabDomain)
  }

  /** The tab has a URL, that URL yields a domain, and the domain is related
      to the target. */
  predicate InCluster(parse: HostParser, target: string, t: Tab) {
    && HasUrl(t)
    && var d := ExtractDomain(parse, t.url.value);
       d.Some? && Related(target, d.value)
  }

  function IdsOf(tabs: seq<Tab>): (ids: seq<TabId>)
    ensures |ids| == |tabs|
    ensures forall i :: 0 <= i < |tabs| ==> ids[i] == tabs[i].id
  {
    Map(tabs, (t: Tab) => t.id)
  }

  /** The tabs of the cluster, in window order. Subsequence and membership
      fix the result because the browser gives every tab a distinct id, so no
      two tabs of a window are equal. */
  function ClusterTabs(parse: HostParser, target: string, tabs: seq<Tab>): (c: seq<Tab>)
    ensures IsSubsequence(c, tabs)
    ensures forall t :: t in c <==> t in tabs && InCluster(parse, target, t)
  {
    Filter(tabs, (t: Tab) => InCluster(parse, target, t))
  }

  lemma ClusterTabsUnfold(parse: HostParser, target: string, tabs: seq<Tab>)
    requires |tabs| > 0
    ensures ClusterTabs(parse, target, tabs)
         == (if InCluster(parse, target, tabs[0]) then [tabs[0]] else []) + ClusterTabs(parse, target, tabs[1..])
  {
  }

  lemma IdsOfConcat(a: seq<Tab>, b: seq<Tab>)
    ensures IdsOf(a + b) == IdsOf(a) + IdsOf(b)
  {
  }

  /** The id list `handleTabGrouping` builds: the ids of exactly the cluster's
      tabs, in window order. Since the browser's tab ids are distinct, the
      three clauses fix the list. */
  function Classify(parse: HostParser, target: string, tabs: seq<Tab>): (ids: seq<TabId>)
    ensures IsSubsequence(ids, IdsOf(tabs))
    ensures forall t :: t in tabs && InCluster(parse, target, t) ==> t.id in ids
    ensures forall k :: 0 <= k < |ids| ==>
              exists t :: t in tabs && InCluster(parse, target, t) && t.id == ids[k]
  {
    var c := ClusterTabs(parse, target, tabs);
    MapKeepsSubsequence(c, tabs, (t: Tab) => t.id);
    assert forall t :: t in c ==> t.id in IdsOf(c) by {
      forall t | t in c ensures t.id in IdsOf(c) {
        var i :| 0 <= i < |c| && c[i] == t;
        assert IdsOf(c)[i] == t.id;
      }
    }
    assert forall k :: 0 <= k < |c| ==> c[k] in c;
    IdsOf(c)
  }

  /** Nothing is classified exactly when no tab of the window is in the
      cluster. */
  lemma ClassifyEmptyIff(parse: HostParser, target: string, tabs: seq<Tab>)
    ensures |Classify(parse, target, tabs)| == 0 <==> forall t :: t in tabs ==> !InCluster(parse, target, t)
  {
    var ids := Classify(parse, target, tabs);
    if |ids| > 0 {
      var t :| t in tabs && InCluster(parse, target, t) && t.id == ids[0];
    }
  }

  /** The classified ids are the ids of the cluster's tabs. */
  lemma ClassifyIsClusterIds(parse: HostParser, target: string, tabs: seq<Tab>)
    ensures Classify(parse, target, tabs) == IdsOf(ClusterTabs(parse, target, tabs))
  {
  }

  /** A window whose every tab belongs to the cluster is its own cluster. */
  lemma {:induction false} WholeWindowClustered(parse: HostParser, target: string, tabs: seq<Tab>)
    requires forall i :: 0 <= i < |tabs| ==> InCluster(parse, target, tabs[i])
    ensures ClusterTabs(parse, target, tabs) == tabs
  {
    if |tabs| > 0 {
      WholeWindowClustered(parse, target, tabs[1..]);
      ClusterTabsUnfold(parse, target, tabs);
    }
  }

  /** Two tabs of one cluster are both classified, in window order. */
  lemma BothTabsClassified(parse: HostParser, target: string, t1: Tab, t2: Tab)
    requires InCluster(parse, target, t1) && InCluster(parse, target, t2)
    ensures Classify(parse, target, [t1, t2]) == [t1.id, t2.id]
  {
    WholeWindowClustered(parse, target, [t1, t2]);
    ClassifyIsClusterIds(parse, target, [t1, t2]);
  }

  /** A tab whose hostname is empty has the domain "", and the third test
      reads `target.endsWith(".")`: such a tab joins the cluster of every
      target ending in a dot, as in `https://example.com./`. */
  lemma EmptyHostJoinsDotTarget(parse: HostParser, target: string, t: Tab)
    requires HasUrl(t) && parse(t.url.value) == Some("") && EndsWith(target, ".")
    ensures InCluster(parse, target, t) && InClusterAsWritten(parse, target, t)
  {
    assert "." + "" == ".";
  }

  /** The relation between the two domains is symmetric. */
  lemma RelatedIsSymmetric(a: string, b: string)
    ensures Related(a, b) <==> Related(b, a)
  {
  }

  /** Classification is bidirectional: of two tabs with domains, each is in
      the cluster of the other's domain exactly when the other is in its own. */
  lemma ClassifyIsBidirectional(parse: HostParser, tabs: seq<Tab>, a: Tab, b: Tab)
    requires a in tabs && b in tabs && HasUrl(a) && HasUrl(b)
    requires ExtractDomain(parse, a.url.value).Some? && ExtractDomain(parse, b.url.value).Some?
    ensures b in ClusterTabs(parse, ExtractDomain(parse, a.url.value).value, tabs)
        <==> a in ClusterTabs(parse, ExtractDomain(parse, b.url.value).value, tabs)
  {
    RelatedIsSymmetric(ExtractDomain(parse, a.url.value).value, ExtractDomain(parse, b.url.value).value);
  }

  /** A tab without a URL, or whose URL does not parse, is never classified. */
  lemma UngroupableTabExcluded(parse: HostParser, target: string, tabs: seq<Tab>, t: Tab)
    requires !HasUrl(t) || ExtractDomain(parse, t.url.value).None?
    ensures t !in ClusterTabs(parse, target, tabs)
  {
  }

  /** The triggering tab's domain always clusters with itself, so if the
      window holds a tab with the triggering URL its id is classified. */
  lemma OwnTabClassified(parse: HostParser, tabs: seq<Tab>, t: Tab)
    requires t in tabs && HasUrl(t) && ExtractDomain(parse, t.url.value).Some?
    ensures t.id in Classify(parse, ExtractDomain(parse, t.url.value).value, tabs)
  {
  }

  /** Matching a rule does not carry over to the cluster: a rule for
      `mail.google.com` selects that domain, whose cluster takes in a
      `google.com` tab the rule itself would reject. */
  lemma ClusterReachesBeyondRule()
    ensures PatternMatches("mail.google.com", "mail.google.com")
    ensures Related("mail.google.com", "google.com")
    ensures !PatternMatches("google.com", "mail.google.com")
  {
    assert "mail.google.com"[4..] == ".google.com";
    assert "google.com"[0] != "mail.google.com"[0];
  }

  // ---------------------------------------------------------------------
  // The classifier as background.js:89-91 writes it. For a tab whose URL
  // does not parse, `tabDomain` is null and `'.' + tabDomain` is the string
  // ".null", so such a tab joins every target domain ending in ".null".
  // `Classify` above is the corrected classifier the rest of the model uses.
  // ---------------------------------------------------------------------

  /** JavaScript's string conversion of an extracted domain, as `+` applies it. */
  function JsStringOf(d: Option<string>): string {
    match d
    case Some(s) => s
    case None => "null"
  }

  predicate InClusterAsWritten(parse: HostParser, target: string, t: Tab) {
    && HasUrl(t)
    && var d := ExtractDomain(parse, t.url.value);
       || d == Some(target)
       || (d.Some? && EndsWith(d.value, "." + target))
       || EndsWith(target, "." + JsStringOf(d))
  }

  function ClassifyAsWritten(parse: HostParser, target: string, tabs: seq<Tab>): (ids: seq<TabId>)
    ensures |ids| <= |tabs|
    ensures forall t :: t in tabs && InClusterAsWritten(parse, target, t) ==> t.id in ids
  {
    var c := Filter(tabs, (t: Tab) => InClusterAsWritten(parse, target, t));
    assert forall t :: t in c ==> t.id in IdsOf(c) by {
      forall t | t in c ensures t.id in IdsOf(c) {
        var i :| 0 <= i < |c| && c[i] == t;
        assert IdsOf(c)[i] == t.id;
      }
    }
    IdsOf(c)
  }

  /** The discrepancy: a tab whose non-empty URL does not parse is classified
      as written whenever the target ends in ".null", and never by the
      corrected classifier. */
  lemma UnparseableTabJoinsNullTarget(parse: HostParser, target: string, tabs: seq<Tab>, t: Tab)
    requires t in tabs && HasUrl(t) && parse(t.url.value).None?
    requires EndsWith(target, ".null")
    ensures t.id in ClassifyAsWritten(parse, target, tabs)
    ensures t !in ClusterTabs(parse, target, tabs)
  {
    assert JsStringOf(ExtractDomain(parse, t.url.value)) == "null";
  }

  /** Concrete instance: a tab on `http://a.null/` gathers a tab whose URL
      does not parse. */
  lemma NullTargetCounterexample(parse: HostParser)
    requires parse("::") == None
    ensures 2 in ClassifyAsWritten(parse, "a.null", [Tab(1, Some("http://a.null/"), -1), Tab(2, Some("::"), -1)])
    ensures 2 !in Classify(parse, "a.null", [Tab(1, Some("http://a.null/"), -1), Tab(2, Some("::"), -1)])
  {
    var tabs := [Tab(1, Some("http://a.null/"), -1), Tab(2, Some("::"), -1)];
    assert "a.null"[1..] == ".null";
    UnparseableTabJoinsNullTarget(parse, "a.null", tabs, tabs[1]);
  }

  /** Away from ".null" targets the as-written and corrected classifiers
      agree on every window. */
  lemma AsWrittenAgreesOffNullTargets(parse: HostParser, target: string, tabs: seq<Tab>)
    requires !EndsWith(target, ".null")
    ensures ClassifyAsWritten(parse, target, tabs) == Classify(parse, target, tabs)
  {
    forall i | 0 <= i < |tabs|
      ensures InClusterAsWritten(parse, target, tabs[i]) == InCluster(parse, target, tabs[i])
    {
      RelatedIsSymmetric(target, target);
    }
    FilterCongruent(tabs, (t: Tab) => InClusterAsWritten(parse, target, t), (t: Tab) => InCluster(parse, target, t));
  }
}
