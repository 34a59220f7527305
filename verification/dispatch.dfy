/**
 The event dispatcher: the `onCreated`/`onUpdated` listeners and
 `checkAndGroupTab`, chaining normaliser, matcher, classifier and resolver
 into one run. The browser's answers (the stored rule list and the two tab
 queries) are inputs of a run; its requests are the returned action.
 */
module Dispatch {
  import opened Base
  import opened JsString
  import opened Domain
  import opened Rules
  import opened Classifier
  import opened Resolver
  import opened Executor

  /** The two events a run starts from. `status` is `changeInfo.status`. */
  datatype Event =
    | Created(tab: Tab)
    | Updated(tabId: TabId, status: Option<string>, tab: Tab)

  const NewTabUrl: string := "chrome://newtab/"
  const StatusComplete: string := "complete"

  /** The listeners' guard: a truthy URL other than the new-tab page, and for
      an update a load that has completed. */
  predicate Triggers(e: Event) {
    && HasUrl(e.tab) && e.tab.url.value != NewTabUrl
    && (e.Updated? ==> e.status == Some(StatusComplete))
  }

  /** `data.tabGroups || []`. */
  function StoredRules(stored: Option<seq<Rule>>): seq<Rule> {
    match stored
    case None => []
    case Some(rules) => rules
  }

  /** Where a run stops early. */
  datatype Halt = NotTriggered | NotGroupable | NoMatchingRule

  datatype Outcome = Halted(reason: Halt) | Decided(rule: Rule, action: Action)

  /** The domain a triggering tab is grouped by. */
  function TriggerDomain(parse: HostParser, e: Event): Option<string>
    requires HasUrl(e.tab)
  {
    ExtractDomain(parse, e.tab.url.value)
  }

  /** One run. `firstQuery` is the window snapshot `handleTabGrouping`
      classifies; `secondQuery` the one `checkExistingGroups` reads group
      membership from. Nothing relates the two. */
  function Run(parse: HostParser, e: Event, stored: Option<seq<Rule>>,
               firstQuery: seq<Tab>, secondQuery: seq<Tab>): (o: Outcome)
    ensures o.Decided? ==> Triggers(e) && TriggerDomain(parse, e).Some?
    ensures o.Decided? ==> |TriggerDomain(parse, e).value| > 0
    ensures o.Decided? && o.action.CreateNew? ==> o.action.title == o.rule.name && o.action.color == o.rule.color
  {
    if !Triggers(e) then Halted(NotTriggered)
    else
      var domain := TriggerDomain(parse, e);
      if domain.None? || |domain.value| == 0 then Halted(NotGroupable)
      else
        match FindMatchingGroup(domain.value, StoredRules(stored))
        case None => Halted(NoMatchingRule)
        case Some(rule) =>
          var ids := Classify(parse, domain.value, firstQuery);
          Decided(rule, Resolve(ids, secondQuery, rule))
  }

  /** The browser calls a run issues. */
  function Effects(o: Outcome): (calls: seq<GroupCall>)
    ensures o.Halted? ==> |calls| == 0
  {
    match o
    case Halted(_) => []
    case Decided(_, a) => Execute(a)
  }

  /** A run starts exactly for a non-empty URL other than the new-tab page,
      and for an update only once its status is "complete". */
  lemma RunGate(parse: HostParser, e: Event, stored: Option<seq<Rule>>, q1: seq<Tab>, q2: seq<Tab>)
    ensures Run(parse, e, stored, q1, q2) == Halted(NotTriggered)
        <==> || e.tab.url.None? || |e.tab.url.value| == 0 || e.tab.url.value == NewTabUrl
             || (e.Updated? && e.status != Some(StatusComplete))
  {
  }

  /** A URL that does not parse stops the run, and nothing is grouped. */
  lemma UnparseableUrlNeverGroups(parse: HostParser, e: Event, stored: Option<seq<Rule>>, q1: seq<Tab>, q2: seq<Tab>)
    requires Triggers(e) && parse(e.tab.url.value).None?
    ensures Run(parse, e, stored, q1, q2) == Halted(NotGroupable)
    ensures Effects(Run(parse, e, stored, q1, q2)) == []
  {
  }

  /** `!domain` also rejects the empty domain, as from a hostname that is
      empty or exactly `www.`. */
  lemma EmptyDomainNeverGroups(parse: HostParser, e: Event, stored: Option<seq<Rule>>, q1: seq<Tab>, q2: seq<Tab>)
    requires Triggers(e)
    requires parse(e.tab.url.value) == Some("") || parse(e.tab.url.value) == Some(WwwPrefix)
    ensures Run(parse, e, stored, q1, q2) == Halted(NotGroupable)
  {
    StripWwwUndoesPrefix("");
    assert WwwPrefix + "" == WwwPrefix;
  }

  /** With no stored rules a run never groups anything. */
  lemma NoRulesNeverGroups(parse: HostParser, e: Event, q1: seq<Tab>, q2: seq<Tab>)
    ensures Effects(Run(parse, e, None, q1, q2)) == []
    ensures Effects(Run(parse, e, Some([]), q1, q2)) == []
  {
  }

  /** What a decided run went through: the guard passed, the URL gave a
      non-empty domain, a rule matched, and the action resolves the cluster
      of the first snapshot against the second. */
  lemma DecidedRun(parse: HostParser, e: Event, stored: Option<seq<Rule>>, q1: seq<Tab>, q2: seq<Tab>)
    requires Run(parse, e, stored, q1, q2).Decided?
    ensures Triggers(e) && TriggerDomain(parse, e).Some? && |TriggerDomain(parse, e).value| > 0
    ensures FindMatchingGroup(TriggerDomain(parse, e).value, StoredRules(stored)) == Some(Run(parse, e, stored, q1, q2).rule)
    ensures Run(parse, e, stored, q1, q2).action
         == Resolve(Classify(parse, TriggerDomain(parse, e).value, q1), q2, Run(parse, e, stored, q1, q2).rule)
  {
  }

  /** A decided run acts on the earliest stored rule matching the domain. */
  lemma RunUsesFirstMatchingRule(parse: HostParser, e: Event, stored: Option<seq<Rule>>, q1: seq<Tab>, q2: seq<Tab>)
    requires Run(parse, e, stored, q1, q2).Decided?
    ensures var rules := StoredRules(stored);
            var d := TriggerDomain(parse, e).value;
            exists i :: && 0 <= i < |rules| && rules[i] == Run(parse, e, stored, q1, q2).rule
                        && RuleMatches(d, rules[i])
                        && forall j :: 0 <= j < i ==> !RuleMatches(d, rules[j])
  {
    DecidedRun(parse, e, stored, q1, q2);
  }

  /** A decided run has nothing to do exactly when the first snapshot holds
      no tab of the cluster. */
  lemma DecidedRunIsNoOpIff(parse: HostParser, e: Event, stored: Option<seq<Rule>>, q1: seq<Tab>, q2: seq<Tab>)
    requires Run(parse, e, stored, q1, q2).Decided?
    ensures Run(parse, e, stored, q1, q2).action.NoOp?
        <==> forall t :: t in q1 ==> !InCluster(parse, TriggerDomain(parse, e).value, t)
  {
    DecidedRun(parse, e, stored, q1, q2);
    ClassifyEmptyIff(parse, TriggerDomain(parse, e).value, q1);
  }

  /** A decided run joins exactly when the second snapshot shows one of the
      classified tabs in a real group, and then joins the group of the first
      such tab; otherwise it creates a group titled and coloured from the
      rule. */
  lemma DecidedRunTarget(parse: HostParser, e: Event, stored: Option<seq<Rule>>, q1: seq<Tab>, q2: seq<Tab>)
    requires Run(parse, e, stored, q1, q2).Decided? && !Run(parse, e, stored, q1, q2).action.NoOp?
    ensures var a := Run(parse, e, stored, q1, q2).action;
            a.JoinExisting? <==> exists i :: 0 <= i < |q2| && AlreadyGrouped(a.tabIds, q2[i])
    ensures var a := Run(parse, e, stored, q1, q2).action;
            a.JoinExisting? ==> exists i :: && 0 <= i < |q2| && AlreadyGrouped(a.tabIds, q2[i])
                                            && q2[i].groupId == a.groupId
                                            && forall j :: 0 <= j < i ==> !AlreadyGrouped(a.tabIds, q2[j])
    ensures var o := Run(parse, e, stored, q1, q2);
            o.action.CreateNew? ==> o.action.title == o.rule.name && o.action.color == o.rule.color
  {
    var o := Run(parse, e, stored, q1, q2);
    DecidedRun(parse, e, stored, q1, q2);
    var ids := Classify(parse, TriggerDomain(parse, e).value, q1);
    assert o.action == Resolve(ids, q2, o.rule);
  }

  /** Away from targets ending in ".null" the run groups exactly the tabs the
      filter as written at background.js:86-92 picks. */
  lemma RunAgreesWithSourceOffNullTargets(parse: HostParser, e: Event, stored: Option<seq<Rule>>, q1: seq<Tab>, q2: seq<Tab>)
    requires Run(parse, e, stored, q1, q2).Decided? && !Run(parse, e, stored, q1, q2).action.NoOp?
    requires !EndsWith(TriggerDomain(parse, e).value, ".null")
    ensures Run(parse, e, stored, q1, q2).action.tabIds == ClassifyAsWritten(parse, TriggerDomain(parse, e).value, q1)
  {
    DecidedRun(parse, e, stored, q1, q2);
    AsWrittenAgreesOffNullTargets(parse, TriggerDomain(parse, e).value, q1);
  }

  /** A triggered run whose URL yields a non-empty domain reaches a decision
      exactly when some stored rule matches that domain. */
  lemma RunDecidesExactlyOnMatch(parse: HostParser, e: Event, stored: Option<seq<Rule>>, q1: seq<Tab>, q2: seq<Tab>)
    requires Triggers(e) && TriggerDomain(parse, e).Some? && |TriggerDomain(parse, e).value| > 0
    ensures Run(parse, e, stored, q1, q2).Decided?
        <==> exists i :: 0 <= i < |StoredRules(stored)| && RuleMatches(TriggerDomain(parse, e).value, StoredRules(stored)[i])
  {
  }

  /** A run whose URL yields a non-empty domain stops for want of a rule
      exactly when no stored rule matches that domain. */
  lemma NoMatchingRuleHalts(parse: HostParser, e: Event, stored: Option<seq<Rule>>, q1: seq<Tab>, q2: seq<Tab>)
    requires Triggers(e) && TriggerDomain(parse, e).Some? && |TriggerDomain(parse, e).value| > 0
    ensures Run(parse, e, stored, q1, q2) == Halted(NoMatchingRule)
        <==> forall i :: 0 <= i < |StoredRules(stored)| ==> !RuleMatches(TriggerDomain(parse, e).value, StoredRules(stored)[i])
  {
  }

  /** A decided run only ever groups tabs of the cluster, as classified from
      the first snapshot, in that snapshot's order. */
  lemma RunGroupsOnlyTheCluster(parse: HostParser, e: Event, stored: Option<seq<Rule>>, q1: seq<Tab>, q2: seq<Tab>)
    requires Run(parse, e, stored, q1, q2).Decided? && !Run(parse, e, stored, q1, q2).action.NoOp?
    ensures var ids := Run(parse, e, stored, q1, q2).action.tabIds;
            && IsSubsequence(ids, IdsOf(q1))
            && forall k :: 0 <= k < |ids| ==>
                 exists t :: t in q1 && InCluster(parse, TriggerDomain(parse, e).value, t) && t.id == ids[k]
    ensures var ids := Run(parse, e, stored, q1, q2).action.tabIds;
            forall t :: t in q1 && InCluster(parse, TriggerDomain(parse, e).value, t) ==> t.id in ids
  {
    RunGroupsClassified(parse, e, stored, q1, q2);
  }

  lemma RunGroupsClassified(parse: HostParser, e: Event, stored: Option<seq<Rule>>, q1: seq<Tab>, q2: seq<Tab>)
    requires Run(parse, e, stored, q1, q2).Decided? && !Run(parse, e, stored, q1, q2).action.NoOp?
    ensures Run(parse, e, stored, q1, q2).action.tabIds == Classify(parse, TriggerDomain(parse, e).value, q1)
  {
    DecidedRun(parse, e, stored, q1, q2);
  }

  /** When the classifying snapshot holds a tab showing the triggering URL,
      the run always groups something. */
  lemma TriggerTabMakesRunAct(parse: HostParser, e: Event, stored: Option<seq<Rule>>, q1: seq<Tab>, q2: seq<Tab>, t: Tab)
    requires Run(parse, e, stored, q1, q2).Decided?
    requires t in q1 && t.url == e.tab.url
    ensures !Run(parse, e, stored, q1, q2).action.NoOp?
  {
    DecidedRun(parse, e, stored, q1, q2);
    OwnTabClassified(parse, q1, t);
  }

  /** Two ungrouped tabs on a site, one with and one without `www.`, and a
      single rule for that site: a run started by the first creates one new
      group, titled and coloured from the rule, holding both tabs. */
  lemma SameSiteTabsGroupTogether(parse: HostParser, t1: Tab, t2: Tab, rule: Rule, site: string)
    requires Triggers(Created(t1)) && HasUrl(t2)
    requires parse(t1.url.value) == Some(site) && parse(t2.url.value) == Some(WwwPrefix + site)
    requires |site| > 0 && !StartsWith(site, WwwPrefix)
    requires RuleMatches(site, rule)
    requires !IsExistingGroup(t1.groupId) && !IsExistingGroup(t2.groupId)
    ensures Run(parse, Created(t1), Some([rule]), [t1, t2], [t1, t2])
         == Decided(rule, CreateNew([t1.id, t2.id], rule.name, rule.color))
  {
    UngroupedPairCreates(t1, t2, rule);
    SameSiteClustered(parse, t1, t2, site);
    SingleRuleMatch(site, rule);
    RunDecides(parse, Created(t1), Some([rule]), [t1, t2], [t1, t2], site, rule);
  }

  lemma SameSiteClustered(parse: HostParser, t1: Tab, t2: Tab, site: string)
    requires HasUrl(t1) && HasUrl(t2)
    requires parse(t1.url.value) == Some(site) && parse(t2.url.value) == Some(WwwPrefix + site)
    requires !StartsWith(site, WwwPrefix)
    ensures ExtractDomain(parse, t1.url.value) == Some(site)
    ensures Classify(parse, site, [t1, t2]) == [t1.id, t2.id]
  {
    StripWwwUndoesPrefix(site);
    assert InCluster(parse, site, t1) && InCluster(parse, site, t2);
    BothTabsClassified(parse, site, t1, t2);
  }

  /** How a run that passes every stop reaches its decision. */
  lemma RunDecides(parse: HostParser, e: Event, stored: Option<seq<Rule>>, q1: seq<Tab>, q2: seq<Tab>,
                   domain: string, rule: Rule)
    requires Triggers(e) && TriggerDomain(parse, e) == Some(domain) && |domain| > 0
    requires FindMatchingGroup(domain, StoredRules(stored)) == Some(rule)
    ensures Run(parse, e, stored, q1, q2) == Decided(rule, Resolve(Classify(parse, domain, q1), q2, rule))
  {
  }

  /** The end-to-end example: one rule `{github.com, Dev, blue}`, two
      ungrouped tabs on `https://github.com/a` and `https://www.github.com/b`;
      the run creates one group "Dev", blue, holding tabs 1 and 2. */
  lemma EndToEndExample(parse: HostParser, t1: Tab, t2: Tab, rule: Rule)
    requires parse("https://github.com/a") == Some("github.com")
    requires parse("https://www.github.com/b") == Some("www.github.com")
    requires t1 == Tab(1, Some("https://github.com/a"), TabGroupIdNone)
    requires t2 == Tab(2, Some("https://www.github.com/b"), TabGroupIdNone)
    requires rule == Rule("github.com", "Dev", "blue")
    ensures Run(parse, Created(t1), Some([rule]), [t1, t2], [t1, t2]) == Decided(rule, CreateNew([1, 2], "Dev", "blue"))
  {
    GithubFacts(parse, t1, t2);
    GithubRuleMatches(rule);
    SameSiteTabsGroupTogether(parse, t1, t2, rule, "github.com");
  }

  lemma GithubFacts(parse: HostParser, t1: Tab, t2: Tab)
    requires t1 == Tab(1, Some("https://github.com/a"), TabGroupIdNone)
    requires t2 == Tab(2, Some("https://www.github.com/b"), TabGroupIdNone)
    requires parse("https://www.github.com/b") == Some("www.github.com")
    ensures Triggers(Created(t1)) && HasUrl(t2)
    ensures parse(t2.url.value) == Some(WwwPrefix + "github.com")
    ensures !StartsWith("github.com", WwwPrefix)
  {
    assert |t1.url.value| != |NewTabUrl|;
    assert WwwPrefix + "github.com" == "www.github.com";
    assert "github.com"[0] != WwwPrefix[0];
  }

  lemma GithubRuleMatches(rule: Rule)
    requires rule.domain == "github.com"
    ensures RuleMatches("github.com", rule)
  {
    var p := "github.com";
    assert p[0] == 'g' && p[|p| - 1] == 'm';
    assert forall i :: 0 <= i < |p| ==> 'a' <= p[i] <= 'z' || p[i] == '.';
    NormalPatternUnchanged(p);
  }

  /** Convergence of one run: carrying out a decided run on a window and
      running the same event again on the changed window joins the group the
      first run left the tabs in, with the same ids. */
  lemma RerunConverges(parse: HostParser, e: Event, stored: Option<seq<Rule>>, w: Window, created: int)
    requires IsExistingGroup(created) && created !in w.groups
    requires Run(parse, e, stored, w.tabs, w.tabs).Decided?
    requires !Run(parse, e, stored, w.tabs, w.tabs).action.NoOp?
    ensures var o := Run(parse, e, stored, w.tabs, w.tabs);
            var w' := ApplyAll(w, Effects(o), created);
            Run(parse, e, stored, w'.tabs, w'.tabs)
              == Decided(o.rule, JoinExisting(TargetGroup(o.action, created), o.action.tabIds))
  {
    var o := Run(parse, e, stored, w.tabs, w.tabs);
    DecidedRun(parse, e, stored, w.tabs, w.tabs);
    var a := o.action;
    var g := TargetGroup(a, created);
    var d := TriggerDomain(parse, e).value;
    var ids := Classify(parse, d, w.tabs);
    assert a.tabIds == ids && |ids| > 0;
    CarryOutMovesTabs(w, a, created);
    var moved := MoveInto(w.tabs, ids, g);
    assert ApplyAll(w, Effects(o), created).tabs == moved;
    RerunOnMovedWindow(parse, e, stored, w.tabs, d, o.rule, g);
    assert Run(parse, e, stored, moved, moved) == Decided(o.rule, JoinExisting(g, ids));
  }

  /** Once the classified tabs sit in a real group, the same event decides
      to join that group with the same ids. */
  lemma RerunOnMovedWindow(parse: HostParser, e: Event, stored: Option<seq<Rule>>, tabs: seq<Tab>,
                           d: string, rule: Rule, g: int)
    requires Triggers(e) && TriggerDomain(parse, e) == Some(d) && |d| > 0
    requires FindMatchingGroup(d, StoredRules(stored)) == Some(rule)
    requires |Classify(parse, d, tabs)| > 0 && IsExistingGroup(g)
    ensures var ids := Classify(parse, d, tabs);
            var moved := MoveInto(tabs, ids, g);
            Run(parse, e, stored, moved, moved) == Decided(rule, JoinExisting(g, ids))
  {
    var ids := Classify(parse, d, tabs);
    var moved := MoveInto(tabs, ids, g);
    MoveKeepsClassification(parse, d, tabs, ids, g);
    ClusterTabIsInWindow(parse, d, tabs);
    RerunJoinsSameGroup(ids, tabs, g, rule);
    RunDecides(parse, e, stored, moved, moved, d, rule);
  }

  lemma ClusterTabIsInWindow(parse: HostParser, target: string, tabs: seq<Tab>)
    requires |Classify(parse, target, tabs)| > 0
    ensures exists t :: t in tabs && t.id in Classify(parse, target, tabs)
  {
    var ids := Classify(parse, target, tabs);
    var t :| t in tabs && InCluster(parse, target, t) && t.id == ids[0];
  }
}
