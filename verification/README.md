# Tab grouper — decision engine model

A Dafny model of the background script of a browser extension that gathers
tabs into tab groups by domain. When a tab is created, or finishes loading,
the script does four things:

1. It takes the tab's hostname, without one leading `www.`.
2. It looks up the first stored rule `{domain, name, color}` whose pattern
   matches that hostname. A pattern matches by equality, by a dot-bounded
   suffix, or, for a `*.` pattern, by a bare suffix.
3. It picks every tab of the current window (the focused one, which need
   not be the triggering tab's window; the snapshots are unconstrained
   inputs, so this is covered) whose domain equals the target domain,
   or is a dot-bounded subdomain or parent of it (the *cluster*). The model
   uses the corrected filter described under "## Findings"; the filter as
   written differs only for target domains ending in `.null`.
4. It moves those tabs into the first existing group any of them is already
   in. If none of them is grouped, it creates a new group titled and
   coloured from the rule.

The model is a set of pure functions:

- The browser's answers are inputs of a run: the stored rule list and the
  two window snapshots the script queries.
- What the script asks of the browser is returned as an action value
  (`NoOp`, `JoinExisting`, `CreateNew`). That value is then translated into
  the browser calls it issues.

Modules, in dependency order:

| module | file | models |
|---|---|---|
| `Base` | base.dfy | `Option`; `find`/`filter`/`map` over sequences; subsequences |
| `JsString` | js_string.dfy | `startsWith`, `endsWith`, `trim`, `toLowerCase` |
| `Domain` | domain.dfy | `extractDomain`; the URL parser is a parameter |
| `Rules` | rules.dfy | `findMatchingGroup` and its pattern test |
| `Classifier` | classifier.dfy | the tab filter of `handleTabGrouping` |
| `Resolver` | resolver.dfy | the decision of `checkExistingGroups` |
| `Executor` | executor.dfy | `moveTabsToGroup` and `createNewGroup` as browser calls; an assumed model of what those calls do to a window |
| `Dispatch` | dispatch.dfy | the two listeners and `checkAndGroupTab`, as one run |

Points where the model follows the code rather than an intuitive reading:

- Matching a rule does not carry over to the cluster. A rule for
  `mail.google.com` selects that domain, and the cluster of that domain also
  takes in a `google.com` tab that the rule would reject.
  `Classifier.ClusterReachesBeyondRule` shows this. The model keeps the
  code's behaviour: the cluster is decided by the domain relation alone.
- `!domain` (background.js:21) also stops the run for an empty domain. This
  happens when the hostname is empty or exactly `www.`
  (`Dispatch.EmptyDomainNeverGroups`).
- A `groupId` of 0 is falsy, so it never counts as a group, just like
  `TAB_GROUP_ID_NONE` (-1) (`Resolver.UngroupedWindowCreates`).
- The rule pattern is trimmed and lower-cased. The source does not
  lower-case the tab's hostname (for http and https the URL parser already
  does), and neither does the model.
- A tab with an empty hostname (`about:blank`, `file:///...`) has the domain
  "". The third test then reads `target.endsWith(".")`, so such a tab joins
  the cluster of any target ending in a dot, such as `example.com.`. Both
  the corrected and the as-written filter keep this
  (`Classifier.EmptyHostJoinsDotTarget`).

## Model

| member | source | states |
|---|---|---|
| JsString.Trim | background.js:59 | the result has no white space at either end and is the piece of the input right after its longest white-space prefix, with only white space after it |
| JsString.TrimStripsPadding | background.js:59 | any white-space padding around a trimmed non-empty string is removed exactly |
| JsString.TrimIdempotent | background.js:59 | trimming twice is trimming once |
| JsString.ToLower | background.js:59 | the result keeps the length; it has no upper-case ASCII letter; other characters are kept; upper-case letters are shifted by 32 |
| JsString.ToLowerOfLower | background.js:59 | a string without upper-case letters is its own lower case |
| Domain.StripWww | background.js:44-46 | a hostname starting with `www.` is that prefix plus the result; any other hostname is returned unchanged |
| Domain.ExtractDomain | background.js:37-52 | the result is null exactly when the URL does not parse; otherwise it is the hostname, less one leading `www.` if it has one |
| Domain.StripWwwUndoesPrefix | background.js:44-46 | stripping undoes prepending `www.` for every hostname |
| Domain.StripWwwOnlyOnce | background.js:44-46 | only one `www.` is removed: `www.www.a.com` gives `www.a.com` |
| Domain.ExtractDomainExamples | background.js:37-52 | `https://www.example.com/x` gives `example.com`; `https://mail.example.com` keeps its hostname |
| Rules.NormalizePattern | background.js:59 | the normalised pattern is trimmed, has no upper-case ASCII letter, and is the lower case of the piece of the stored pattern after its white-space prefix, with only white space after it |
| Rules.NormalizeStripsAndLowers | background.js:59 | a padded pattern normalises to the lower case of its trimmed core: `" GitHub.com "` is compared as `github.com` |
| Rules.NormalPatternUnchanged | background.js:59 | a trimmed lower-case pattern normalises to itself |
| Rules.PatternMatches | background.js:61-76 | definition: equality, dot-bounded suffix, or bare suffix after `*.` |
| Rules.FindMatchingIndex | background.js:55-78 | the returned position holds a matching rule and no earlier rule matches; none is returned only when no rule matches |
| Rules.FindMatchingGroup | background.js:55-78 | a rule is returned exactly when some rule matches, and it is the earliest matching rule |
| Rules.PlainPatternIsDotBounded | background.js:61-69 | a pattern without `*.` matches exactly its own domain and dot-bounded subdomains of it |
| Rules.WildcardIsBareSuffix | background.js:71-74 | `*.base` matches exactly the domains ending in `base`, with no dot boundary |
| Rules.WildcardQuirk | background.js:72 | `foo-google.com` matches `*.google.com` but not `google.com` |
| Rules.MatchExamples | background.js:61-69 | `mail.example.com` matches `example.com`; `example.com` does not match `mail.example.com` |
| Rules.WildcardSubdomainExample | background.js:71-74 | `foo.example.com` matches `*.example.com` |
| Rules.EarlierRuleWins | background.js:57 | once some rule matches, a rule is chosen and it is at or before that rule |
| Rules.AppendedRulesKeepMatch | background.js:57 | appending rules after a matching one does not change the choice |
| Rules.RuleIgnoresPadding | background.js:59 | white space around a stored pattern, in any letter case, does not change which domains the rule matches |
| Rules.SingleRuleMatch | background.js:55-78 | a one-rule list returns its rule when the rule matches |
| Classifier.Related | background.js:89-91 | definition, corrected: the domains are equal, or one is a dot-bounded subdomain of the other |
| Classifier.InCluster | background.js:87-91 | definition, corrected: the tab has a URL that yields a domain related to the target |
| Classifier.InClusterAsWritten | background.js:87-91 | definition as written: a null domain takes part in the third test as the string `"null"` |
| Classifier.IdsOf | background.js:92 | the ids keep the tabs' order, one per tab |
| Classifier.ClusterTabs | background.js:86-91 | the chosen tabs keep window order, and a tab is chosen exactly when it has a URL whose domain is related to the target |
| Classifier.Classify | background.js:85-92 | the ids form a subsequence of the window's ids; every cluster tab's id is in it; every id in it belongs to a cluster tab |
| Classifier.ClassifyEmptyIff | background.js:86-92 | nothing is classified exactly when no tab of the window is in the cluster |
| Classifier.WholeWindowClustered | background.js:86-91 | a window whose every tab is in the cluster is its own cluster |
| Classifier.BothTabsClassified | background.js:86-92 | two cluster tabs are both classified, in window order |
| Classifier.RelatedIsSymmetric | background.js:89-91 | the domain relation is symmetric |
| Classifier.EmptyHostJoinsDotTarget | background.js:89-91 | a tab whose hostname is empty is in the cluster of every target ending in a dot, under both the corrected and the as-written filter |
| Classifier.ClassifyIsBidirectional | background.js:89-91 | tab b is in the cluster of a's domain exactly when a is in the cluster of b's domain |
| Classifier.UngroupableTabExcluded | background.js:87-91 | a tab with no URL, or whose URL does not parse, is never in the cluster |
| Classifier.OwnTabClassified | background.js:85-92 | a tab is always classified under its own domain |
| Classifier.ClusterReachesBeyondRule | background.js:85-91 | the cluster of a rule-selected domain can hold a tab whose domain the rule rejects |
| Classifier.ClassifyAsWritten | background.js:86-92 | the filter as written, where a null domain becomes `"null"`: no more ids than tabs, and every tab it accepts is included |
| Classifier.UnparseableTabJoinsNullTarget | background.js:89-91 | as written, a tab whose non-empty URL does not parse is classified for any target ending in `.null`; the corrected cluster excludes it |
| Classifier.NullTargetCounterexample | background.js:91 | concrete window: under the target `a.null`, the tab with URL `::` is classified as written but not by the corrected filter |
| Classifier.AsWrittenAgreesOffNullTargets | background.js:89-91 | the as-written and corrected filters agree on every window whose target does not end in `.null` |
| Resolver.IsExistingGroup | background.js:108 | definition: the group id is truthy and not `TAB_GROUP_ID_NONE` |
| Resolver.AlreadyGrouped | background.js:108-109 | definition: the tab is in a real group and its id is among the classified ids |
| Resolver.ExistingGroup | background.js:106-116 | the first value of the set is the group of the first already-grouped classified tab; there is none exactly when no classified tab is grouped |
| Resolver.Resolve | background.js:100-122 | no action exactly when there are no ids; a join targets a real group of the first grouped classified tab, with the ids unchanged; a new group is created exactly when no classified tab is grouped, titled and coloured from the rule |
| Resolver.SplitTabsConvergeOnFirst | background.js:114-117 | classified tabs spread over several groups all join the group of the first such tab |
| Resolver.UngroupedWindowCreates | background.js:108-120 | group ids 0 and -1 never count as groups, so such a window gets a new group |
| Resolver.UngroupedPairCreates | background.js:108-120 | two ungrouped classified tabs go into a new group |
| Executor.Execute | background.js:125-141 | joining issues exactly one `tabs.group` call, with the classified ids and the group id; creating issues a `tabs.group` call without one, then an update with the rule's title and colour; every group call carries the classified ids |
| Executor.MoveInto | background.js:127 | exactly the listed tabs change group; ids and URLs are kept |
| Executor.JoinKeepsMetadata | background.js:126-130 | joining changes no group's title or colour and moves the classified tabs into the target group |
| Executor.CreateAddsOneLabelledGroup | background.js:133-141 | creating adds exactly one group, titled and coloured from the rule, and moves the classified tabs into it |
| Executor.CarryOutMovesTabs | background.js:125-141 | both actions leave the classified tabs in the action's target group and no other tab changes |
| Executor.MoveKeepsClassification | background.js:86-92 | moving tabs between groups does not change which tabs are classified |
| Executor.SameKeysSameClusterIds | background.js:86-92 | windows that agree on ids and URLs, position by position, classify alike |
| Executor.RerunJoinsSameGroup | background.js:106-117 | once the classified tabs are in a real group, resolving again joins that same group |
| Dispatch.Run | background.js:2-34 | a run decides only for a triggering event whose URL gives a non-empty domain; a new group takes the rule's title and colour |
| Dispatch.Triggers | background.js:2-15 | definition: the listeners' guard at lines 4 and 12 |
| Dispatch.StoredRules | background.js:25 | definition: the stored rule list, or the empty list when nothing is stored |
| Dispatch.Effects | background.js:2-34 | a run that halts (at lines 4, 12, 21 or 29) issues no browser call |
| Dispatch.RunGate | background.js:2-15 | a run stops at the guard exactly when the URL is missing or empty, is the new-tab page, or comes from an update whose status is not `complete` |
| Dispatch.UnparseableUrlNeverGroups | background.js:20-21 | a URL that does not parse stops the run with no browser call |
| Dispatch.EmptyDomainNeverGroups | background.js:20-21 | a hostname that is empty or exactly `www.` stops the run |
| Dispatch.NoRulesNeverGroups | background.js:24-29 | with missing or empty stored rules nothing is grouped |
| Dispatch.DecidedRunIsNoOpIff | background.js:85-101 | a decided run does nothing exactly when the first snapshot holds no tab of the cluster |
| Dispatch.DecidedRunTarget | background.js:104-122 | a decided run joins exactly when the second snapshot shows a classified tab in a real group, and then joins the group of the first such tab; otherwise it creates a group titled and coloured from the rule |
| Dispatch.RunAgreesWithSourceOffNullTargets | background.js:85-96 | when the domain does not end in `.null`, the run groups exactly the ids the filter as written picks |
| Dispatch.RunUsesFirstMatchingRule | background.js:28-32 | a decided run acts on the earliest stored rule matching the domain |
| Dispatch.RunDecidesExactlyOnMatch | background.js:18-34 | a triggered run with a non-empty domain reaches a decision exactly when some stored rule matches the domain |
| Dispatch.NoMatchingRuleHalts | background.js:28-29 | a run with a non-empty domain stops for want of a rule exactly when no stored rule matches |
| Dispatch.RunGroupsOnlyTheCluster | background.js:81-96 | with the corrected filter, a run groups exactly the cluster tabs of the first snapshot, in its order: every id it groups belongs to a cluster tab, and every cluster tab's id is grouped |
| Dispatch.TriggerTabMakesRunAct | background.js:85-101 | if the snapshot holds a tab with the triggering URL, a decided run always groups something |
| Dispatch.SameSiteClustered | background.js:85-92 | a tab on a site and a tab on `www.` plus that site are both classified under the site |
| Dispatch.SameSiteTabsGroupTogether | background.js:18-141 | two ungrouped tabs on one site, with and without `www.`, and one matching rule give one new group holding both, titled and coloured from the rule |
| Dispatch.EndToEndExample | background.js:2-141 | rule `{github.com, Dev, blue}` with ungrouped tabs on `https://github.com/a` and `https://www.github.com/b` creates group "Dev", blue, holding tabs 1 and 2 |
| Dispatch.RerunOnMovedWindow | background.js:100-122 | once the classified tabs sit in a real group, the same event joins that group with the same ids |
| Dispatch.RerunConverges | background.js:100-141 | after carrying out a decided run, running the same event again joins the group the tabs were left in, with the same ids |

## Left out

- URL parsing (the URL Standard of WHATWG, section 4.4) is a parameter `HostParser`: the hostname, or None where `new URL` throws. Which URLs parse, and how hostnames are canonicalised, is not modelled.
- The `chrome.*` calls, their callbacks and `chrome.storage.sync` are replaced by the run's inputs (the stored rules, two window snapshots) and its output (an action and its calls). Failures of those calls, and `chrome.runtime.lastError`, are not modelled; the source ignores them.
- Concurrency: overlapping runs, and how the window changes between the two queries of one run, are not modelled. The two snapshots are independent inputs, so nothing is assumed about their consistency. Convergence is proved only for one run followed by one re-run on the resulting window (`Dispatch.RerunConverges`).
- Executor.ApplyCall: the effect of the browser calls on a window is an assumed model of the browser, not part of the extension. A new group starts untitled; the browser's choice of an initial colour is not modelled. Two simplifications of the browser's behaviour: every tab keeps its position in the window, although `tabs.group` moves grouped tabs next to each other; and a group keeps existing when a join empties it, although the browser removes a group once its last tab leaves. `Executor.JoinKeepsMetadata` (groups unchanged by a join) and `Dispatch.RerunConverges` (the re-run classifies the same id sequence) rest on these.
- JsString.ToLower: lower-cases ASCII letters only; the full Unicode case mapping of `toLowerCase` is not modelled.
- A stored rule whose `domain` is missing or not a string makes `trim` throw in the source. The model's rules always carry a string.
- `Updated` events carry `tabId`, which the source ignores; the model ignores it too.
- popup.js (the rule editor) is not part of this model.
- Dispatch.Run: classifies with the corrected filter `Classifier.Classify`, not the filter as written. For a target domain ending in `.null`, the source also groups tabs whose non-empty URL does not parse, and the model does not. Everywhere else the two agree (`Dispatch.RunAgreesWithSourceOffNullTargets`). Its own contract states only what a decision implies. The rest of the decision is stated by separate lemmas, which keeps each proof small: `Dispatch.RunGate`, `Dispatch.UnparseableUrlNeverGroups`, `Dispatch.EmptyDomainNeverGroups` and `Dispatch.NoMatchingRuleHalts` say when it halts; `Dispatch.RunDecidesExactlyOnMatch` says when it decides; `Dispatch.RunUsesFirstMatchingRule`, `Dispatch.RunGroupsOnlyTheCluster`, `Dispatch.DecidedRunIsNoOpIff` and `Dispatch.DecidedRunTarget` say what it decides.
- Dispatch.RunGroupsOnlyTheCluster: a property of the corrected run. The source as written also groups a tab with an unparseable URL when the target ends in `.null` (see "## Findings").
- Classifier.ClassifyAsWritten: its contract states only the bound and the inclusion direction. How it relates to the corrected filter is stated by `Classifier.AsWrittenAgreesOffNullTargets` and `Classifier.UnparseableTabJoinsNullTarget`.

## Findings

| source | as written | input that shows it | evidently intended | confidence | as-written member | corrected member |
|---|---|---|---|---|---|---|
| background.js:89-91 | `domain?.endsWith('.' + tabDomain)`: when a tab's URL does not parse, `tabDomain` is null and `'.' + null` is the string `".null"` | target domain `a.null`, a window holding a tab whose URL is `::` (does not parse): that tab is classified and grouped | a tab whose URL does not parse never joins a cluster | medium, not executed (browsers seldom report URLs that fail to parse) | Classifier.ClassifyAsWritten, Classifier.NullTargetCounterexample | Classifier.Classify |
