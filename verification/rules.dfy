/**
 The rule matcher: `findMatchingGroup` picks the first stored rule whose
 domain pattern matches a normalised domain.
 */
module Rules {
  import opened Base
  import opened JsString

  /** A stored configuration entry `{domain, name, color}`: the domain pattern
      as the user typed it, the title and the colour of the group to build. */
  datatype Rule = Rule(domain: string, name: string, color: string)

  const WildcardPrefix: string := "*."

  /** `group.domain.trim().toLowerCase()`. */
  function NormalizePattern(raw: string): (p: string)
    ensures forall i :: 0 <= i < |p| ==> !IsAsciiUpper(p[i])
    ensures IsTrimmed(p)
    ensures var i := LeadingWhiteSpace(raw);
            && i + |p| <= |raw| && AllWhiteSpace(raw[..i]) && AllWhiteSpace(raw[i + |p|..])
            && p == ToLower(raw[i..i + |p|])
  {
    TrimmedLowerFacts(raw);
    ToLower(Trim(raw))
  }

  lemma TrimmedLowerFacts(raw: string)
    ensures IsTrimmed(ToLower(Trim(raw)))
    ensures var p := ToLower(Trim(raw));
            var i := LeadingWhiteSpace(raw);
            && i + |p| <= |raw| && AllWhiteSpace(raw[..i]) && AllWhiteSpace(raw[i + |p|..])
            && p == ToLower(raw[i..i + |p|])
  {
    var t := Trim(raw);
    ToLowerKeepsTrimmed(t);
    var i := LeadingWhiteSpace(raw);
    var p := ToLower(t);
    assert |p| == |t|;
    assert p == ToLower(raw[i..i + |p|]);
  }

  /** Normalising a padded pattern trims the padding and lower-cases the rest:
      `" GitHub.com "` is compared as `github.com`. */
  lemma NormalizeStripsAndLowers(left: string, s: string, right: string)
    requires AllWhiteSpace(left) && AllWhiteSpace(right) && IsTrimmed(s) && |s| > 0
    ensures NormalizePattern(left + s + right) == ToLower(s)
  {
    TrimStripsPadding(left, s, right);
  }

  /** A pattern already trimmed and in lower case normalises to itself. */
  lemma NormalPatternUnchanged(p: string)
    requires IsTrimmed(p) && |p| > 0
    requires forall i :: 0 <= i < |p| ==> !IsAsciiUpper(p[i])
    ensures NormalizePattern(p) == p
  {
    assert p == [] + p + [];
    TrimStripsPadding([], p, []);
    ToLowerOfLower(p);
  }

  /** The three ways a domain matches a normalised pattern: equality, a
      dot-bounded suffix, or — for a `*.` pattern — any suffix equal to the
      pattern without its `*.`, with no dot boundary. */
  predicate PatternMatches(domain: string, pattern: string) {
    || domain == pattern
    || EndsWith(domain, "." + pattern)
    || (StartsWith(pattern, WildcardPrefix) && EndsWith(domain, pattern[|WildcardPrefix|..]))
  }

  predicate RuleMatches(domain: string, rule: Rule) {
    PatternMatches(domain, NormalizePattern(rule.domain))
  }

  /** Position of the rule `groups.find` returns. */
  function FindMatchingIndex(domain: string, rules: seq<Rule>): (r: Option<nat>)
    ensures r.Some? ==> r.value < |rules| && RuleMatches(domain, rules[r.value])
    ensures r.Some? ==> forall j :: 0 <= j < r.value ==> !RuleMatches(domain, rules[j])
    ensures r.None? ==> forall j :: 0 <= j < |rules| ==> !RuleMatches(domain, rules[j])
  {
    FirstWhere(rules, (rule: Rule) => RuleMatches(domain, rule))
  }

  /** `findMatchingGroup(domain, groups)`: the earliest matching rule. */
  function FindMatchingGroup(domain: string, rules: seq<Rule>): (r: Option<Rule>)
    ensures r.Some? <==> exists i :: 0 <= i < |rules| && RuleMatches(domain, rules[i])
    ensures r.Some? ==> exists i :: && 0 <= i < |rules| && rules[i] == r.value
                                    && RuleMatches(domain, rules[i])
                                    && forall j :: 0 <= j < i ==> !RuleMatches(domain, rules[j])
  {
    match FindMatchingIndex(domain, rules)
    case None => None
    case Some(i) => Some(rules[i])
  }

  /** A pattern without `*.` matches exactly its own domain and the domains
      below it, on a dot boundary. */
  lemma PlainPatternIsDotBounded(domain: string, pattern: string)
    requires !StartsWith(pattern, WildcardPrefix)
    ensures PatternMatches(domain, pattern) <==> domain == pattern || EndsWith(domain, "." + pattern)
  {
  }

  /** A `*.base` pattern matches exactly the domains ending in `base`, with no
      dot boundary: the equality and dot-suffix cases add nothing to it. */
  lemma WildcardIsBareSuffix(domain: string, base: string)
    ensures PatternMatches(domain, WildcardPrefix + base) <==> EndsWith(domain, base)
  {
    var pattern := WildcardPrefix + base;
    assert pattern[..|WildcardPrefix|] == WildcardPrefix;
    assert pattern[|WildcardPrefix|..] == base;
    if domain == pattern {
      ConcatEndsWith(WildcardPrefix, base);
    } else if EndsWith(domain, "." + pattern) {
      assert "." + pattern == ("." + WildcardPrefix) + base;
      EndsWithConcat(domain, "." + WildcardPrefix, base);
    }
  }

  /** The wildcard quirk: `foo-google.com` matches `*.google.com` although it
      is not a subdomain of `google.com`, and the plain pattern `google.com`
      rejects it. */
  lemma WildcardQuirk()
    ensures PatternMatches("foo-google.com", "*.google.com")
    ensures !PatternMatches("foo-google.com", "google.com")
  {
    WildcardIsBareSuffix("foo-google.com", "google.com");
    assert WildcardPrefix + "google.com" == "*.google.com";
    assert "foo-google.com"[4..] == "google.com";
    assert "foo-google.com"[|"foo-google.com"| - |".google.com"|..] == "-google.com";
    assert "-google.com"[0] != ".google.com"[0];
    assert "google.com"[0] != WildcardPrefix[0];
  }

  /** Matching runs downwards only: a subdomain matches its parent's pattern,
      the parent does not match the subdomain's. */
  lemma MatchExamples()
    ensures PatternMatches("example.com", "example.com")
    ensures PatternMatches("mail.example.com", "example.com")
    ensures !PatternMatches("example.com", "mail.example.com")
  {
    assert "mail.example.com"[4..] == ".example.com";
    assert "mail.example.com"[0] != "example.com"[0];
  }

  /** A `*.` pattern also matches a genuine subdomain. */
  lemma WildcardSubdomainExample()
    ensures PatternMatches("foo.example.com", "*.example.com")
  {
    WildcardIsBareSuffix("foo.example.com", "example.com");
    assert WildcardPrefix + "example.com" == "*.example.com";
    assert "foo.example.com"[4..] == "example.com";
  }

  /** First match wins: no rule after a matching one is ever returned. */
  lemma EarlierRuleWins(domain: string, rules: seq<Rule>, i: nat)
    requires i < |rules| && RuleMatches(domain, rules[i])
    ensures FindMatchingIndex(domain, rules).Some?
    ensures FindMatchingIndex(domain, rules).value <= i
    ensures FindMatchingGroup(domain, rules) == Some(rules[FindMatchingIndex(domain, rules).value])
  {
  }

  /** Rules appended after a match never change which rule is chosen. */
  lemma AppendedRulesKeepMatch(domain: string, rules: seq<Rule>, more: seq<Rule>)
    requires FindMatchingGroup(domain, rules).Some?
    ensures FindMatchingGroup(domain, rules + more) == FindMatchingGroup(domain, rules)
  {
    FirstWhereAppend(rules, more, (rule: Rule) => RuleMatches(domain, rule));
  }

  /** The stored pattern is compared after trimming, so white space around
      it is ignored, whatever the case of its letters. */
  lemma RuleIgnoresPadding(domain: string, left: string, pattern: string, right: string, name: string, color: string)
    requires AllWhiteSpace(left) && AllWhiteSpace(right) && IsTrimmed(pattern) && |pattern| > 0
    ensures RuleMatches(domain, Rule(left + pattern + right, name, color)) <==> RuleMatches(domain, Rule(pattern, name, color))
  {
    NormalizeStripsAndLowers(left, pattern, right);
    NormalizeTrimmed(pattern);
  }

  lemma NormalizeTrimmed(s: string)
    requires IsTrimmed(s) && |s| > 0
    ensures NormalizePattern(s) == ToLower(s)
  {
    assert s == [] + s + [];
    TrimStripsPadding([], s, []);
  }

  /** A single rule list picks its rule exactly when the rule matches. */
  lemma SingleRuleMatch(domain: string, rule: Rule)
    requires RuleMatches(domain, rule)
    ensures FindMatchingGroup(domain, [rule]) == Some(rule)
  {
    assert FindMatchingIndex(domain, [rule]) == Some(0);
  }
}
