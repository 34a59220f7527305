/**
 The domain normaliser: `extractDomain` turns a tab's URL into the domain the
 rules are matched against.

 Parsing the URL belongs to the WHATWG URL Standard (section 4.4, "URL
 parsing") and is not modelled: every operation takes the parser as a
 `HostParser`, a function giving the parsed URL's `hostname`, or None where
 `new URL(url)` throws.
 */
module Domain {
  import opened Base
  import opened JsString

  type HostParser = string -> Option<string>

  const WwwPrefix: string := "www."

  /** The hostname without one leading `www.`. */
  function StripWww(host: string): (d: string)
    ensures StartsWith(host, WwwPrefix) ==> host == WwwPrefix + d
    ensures !StartsWith(host, WwwPrefix) ==> d == host
  {
    if StartsWith(host, WwwPrefix) then host[|WwwPrefix|..] else host
  }

  /** `extractDomain(url)`: the hostname minus one leading `www.`, or None
      (the source's null) when the URL does not parse. */
  function ExtractDomain(parse: HostParser, url: string): (d: Option<string>)
    ensures d.None? <==> parse(url).None?
    ensures d.Some? && StartsWith(parse(url).value, WwwPrefix) ==> parse(url).value == WwwPrefix + d.value
    ensures d.Some? && !StartsWith(parse(url).value, WwwPrefix) ==> d.value == parse(url).value
  {
    match parse(url)
    case None => None
    case Some(host) => Some(StripWww(host))
  }

  /** Only one prefix goes: putting `www.` in front of any hostname and
      stripping it gives the hostname back, even when that hostname itself
      starts with `www.`. */
  lemma StripWwwUndoesPrefix(host: string)
    ensures StripWww(WwwPrefix + host) == host
  {
    assert (WwwPrefix + host)[..|WwwPrefix|] == WwwPrefix;
  }

  lemma StripWwwOnlyOnce()
    ensures StripWww("www.www.a.com") == "www.a.com"
  {
    StripWwwUndoesPrefix("www.a.com");
    assert WwwPrefix + "www.a.com" == "www.www.a.com";
  }

  /** The two normalisation examples: `https://www.example.com/x` gives
      `example.com`, `https://mail.example.com` keeps its hostname. */
  lemma ExtractDomainExamples(parse: HostParser)
    requires parse("https://www.example.com/x") == Some("www.example.com")
    requires parse("https://mail.example.com") == Some("mail.example.com")
    ensures ExtractDomain(parse, "https://www.example.com/x") == Some("example.com")
    ensures ExtractDomain(parse, "https://mail.example.com") == Some("mail.example.com")
  {
    StripWwwUndoesPrefix("example.com");
    assert WwwPrefix + "example.com" == "www.example.com";
    assert !StartsWith("mail.example.com", WwwPrefix) by {
      assert "mail.example.com"[..4] != WwwPrefix by {
        assert "mail.example.com"[0] == 'm';
      }
    }
  }
}
