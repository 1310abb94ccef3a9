/** Classification of a navigation intent as a direct deep link for the configured domain. */
module Classifier {
  import opened Wrappers
  import opened LinkTypes

  /** A parsed URI as the platform presents it: its text form, its host (absent for a URI
      such as `mailto:x`), the names of its query parameters and the lookup of one parameter
      by name, which may find no value. How the platform picks a value for a repeated key is
      left to `queryParameter`. */
  datatype Uri = Uri(
    text: string,
    host: Option<string>,
    queryParameterNames: seq<string>,
    queryParameter: string -> Option<string>)

  /** A navigation intent; its data URI may be absent. */
  datatype Intent = Intent(data: Option<Uri>)

  /** The host is claimed when it is exactly the domain or the domain behind `www.`. */
  predicate HostMatches(host: string, domain: string) {
    host == domain || host == "www." + domain
  }

  /** The parameter map of a matched link: every listed name whose lookup gives a value. */
  function QueryParams(names: seq<string>, lookup: string -> Option<string>): (params: map<string, string>)
    ensures forall k :: k in params <==> k in names && lookup(k).Some?
    ensures forall k :: k in params ==> lookup(k) == Some(params[k])
  {
    map k | k in names && lookup(k).Some? :: lookup(k).value
  }

  /** The host of the intent's data URI, if the intent, its data and its host are all present. */
  function HostOf(intent: Option<Intent>): (host: Option<string>)
    ensures host.Some? <==> intent.Some? && intent.value.data.Some? && intent.value.data.value.host.Some?
    ensures host.Some? ==> host.value == intent.value.data.value.host.value
  {
    match intent
    case None => None
    case Some(i) =>
      match i.data
      case None => None
      case Some(uri) => uri.host
  }

  /** The link a navigation intent stands for, or None when the SDK does not claim it. */
  function Classify(intent: Option<Intent>, domain: string): (r: Option<DeepLinkData>)
    ensures r.Some? <==> HostOf(intent).Some? && HostMatches(HostOf(intent).value, domain)
    ensures r.Some? ==>
      var uri := intent.value.data.value;
      && r.value.url == uri.text
      && !r.value.isDeferred
      && (forall k :: k in r.value.params <==> k in uri.queryParameterNames && uri.queryParameter(k).Some?)
      && (forall k :: k in r.value.params ==> uri.queryParameter(k) == Some(r.value.params[k]))
  {
    match HostOf(intent)
    case None => None
    case Some(host) =>
      if !HostMatches(host, domain) then None
      else
        var uri := intent.value.data.value;
        Some(DeepLinkData(uri.text, QueryParams(uri.queryParameterNames, uri.queryParameter), false))
  }

  /** Fills the parameter map one query name at a time, keeping each name whose lookup
      gives a value. */
  method CollectParams(names: seq<string>, lookup: string -> Option<string>) returns (params: map<string, string>)
    ensures params == QueryParams(names, lookup)
  {
    params := map[];
    var i := 0;
    while i < |names|
      invariant 0 <= i <= |names|
      invariant params == QueryParams(names[..i], lookup)
    {
      var key := names[i];
      match lookup(key) {
        case Some(value) => params := params[key := value];
        case None =>
      }
      assert names[..i + 1] == names[..i] + [key];
      i := i + 1;
    }
    assert names[..i] == names;
  }

  /** A link to `www.` plus the configured domain is claimed with its one query parameter;
      a link to another host is not. */
  lemma ExampleLinks()
    ensures var lookup := (k: string) => if k == "ref" then Some("abc") else None;
      var promo := Uri("https://www.example.com/promo?ref=abc", Some("www.example.com"), ["ref"], lookup);
      Classify(Some(Intent(Some(promo))), "example.com")
        == Some(DeepLinkData("https://www.example.com/promo?ref=abc", map["ref" := "abc"], false))
    ensures var other := Uri("https://other.com/x", Some("other.com"), [], (k: string) => None);
      Classify(Some(Intent(Some(other))), "example.com") == None
  {
    var lookup := (k: string) => if k == "ref" then Some("abc") else None;
    var params := QueryParams(["ref"], lookup);
    assert "ref" in params;
    assert params == map["ref" := "abc"];
  }
}
