/** The request every operation produces: the URL `BASE_URL/<endpoint>?<query>` and the
    header dict handed to the HTTP library. Sending it is not modelled. */
module Http {
  import opened Wrappers
  import Text
  import Query

  /** `BASE_URL`, the same literal in all three clients. */
  const BaseUrl: string := "https://api.ditchcarbon.com/v1.0"

  /** What `requests.get(url, headers=headers)` is called with. */
  datatype Request = Request(url: string, headers: map<string, string>)

  /** `f"{v}"` for a value that may be `None`. */
  function Str(v: Option<string>): (r: string)
    ensures v.Some? ==> r == v.value
    ensures r == "None" <==> v.None? || v == Some("None")
  {
    match v
    case None => "None"
    case Some(s) => s
  }

  /** `BASE_URL + f"/{endpoint}?{args}"`: the `?` is written even when the query is empty. */
  function Compose(endpoint: string, query: string): string
  {
    BaseUrl + "/" + endpoint + "?" + query
  }

  /** Reads a URL of this API back into its endpoint and its query string; the endpoint
      ends at the first `?`. */
  function Split(url: string): (r: Option<(string, string)>)
    ensures r.Some? ==> url == Compose(r.value.0, r.value.1) && '?' !in r.value.0
  {
    var prefix := BaseUrl + "/";
    if |url| < |prefix| || url[..|prefix|] != prefix then None
    else
      match Text.CutAt(url[|prefix|..], '?')
      case None => None
      case Some((endpoint, query)) =>
        assert url == prefix + url[|prefix|..];
        Some((endpoint, query))
  }

  /** The endpoint of a URL and the pairs its query carries. */
  function Decode(url: string): Option<(string, seq<(string, string)>)>
  {
    match Split(url)
    case None => None
    case Some((endpoint, query)) => Some((endpoint, Query.Parse(query)))
  }

  /** An endpoint without `?` and its query are read back from the URL unchanged. */
  lemma SplitCompose(endpoint: string, query: string)
    requires '?' !in endpoint
    ensures Split(Compose(endpoint, query)) == Some((endpoint, query))
  {
    var prefix := BaseUrl + "/";
    var url := Compose(endpoint, query);
    assert url == prefix + (endpoint + ['?'] + query);
    assert url[..|prefix|] == prefix;
    assert url[|prefix|..] == endpoint + ['?'] + query;
    Text.CutAtFirst(endpoint, query, '?');
  }

  /** The URL built from a well-formed dict names the endpoint and carries exactly the
      dict's present pairs, in the dict's order. */
  lemma DecodeCompose(endpoint: string, args: Query.Bag)
    ensures '?' !in endpoint && Query.WellFormed(args) ==>
      Decode(Compose(endpoint, Query.ArgsGen(args))) == Some((endpoint, Query.Present(args)))
  {
    if '?' !in endpoint && Query.WellFormed(args) {
      SplitCompose(endpoint, Query.ArgsGen(args));
      Query.ParseArgsGen(args);
    }
  }
}
