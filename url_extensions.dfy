/**
 * The URL helpers of the API layer (URL+Extensions.swift): appending a query item, and the host's
 * second-level domain. `URLComponents` parsing and URL building are Foundation's and are parameters;
 * splitting on "." and joining with "." are modelled here.
 */
module UrlExtensions {
  import opened Wrappers
  import opened Text

  /** A `URLQueryItem`: a name and an optional value. */
  datatype QueryItem = QueryItem(name: string, value: Option<string>)

  /** A `URLComponents` value: everything but the query kept as one part, and the query items (nil when there is no query). */
  datatype UrlComponents = UrlComponents(location: string, queryItems: Option<seq<QueryItem>>)

  /** An absolute URL (so `absoluteURL` is the URL itself) and its host, if any. */
  datatype Url = Url(absoluteString: string, host: Option<string>)

  /** Foundation's `URLComponents(string:)` and `URLComponents.url`. */
  datatype UrlCodec = UrlCodec(parse: string -> Option<UrlComponents>, build: UrlComponents -> Option<Url>)

  /** The components with one more query item at the end; an absent query counts as an empty one. */
  function AppendedComponents(c: UrlComponents, name: string, value: Option<string>): (r: UrlComponents)
    ensures r.location == c.location
    ensures r.queryItems.Some? && |r.queryItems.value| == |c.queryItems.GetOr([])| + 1
    ensures r.queryItems.value[..|c.queryItems.GetOr([])|] == c.queryItems.GetOr([])
    ensures r.queryItems.value[|c.queryItems.GetOr([])|] == QueryItem(name, value)
  {
    var items := c.queryItems.GetOr([]);
    assert (items + [QueryItem(name, value)])[..|items|] == items;
    c.(queryItems := Some(items + [QueryItem(name, value)]))
  }

  /** Appending twice keeps both new items, in the order they were appended, after the existing ones. */
  lemma AppendedTwice(c: UrlComponents, n1: string, v1: Option<string>, n2: string, v2: Option<string>)
    ensures AppendedComponents(AppendedComponents(c, n1, v1), n2, v2).queryItems ==
            Some(c.queryItems.GetOr([]) + [QueryItem(n1, v1), QueryItem(n2, v2)])
  {
    var items := c.queryItems.GetOr([]);
    assert items + [QueryItem(n1, v1)] + [QueryItem(n2, v2)] == items + [QueryItem(n1, v1), QueryItem(n2, v2)];
  }

  /**
   * `appending(_:value:)`: the URL unchanged when it cannot be split into components; otherwise the
   * URL rebuilt with the new item after the existing ones. The source force-unwraps the rebuilt URL,
   * so rebuilding must succeed.
   */
  method Appending(url: Url, queryItem: string, value: Option<string>, codec: UrlCodec) returns (r: Url)
    requires codec.parse(url.absoluteString).Some? ==>
             codec.build(AppendedComponents(codec.parse(url.absoluteString).value, queryItem, value)).Some?
    ensures codec.parse(url.absoluteString).None? ==> r == url
    ensures codec.parse(url.absoluteString).Some? ==>
            r == codec.build(AppendedComponents(codec.parse(url.absoluteString).value, queryItem, value)).value
  {
    var parsed := codec.parse(url.absoluteString);
    if parsed.None? {
      return url;
    }
    var urlComponents := parsed.value;
    var queryItems := urlComponents.queryItems.GetOr([]);
    var item := QueryItem(queryItem, value);
    queryItems := queryItems + [item];
    urlComponents := urlComponents.(queryItems := Some(queryItems));
    r := codec.build(urlComponents).value;
  }

  /** `components(separatedBy: ".")`: the parts between dots, empty ones included; never an empty list. */
  function Split(s: string): (r: seq<string>)
    ensures |r| >= 1
    ensures forall i | 0 <= i < |r| :: '.' !in r[i]
    decreases |s|
  {
    if |s| == 0 then [""]
    else if s[0] == '.' then [""] + Split(s[1..])
    else
      var rest := Split(s[1..]);
      [[s[0]] + rest[0]] + rest[1..]
  }

  /** `joined(separator: ".")`. */
  function Join(parts: seq<string>): (r: string)
    decreases |parts|
  {
    if |parts| == 0 then ""
    else if |parts| == 1 then parts[0]
    else parts[0] + "." + Join(parts[1..])
  }

  /** Prefixing the first part prefixes the joined string. */
  lemma {:induction false} JoinPrefixFirst(c: string, parts: seq<string>)
    requires |parts| >= 1
    ensures Join([c + parts[0]] + parts[1..]) == c + Join(parts)
  {
    var ps := [c + parts[0]] + parts[1..];
    assert ps[1..] == parts[1..];
  }

  /** Rejoining the parts of a split gives the string back. */
  lemma {:induction false} JoinSplit(s: string)
    ensures Join(Split(s)) == s
    decreases |s|
  {
    if |s| > 0 {
      JoinSplit(s[1..]);
      var rest := Split(s[1..]);
      if s[0] == '.' {
        assert ([""] + rest)[1..] == rest;
        assert s == "." + s[1..];
      } else {
        JoinPrefixFirst([s[0]], rest);
        assert s == [s[0]] + s[1..];
      }
    }
  }

  /** Splitting a dotless part followed by a dot splits off exactly that part. */
  lemma {:induction false} SplitAfterPart(a: string, b: string)
    requires '.' !in a
    ensures Split(a + "." + b) == [a] + Split(b)
    decreases |a|
  {
    var s := a + "." + b;
    if |a| == 0 {
      assert s[1..] == b;
    } else {
      assert s[1..] == a[1..] + "." + b;
      SplitAfterPart(a[1..], b);
      assert [s[0]] + a[1..] == a;
    }
  }

  /** A dotless string is a single part. */
  lemma {:induction false} SplitNoDot(a: string)
    requires '.' !in a
    ensures Split(a) == [a]
    decreases |a|
  {
    if |a| > 0 {
      SplitNoDot(a[1..]);
      assert [a[0]] + a[1..] == a;
    }
  }

  /** Splitting joined dotless parts gives the parts back. */
  lemma {:induction false} SplitJoin(parts: seq<string>)
    requires |parts| >= 1 && forall i | 0 <= i < |parts| :: '.' !in parts[i]
    ensures Split(Join(parts)) == parts
    decreases |parts|
  {
    if |parts| == 1 {
      SplitNoDot(parts[0]);
    } else {
      SplitAfterPart(parts[0], Join(parts[1..]));
      SplitJoin(parts[1..]);
      assert [parts[0]] + parts[1..] == parts;
    }
  }

  /** Any tail of the parts joins to a suffix of the whole. */
  lemma {:induction false} JoinTailIsSuffix(parts: seq<string>, k: nat)
    requires k < |parts|
    ensures IsSuffix(Join(parts[k..]), Join(parts))
    decreases k
  {
    if k > 0 {
      var tail := parts[1..];
      assert tail[k - 1..] == parts[k..];
      JoinTailIsSuffix(tail, k - 1);
      assert Join(parts) == parts[0] + "." + Join(tail);
      assert IsSuffix(Join(tail), Join(parts));
      SuffixTransitive(Join(parts[k..]), Join(tail), Join(parts));
    }
  }

  /** `suffix(2)` on an array: its last two elements, or all of it when it is shorter. */
  function LastTwo<T>(xs: seq<T>): (r: seq<T>)
    ensures |xs| >= 2 ==> |r| == 2 && r == xs[|xs| - 2..]
    ensures |xs| < 2 ==> r == xs
  {
    if |xs| >= 2 then xs[|xs| - 2..] else xs
  }

  /** The last two parts join to a suffix of the whole. */
  lemma LastTwoIsSuffix(parts: seq<string>)
    requires |parts| >= 1
    ensures IsSuffix(Join(LastTwo(parts)), Join(parts))
  {
    if |parts| >= 2 {
      JoinTailIsSuffix(parts, |parts| - 2);
    } else {
      assert Join(parts)[|Join(parts)| - |Join(parts)|..] == Join(parts);
    }
  }

  /** `SLD`: the host's last two dot-separated parts, rejoined. */
  function SLD(url: Url): (r: Option<string>)
    ensures r.None? <==> url.host.None?
    ensures r.Some? ==> IsSuffix(r.value, url.host.value)
  {
    if url.host.None? then None
    else
      var components := Split(url.host.value);
      JoinSplit(url.host.value);
      LastTwoIsSuffix(components);
      Some(Join(LastTwo(components)))
  }

  /** `rootDomain`: nil without a host; a host of at most two parts as it is; else its last two parts. */
  function RootDomain(url: Url): (r: Option<string>)
    ensures r.None? <==> url.host.None?
    ensures url.host.Some? && |Split(url.host.value)| <= 2 ==> r == url.host
    ensures url.host.Some? && |Split(url.host.value)| > 2 ==>
            r == Some(Join(LastTwo(Split(url.host.value)))) && Split(r.value) == LastTwo(Split(url.host.value))
    ensures r.Some? ==> IsSuffix(r.value, url.host.value)
  {
    match url.host
    case None => None
    case Some(hostName) =>
      var components := Split(hostName);
      if |components| > 2 then
        JoinSplit(hostName);
        LastTwoIsSuffix(components);
        SplitJoin(LastTwo(components));
        Some(Join(LastTwo(components)))
      else Some(hostName)
  }

  /** The two properties agree on every URL, because a short host rejoins to itself. */
  lemma SLDIsRootDomain(url: Url)
    ensures SLD(url) == RootDomain(url)
  {
    if url.host.Some? {
      JoinSplit(url.host.value);
    }
  }

  /** The root domain of a host that is already a root domain is that host. */
  lemma RootDomainIdempotent(url: Url)
    requires url.host.Some?
    ensures RootDomain(Url(url.absoluteString, RootDomain(url))) == RootDomain(url)
  {
  }
}
