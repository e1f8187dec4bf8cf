/** URL, fragment and request helpers shared by the hosts and ports. */
module Utils {
  import opened Base
  import opened Percent
  import opened Json
  import opened ActivityTypes

  // ---------------------------------------------------------------------
  // Searching strings

  /** `s.indexOf(pat, from)`: the first occurrence at or after `from`
      (a negative `from` searches from the start), or -1. */
  function IndexOf(s: string, pat: string, from: int): (i: int)
    requires pat != []
    decreases |s| - from
    ensures i == -1 || (from <= i && OccursAt(s, pat, i))
    ensures i == -1 ==> forall k :: from <= k ==> !OccursAt(s, pat, k)
    ensures i >= 0 ==> forall k :: from <= k < i ==> !OccursAt(s, pat, k)
  {
    if from < 0 then IndexOf(s, pat, 0)
    else if from + |pat| > |s| then -1
    else if OccursAt(s, pat, from) then from
    else IndexOf(s, pat, from + 1)
  }

  predicate EndsWith(s: string, suffix: string) {
    |suffix| <= |s| && s[|s| - |suffix|..] == suffix
  }

  lemma IndexOfCharIs(s: string, c: char, i: int)
    requires 0 <= i < |s| && s[i] == c && c !in s[..i]
    ensures IndexOfChar(s, c) == i
  {
  }

  // ---------------------------------------------------------------------
  // Origins

  /** The parts of a parsed URL (or `Location`) that an origin is built
      from; an empty `origin` is one the browser does not provide. */
  datatype Location = Location(origin: string, protocol: string, host: string)

  /** `host.replace(pat, '')`: removes the first occurrence only. */
  function DropFirst(s: string, pat: string): string
    requires pat != []
  {
    var i := IndexOf(s, pat, 0);
    if i < 0 then s else s[..i] + s[i + |pat|..]
  }

  function NormalizedHost(protocol: string, host: string): string
  {
    if protocol == "https:" && IndexOf(host, ":443", 0) == |host| - 4 then DropFirst(host, ":443")
    else if protocol == "http:" && IndexOf(host, ":80", 0) == |host| - 3 then DropFirst(host, ":80")
    else host
  }

  /** `getOrigin`: the browser's origin when it has one, otherwise
      protocol and host with a default port removed. */
  function GetOrigin(loc: Location): (o: string)
    ensures loc.origin != "" ==> o == loc.origin
    ensures loc.origin == "" ==> IsPrefix(loc.protocol + "//", o)
  {
    if loc.origin != "" then loc.origin
    else
      var o := loc.protocol + "//" + NormalizedHost(loc.protocol, loc.host);
      assert o[..|loc.protocol + "//"|] == loc.protocol + "//";
      o
  }

  /** `getOriginFromUrl`; URL parsing is the browser's and is a parameter. */
  function GetOriginFromUrl(parseUrl: string -> Location, url: string): string
  {
    GetOrigin(parseUrl(url))
  }

  /** `getWindowOrigin`: `win.origin`, or the origin of `win.location`. */
  function GetWindowOrigin(winOrigin: string, location: Location): string
  {
    if winOrigin != "" then winOrigin else GetOrigin(location)
  }

  /** A default https port on a port-free host is dropped from the origin. */
  lemma GetOriginDropsDefaultPort(host: string)
    requires ':' !in host
    ensures GetOrigin(Location("", "https:", host + ":443")) == "https://" + host
  {
    PortFoundAtEnd(host, ":443");
  }

  /** An `http:` host given with its default port `:80` loses it. */
  lemma GetOriginDropsHttpPort(host: string)
    requires ':' !in host
    ensures GetOrigin(Location("", "http:", host + ":80")) == "http://" + host
  {
    PortFoundAtEnd(host, ":80");
  }

  /** A port suffix after a host without `:` is found exactly at its end. */
  lemma PortFoundAtEnd(host: string, port: string)
    requires ':' !in host && port != [] && port[0] == ':'
    ensures IndexOf(host + port, port, 0) == |host|
    ensures DropFirst(host + port, port) == host
  {
    var h := host + port;
    forall k | 0 <= k < |host|
      ensures !OccursAt(h, port, k)
    {
      assert h[k] == host[k];
      if k + |port| <= |h| {
        assert h[k..k + |port|][0] == h[k];
      }
    }
    assert OccursAt(h, port, |host|) by { assert h[|host|..|host| + |port|] == port; }
    var i := IndexOf(h, port, 0);
    assert i == |host|;
    assert h[..i] + h[i + |port|..] == host;
  }

  /** Any host that does not end in the protocol's default port is kept as is. */
  lemma GetOriginKeepsOtherPorts(protocol: string, host: string)
    requires !EndsWith(host, ":443") && !EndsWith(host, ":80")
    ensures GetOrigin(Location("", protocol, host)) == protocol + "//" + host
  {
    FoundAtEnd(host, ":443");
    FoundAtEnd(host, ":80");
  }

  lemma FoundAtEnd(s: string, pat: string)
    requires pat != []
    ensures IndexOf(s, pat, 0) == |s| - |pat| >= 0 ==> EndsWith(s, pat)
  {
    var i := IndexOf(s, pat, 0);
    if i == |s| - |pat| >= 0 {
      assert s[|s| - |pat|..] == s[i..i + |pat|];
    }
  }

  // ---------------------------------------------------------------------
  // Fragments and query strings

  /** `removeFragment`. */
  function RemoveFragment(url: string): (r: string)
    ensures IsPrefix(r, url) && '#' !in r
    ensures |r| < |url| ==> url[|r|] == '#'
  {
    var i := IndexOfChar(url, '#');
    if i == -1 then url else url[..i]
  }

  /** `location.hash` of a URL: from the first `#` on, or empty when the
      fragment is absent or empty. */
  function FragmentOf(url: string): (h: string)
    ensures h == [] || h[0] == '#'
  {
    var i := IndexOfChar(url, '#');
    if i < 0 || i == |url| - 1 then "" else url[i..]
  }

  /** `s.split(c)`. */
  function SplitOn(s: string, c: char): (parts: seq<string>)
    decreases |s|
    ensures |parts| >= 1
  {
    var i := IndexOfChar(s, c);
    if i < 0 then [s] else [s[..i]] + SplitOn(s[i + 1..], c)
  }

  lemma {:induction false} SplitOnAppend(a: string, c: char, b: string)
    decreases |a|
    ensures SplitOn(a + [c] + b, c) == SplitOn(a, c) + SplitOn(b, c)
  {
    var i := IndexOfChar(a, c);
    if i < 0 {
      SplitOnFirstAppend(a, c, b);
      assert SplitOn(a, c) == [a];
    } else {
      var head, rest := a[..i], a[i + 1..];
      var tail := rest + [c] + b;
      SplitOnFirstAppend(head, c, tail);
      SplitAround(a, i);
      JoinAround(head, c, rest, b);
      SplitOnAt(a, c, i);
      SplitOnAppend(rest, c, b);
      ConcatAssoc([head], SplitOn(rest, c), SplitOn(b, c));
    }
  }

  lemma SplitAround(a: string, i: int)
    requires 0 <= i < |a|
    ensures a == a[..i] + [a[i]] + a[i + 1..]
  {
  }

  lemma JoinAround(x: string, c: char, y: string, z: string)
    ensures x + [c] + (y + [c] + z) == (x + [c] + y) + [c] + z
  {
  }

  /** Appending a separator and more text to a piece with no separator. */
  lemma SplitOnFirstAppend(a: string, c: char, b: string)
    requires c !in a
    ensures SplitOn(a + [c] + b, c) == [a] + SplitOn(b, c)
  {
    var s := a + [c] + b;
    assert s[..|a|] == a && s[|a|] == c;
    assert s[|a| + 1..] == b;
    SplitOnAt(s, c, |a|);
  }

  /** Splitting at the first separator. */
  lemma SplitOnAt(s: string, c: char, i: int)
    requires 0 <= i < |s| && s[i] == c && c !in s[..i]
    ensures SplitOn(s, c) == [s[..i]] + SplitOn(s[i + 1..], c)
  {
    IndexOfCharIs(s, c, i);
  }

  /** One leading `?` or `#` is not part of the query. */
  function QueryBody(query: string): string
  {
    if query != [] && (query[0] == '?' || query[0] == '#') then query[1..] else query
  }

  /** One `key=value` part, both halves decoded (the key before its
      emptiness is tested); `None` is the URIError of a bad escape. */
  function ParseParam(param: string): Option<(string, string)>
  {
    var item := SplitOn(param, '=');
    var key := Decode(item[0]);
    var value := Decode(if |item| > 1 then item[1] else "");
    if key.None? || value.None? then None else Some((key.value, value.value))
  }

  /** One step of the `reduce`: a non-empty key is set, overriding an earlier one. */
  function AddParam(params: map<string, string>, param: string): Option<map<string, string>>
  {
    match ParseParam(param)
    case None => None
    case Some((k, v)) => Some(if k != "" then params[k := v] else params)
  }

  function ReduceParams(parts: seq<string>, params: map<string, string>): Option<map<string, string>>
    decreases |parts|
  {
    if parts == [] then Some(params)
    else
      match AddParam(params, parts[0])
      case None => None
      case Some(p) => ReduceParams(parts[1..], p)
  }

  /** `parseQueryString`; `None` is the URIError it lets escape. */
  function ParseQueryString(query: string): Option<map<string, string>>
  {
    if query == [] then Some(map[]) else ReduceParams(SplitOn(QueryBody(query), '&'), map[])
  }

  /** `getQueryParam`: `Ok(None)` is `undefined`. */
  function GetQueryParam(query: string, param: string): (r: Result<Option<string>>)
    ensures r.Err? <==> ParseQueryString(query).None?
    ensures r.Ok? ==> (r.value.Some? <==> param in ParseQueryString(query).value)
    ensures r.Ok? && r.value.Some? ==> r.value.value == ParseQueryString(query).value[param]
  {
    match ParseQueryString(query)
    case None => Err("URIError: URI malformed")
    case Some(params) => Ok(if param in params then Some(params[param]) else None)
  }

  /** The `key=value` text that `addFragmentParam` appends. */
  function EncodedParam(param: string, value: string): string
  {
    Encode(param) + "=" + Encode(value)
  }

  /** The fragment parameter that carries a serialized request to the host. */
  const REQUEST_PARAM: string := "__WA__"
  /** The fragment parameter that carries a serialized response back to the port. */
  const RESULT_PARAM: string := "__WA_RES__"

  /** `addFragmentParam`. */
  function AddFragmentParam(url: string, param: string, value: string): string
  {
    url + (if '#' !in url then "#" else "&") + EncodedParam(param, value)
  }

  lemma {:induction false} ReduceParamsSnoc(parts: seq<string>, last: string, params: map<string, string>)
    decreases |parts|
    ensures ReduceParams(parts + [last], params) ==
            match ReduceParams(parts, params)
            case None => None
            case Some(p) => AddParam(p, last)
  {
    if parts == [] {
      assert [] + [last] == [last];
    } else {
      assert (parts + [last])[1..] == parts[1..] + [last];
      match AddParam(params, parts[0])
      case None =>
      case Some(p) => ReduceParamsSnoc(parts[1..], last, p);
    }
  }

  lemma EncodedParamHasNoDelimiter(param: string, value: string)
    ensures '#' !in EncodedParam(param, value) && '&' !in EncodedParam(param, value)
    ensures '=' !in Encode(param) && '=' !in Encode(value)
  {
    EncodeHasNoDelimiter(param);
    EncodeHasNoDelimiter(value);
    var e := EncodedParam(param, value);
    forall i | 0 <= i < |e| ensures e[i] != '#' && e[i] != '&' {
      if i < |Encode(param)| {
        assert e[i] == Encode(param)[i];
      } else if i > |Encode(param)| {
        assert e[i] == Encode(value)[i - |Encode(param)| - 1];
      }
    }
  }

  /** The text appended for a parameter reads back as that parameter. */
  lemma ParseEncodedParam(param: string, value: string)
    ensures ParseParam(EncodedParam(param, value)) == Some((param, value))
  {
    EncodedParamHasNoDelimiter(param, value);
    assert EncodedParam(param, value) == Encode(param) + ['='] + Encode(value);
    SplitOnAppend(Encode(param), '=', Encode(value));
    DecodeEncode(param);
    DecodeEncode(value);
  }

  /** Appending a fragment parameter adds exactly that one entry to the
      parameters the fragment parses to, and keeps every other entry. */
  lemma AddFragmentParamParses(url: string, param: string, value: string)
    requires ParseQueryString(FragmentOf(url)).Some?
    ensures var before := ParseQueryString(FragmentOf(url)).value;
            ParseQueryString(FragmentOf(AddFragmentParam(url, param, value))) ==
              Some(if param != "" then before[param := value] else before)
  {
    var e := EncodedParam(param, value);
    EncodedParamHasNoDelimiter(param, value);
    ParseEncodedParam(param, value);
    assert |e| >= 1 by { assert e[|Encode(param)|] == '='; }
    var i := IndexOfChar(url, '#');
    if i < 0 {
      AddFirstFragmentParam(url, e);
      assert FragmentOf(url) == "";
    } else {
      AddFurtherFragmentParam(url, e, i);
    }
  }

  /** A URL without a fragment gets the parameter as its whole fragment. */
  lemma AddFirstFragmentParam(url: string, e: string)
    requires '#' !in url && '#' !in e && '&' !in e && e != []
    ensures ParseQueryString(FragmentOf(url + "#" + e)) == AddParam(map[], e)
  {
    var u2 := url + "#" + e;
    assert u2 == url + ("#" + e);
    IndexOfCharAppended(url, "#" + e);
    assert u2[|url|..] == "#" + e;
    ParseSingleParam(e);
  }

  lemma IndexOfCharAppended(url: string, x: string)
    requires '#' !in url && x != [] && x[0] == '#'
    ensures IndexOfChar(url + x, '#') == |url|
  {
    var u2 := url + x;
    assert u2[..|url|] == url;
    IndexOfCharIs(u2, '#', |url|);
  }

  lemma ParseSingleParam(e: string)
    requires '&' !in e
    ensures ParseQueryString("#" + e) == AddParam(map[], e)
  {
    var q := "#" + e;
    assert q[0] == '#' && q[1..] == e;
    assert QueryBody(q) == e;
    assert SplitOn(e, '&') == [e];
    assert [e][1..] == [];
    match AddParam(map[], e)
    case None =>
    case Some(p) => assert ReduceParams([], p) == Some(p);
  }

  /** Appending text after a URL does not move its first `#`. */
  lemma IndexOfCharExtended(url: string, x: string, i: int)
    requires 0 <= i < |url| && IndexOfChar(url, '#') == i
    ensures IndexOfChar(url + x, '#') == i
  {
    var u2 := url + x;
    assert u2[..i] == url[..i];
    assert u2[i] == '#';
    IndexOfCharIs(u2, '#', i);
  }

  /** The fragment of a URL that has one, after `&` and more text is appended. */
  lemma FragmentOfExtended(url: string, e: string, i: int)
    requires 0 <= i < |url| && IndexOfChar(url, '#') == i
    ensures FragmentOf(url + "&" + e) == url[i..] + "&" + e
  {
    var x := "&" + e;
    IndexOfCharExtended(url, x, i);
    ConcatAssoc(url, "&", e);
    SuffixOfAppend(url, x, i);
    ConcatAssoc(url[i..], "&", e);
  }

  lemma SuffixOfAppend(a: string, b: string, i: int)
    requires 0 <= i <= |a|
    ensures (a + b)[i..] == a[i..] + b
  {
  }

  /** The query parts of a fragment, whether or not the fragment is empty. */
  lemma FragmentParts(url: string, i: int)
    requires 0 <= i < |url| && IndexOfChar(url, '#') == i
    ensures ParseQueryString(FragmentOf(url)) == ReduceParams(SplitOn(url[i + 1..], '&'), map[])
  {
    if i == |url| - 1 {
      assert url[i + 1..] == [];
      assert SplitOn("", '=') == [""];
      DecodeNoPercent("");
      assert SplitOn("", '&') == [""];
      assert [""][1..] == [];
    } else {
      assert FragmentOf(url) == url[i..];
      assert QueryBody(url[i..]) == url[i + 1..];
    }
  }

  /** A URL with a fragment gets the parameter as its last part. */
  lemma AddFurtherFragmentParam(url: string, e: string, i: int)
    requires 0 <= i < |url| && IndexOfChar(url, '#') == i
    requires '#' !in e && '&' !in e && e != []
    requires ParseQueryString(FragmentOf(url)).Some?
    ensures ParseQueryString(FragmentOf(url + "&" + e)) ==
            AddParam(ParseQueryString(FragmentOf(url)).value, e)
  {
    var tail := url[i + 1..];
    FragmentOfExtended(url, e, i);
    FragmentParts(url, i);
    ExtendedQueryParts(url, e, i);
    SplitOnAppend(tail, '&', e);
    assert SplitOn(e, '&') == [e];
    ReduceParamsSnoc(SplitOn(tail, '&'), e, map[]);
  }

  lemma ExtendedQueryParts(url: string, e: string, i: int)
    requires 0 <= i < |url| && url[i] == '#'
    ensures var f := url[i..] + "&" + e;
            f != [] && QueryBody(f) == url[i + 1..] + ['&'] + e
  {
    var f := url[i..] + "&" + e;
    assert f[0] == '#';
    assert f[1..] == url[i + 1..] + ['&'] + e;
  }

  /** What `getQueryParam` then reads back from the new fragment. */
  lemma GetAddedFragmentParam(url: string, param: string, value: string, other: string)
    requires ParseQueryString(FragmentOf(url)).Some?
    requires param != ""
    ensures GetQueryParam(FragmentOf(AddFragmentParam(url, param, value)), param) == Ok(Some(value))
    ensures other != param ==>
      GetQueryParam(FragmentOf(AddFragmentParam(url, param, value)), other) ==
      GetQueryParam(FragmentOf(url), other)
  {
    AddFragmentParamParses(url, param, value);
  }

  /** Appending a fragment parameter leaves the URL before the fragment alone. */
  lemma RemoveFragmentOfAdded(url: string, param: string, value: string)
    ensures RemoveFragment(AddFragmentParam(url, param, value)) == RemoveFragment(url)
  {
    var u2 := AddFragmentParam(url, param, value);
    var i := IndexOfChar(url, '#');
    if i < 0 {
      assert u2[..|url|] == url;
      assert u2[|url|] == '#';
      IndexOfCharIs(u2, '#', |url|);
    } else {
      assert u2[..i] == url[..i];
      IndexOfCharIs(u2, '#', i);
    }
  }

  // ---------------------------------------------------------------------
  // Removing a query parameter

  /** The characters after which a parameter starts. */
  predicate Separator(c: char) {
    c == '?' || c == '#' || c == '&'
  }

  predicate AtBoundary(s: string, i: int)
    requires 0 <= i <= |s|
  {
    i == 0 || Separator(s[i - 1])
  }

  /** A parameter named by `search` starts at position `i` of `s`. */
  predicate StartsParam(s: string, search: string, i: int) {
    0 <= i <= |s| && AtBoundary(s, i) && OccursAt(s, search, i)
  }

  /** What removal leaves of `s`: every `search` that starts a parameter is
      cut up to and including the next `&`, or to the end. `atBoundary`
      says whether a parameter may start at the first character. */
  function Stripped(s: string, search: string, atBoundary: bool): string
    decreases |s|
  {
    if s == [] then []
    else if atBoundary && IsPrefix(search, s) then
      var e := IndexOfChar(s[1..], '&');
      if e < 0 then [] else Stripped(s[e + 2..], search, true)
    else [s[0]] + Stripped(s[1..], search, Separator(s[0]))
  }

  /** The result `removeQueryParam` specifies. */
  function QueryWithout(query: string, param: string): string
  {
    if query == [] then query else Stripped(query, Encode(param) + "=", true)
  }

  /** Loop invariant of `removeQueryParam`: everything before `at` is final,
      and removing from `at` on gives the specified result. */
  predicate Progress(target: string, search: string, qs: string, at: int) {
    0 <= at <= |qs| &&
    target == qs[..at] + Stripped(qs[at..], search, AtBoundary(qs, at))
  }

  /** `removeQueryParam`. */
  method RemoveQueryParam(queryString: string, param: string) returns (r: string)
    ensures r == QueryWithout(queryString, param)
  {
    if queryString == [] {
      return queryString;
    }
    var search := Encode(param) + "=";
    var qs := queryString;
    var index := -1;
    ghost var target := Stripped(queryString, search, true);
    assert qs[..0] == [] && qs[0..] == qs;
    while true
      invariant -1 <= index <= |qs|
      invariant Progress(target, search, qs, if index < 0 then 0 else index)
      decreases |qs|, |qs| - index
    {
      ghost var from := if index < 0 then 0 else index;
      index := IndexOf(qs, search, index);
      if index == -1 {
        ProgressToEnd(target, search, qs, from);
        break;
      }
      if index == 0 || Separator(qs[index - 1]) {
        var end := IndexOf(qs, "&", index + 1);
        if end == -1 {
          end := |qs|;
        }
        ProgressRemove(target, search, qs, from, index);
        assert (if end + 1 <= |qs| then end + 1 else |qs|) == CutAfter(qs, index);
        qs := qs[..index] + qs[if end + 1 <= |qs| then end + 1 else |qs|..];
      } else {
        ProgressSkip(target, search, qs, from, index);
        index := index + 1;
      }
      if index >= |qs| {
        assert qs[index..] == [];
        break;
      }
    }
    assert qs[..|qs|] == qs;
    return qs;
  }

  lemma ProgressToEnd(target: string, search: string, qs: string, from: int)
    requires Progress(target, search, qs, from)
    requires forall k :: from <= k ==> !OccursAt(qs, search, k)
    ensures target == qs
  {
    StripSkip(qs, search, from, |qs|);
    assert qs[..from] + qs[from..|qs|] == qs;
  }

  lemma ProgressSkip(target: string, search: string, qs: string, from: int, index: int)
    requires Progress(target, search, qs, from)
    requires from <= index < |qs|
    requires forall k :: from <= k < index ==> !OccursAt(qs, search, k)
    requires !AtBoundary(qs, index)
    ensures Progress(target, search, qs, index + 1)
  {
    StripSkip(qs, search, from, index);
    StripStep(qs, search, index);
    GlueStep(qs, from, index, Stripped(qs[index + 1..], search, AtBoundary(qs, index + 1)));
  }

  lemma GlueStep(s: string, i: int, j: int, x: string)
    requires 0 <= i <= j < |s|
    ensures s[..i] + (s[i..j] + ([s[j]] + x)) == s[..j + 1] + x
  {
    ConcatAssoc(s[i..j], [s[j]], x);
    ConcatAssoc(s[..i], s[i..j] + [s[j]], x);
    assert s[..i] + (s[i..j] + [s[j]]) == s[..j + 1];
  }

  lemma Glue(s: string, i: int, j: int, x: string)
    requires 0 <= i <= j <= |s|
    ensures s[..i] + (s[i..j] + x) == s[..j] + x
  {
    assert s[..i] + s[i..j] == s[..j];
  }

  lemma ProgressRemove(target: string, search: string, qs: string, from: int, index: int)
    requires search != []
    requires Progress(target, search, qs, from)
    requires from <= index < |qs|
    requires forall k :: from <= k < index ==> !OccursAt(qs, search, k)
    requires AtBoundary(qs, index) && OccursAt(qs, search, index)
    ensures Progress(target, search, qs[..index] + qs[CutAfter(qs, index)..], index)
  {
    var cut := CutAfter(qs, index);
    var t := qs[..index] + qs[cut..];
    var rest := Stripped(qs[cut..], search, true);
    StripSkip(qs, search, from, index);
    StripRemove(qs, search, index);
    assert target == qs[..from] + (qs[from..index] + rest);
    Glue(qs, from, index, rest);
    assert t[..index] == qs[..index];
    assert t[index..] == qs[cut..];
    assert AtBoundary(t, index);
  }

  lemma StripStep(s: string, search: string, i: int)
    requires 0 <= i < |s|
    requires !StartsParam(s, search, i)
    ensures Stripped(s[i..], search, AtBoundary(s, i)) ==
            [s[i]] + Stripped(s[i + 1..], search, AtBoundary(s, i + 1))
  {
    var t := s[i..];
    if |search| <= |t| {
      assert t[..|search|] == s[i..i + |search|];
    }
    assert t[1..] == s[i + 1..];
  }

  /** Removal walks over a stretch with no parameter to remove unchanged. */
  lemma {:induction false} StripSkip(s: string, search: string, i: int, j: int)
    requires 0 <= i <= j <= |s|
    requires forall k :: i <= k < j ==> !StartsParam(s, search, k)
    decreases j - i
    ensures Stripped(s[i..], search, AtBoundary(s, i)) ==
            s[i..j] + Stripped(s[j..], search, AtBoundary(s, j))
  {
    if i < j {
      StripSkip(s, search, i + 1, j);
      StripStep(s, search, i);
      ConsSlice(s, i, j, Stripped(s[j..], search, AtBoundary(s, j)));
    } else {
      assert s[i..j] == [];
    }
  }

  lemma ConsSlice(s: string, i: int, j: int, rest: string)
    requires 0 <= i < j <= |s|
    ensures s[i..j] + rest == [s[i]] + (s[i + 1..j] + rest)
  {
    assert s[i..j] == [s[i]] + s[i + 1..j];
    ConcatAssoc([s[i]], s[i + 1..j], rest);
  }

  /** `s.indexOf('&', from)` is the character search on the suffix. */
  lemma {:induction false} IndexOfAmpersand(s: string, from: int)
    requires 0 <= from <= |s|
    decreases |s| - from
    ensures var e := IndexOfChar(s[from..], '&');
            IndexOf(s, "&", from) == if e < 0 then -1 else from + e
  {
    if from < |s| {
      var t := s[from..];
      assert s[from..from + 1] == [t[0]];
      if t[0] != '&' {
        IndexOfAmpersand(s, from + 1);
        assert t[1..] == s[from + 1..];
      }
    }
  }

  /** Where `removeQueryParam` resumes after cutting the parameter at `i`:
      just past the next `&`, or the end. */
  function CutAfter(s: string, i: int): (cut: int)
    requires 0 <= i < |s|
    ensures i < cut <= |s|
  {
    var end := IndexOf(s, "&", i + 1);
    if end == -1 then |s| else end + 1
  }

  lemma CutAfterIs(s: string, i: int)
    requires 0 <= i < |s|
    ensures var e := IndexOfChar(s[i + 1..], '&');
            CutAfter(s, i) == if e < 0 then |s| else i + e + 2
  {
    IndexOfAmpersand(s, i + 1);
  }

  /** Cutting a parameter that starts at a boundary is one step of `Stripped`. */
  lemma StripRemove(s: string, search: string, i: int)
    requires 0 <= i < |s| && search != []
    requires AtBoundary(s, i) && OccursAt(s, search, i)
    ensures Stripped(s[i..], search, true) == Stripped(s[CutAfter(s, i)..], search, true)
  {
    var u := s[i..];
    OccursIsPrefix(s, search, i);
    SuffixTail(s, i);
    CutAfterIs(s, i);
    var e := IndexOfChar(s[i + 1..], '&');
    var cut := CutAfter(s, i);
    StripCut(u, search, e);
    if e >= 0 {
      SuffixOfSuffix(s, i, e + 2);
      assert u[e + 2..] == s[cut..];
    } else {
      assert s[cut..] == [];
    }
  }

  /** One step of `Stripped` at a parameter to remove, with the position
      of the next `&` given. */
  lemma StripCut(u: string, search: string, e: int)
    requires u != [] && IsPrefix(search, u)
    requires e == IndexOfChar(u[1..], '&')
    ensures Stripped(u, search, true) == if e < 0 then [] else Stripped(u[e + 2..], search, true)
  {
  }

  lemma OccursIsPrefix(s: string, pat: string, i: int)
    requires OccursAt(s, pat, i)
    ensures IsPrefix(pat, s[i..])
  {
    assert s[i..][..|pat|] == s[i..i + |pat|];
  }

  lemma SuffixTail(s: string, i: int)
    requires 0 <= i < |s|
    ensures s[i..][1..] == s[i + 1..]
  {
  }

  lemma SuffixOfSuffix(s: string, i: int, k: int)
    requires 0 <= i && 0 <= k && i + k <= |s|
    ensures s[i..][k..] == s[i + k..]
  {
  }

  /** Removal never lengthens the string. */
  lemma {:induction false} StrippedNotLonger(s: string, search: string, b: bool)
    decreases |s|
    ensures |Stripped(s, search, b)| <= |s|
  {
    if s != [] {
      if b && IsPrefix(search, s) {
        var e := IndexOfChar(s[1..], '&');
        if e >= 0 {
          StrippedNotLonger(s[e + 2..], search, true);
        }
      } else {
        StrippedNotLonger(s[1..], search, Separator(s[0]));
      }
    }
  }

  /** A string where `search` never starts a parameter comes back unchanged
      (so `_z=` survives the removal of `z`). */
  lemma QueryWithoutKeepsLookAlikes(query: string, param: string)
    requires forall k :: 0 <= k < |query| ==> !StartsParam(query, Encode(param) + "=", k)
    ensures QueryWithout(query, param) == query
  {
    if query != [] {
      StripSkip(query, Encode(param) + "=", 0, |query|);
      assert query[0..] == query;
    }
  }

  /** Without a boundary to start at, removal copies up to and including
      the first separator. */
  lemma {:induction false} StrippedCopiesFirstWord(t: string, search: string, n: nat)
    requires n < |t|
    requires forall m :: 0 <= m < n ==> !Separator(t[m])
    decreases n
    ensures n < |Stripped(t, search, false)| && Stripped(t, search, false)[..n + 1] == t[..n + 1]
  {
    if n > 0 {
      StrippedCopiesFirstWord(t[1..], search, n - 1);
      assert Stripped(t, search, false) == [t[0]] + Stripped(t[1..], search, false);
      assert t[..n + 1] == [t[0]] + t[1..][..n];
    }
  }

  /** If removal's copy of `t` starts with separator-free `p`, so does `t`. */
  lemma {:induction false} StrippedPrefixBack(t: string, search: string, p: string, n: nat)
    requires forall m :: 0 <= m < |p| ==> !Separator(p[m])
    requires IsPrefix(p, Stripped(t, search, false))
    requires n <= |p|
    decreases n
    ensures n <= |t| && t[..n] == p[..n]
  {
    if n > 0 {
      StrippedPrefixBack(t, search, p, n - 1);
      StrippedNotLonger(t, search, false);
      StrippedCopiesFirstWord(t, search, n - 1);
      var r := Stripped(t, search, false);
      assert r[..n] == t[..n];
      assert p[..n] == r[..n];
    }
  }

  /** No `search` starts in `r` at a boundary, where `b` says whether the
      start of `r` is one. */
  predicate NoParamLeft(r: string, search: string, b: bool) {
    forall k :: 0 <= k < |r| && (if k == 0 then b else Separator(r[k - 1])) ==> !OccursAt(r, search, k)
  }

  /** A parameter at the start of the output was one at the start of the input. */
  lemma StrippedHead(s: string, search: string)
    requires search != []
    requires forall m :: 0 <= m < |search| ==> !Separator(search[m])
    requires s != []
    requires OccursAt([s[0]] + Stripped(s[1..], search, Separator(s[0])), search, 0)
    ensures IsPrefix(search, s)
  {
    var c := s[0];
    var p := search[1..];
    assert !Separator(search[0]);
    ConsOccurs(c, Stripped(s[1..], search, Separator(c)), search);
    NoSeparatorTail(search);
    StrippedPrefixBack(s[1..], search, p, |p|);
    PrefixCons(s, c, p);
  }

  lemma NoSeparatorTail(search: string)
    requires search != []
    requires forall m :: 0 <= m < |search| ==> !Separator(search[m])
    ensures forall m :: 0 <= m < |search[1..]| ==> !Separator(search[1..][m])
  {
    forall m | 0 <= m < |search[1..]| ensures !Separator(search[1..][m]) {
      assert search[1..][m] == search[m + 1];
    }
  }

  lemma PrefixCons(s: string, c: char, p: string)
    requires s != [] && s[0] == c
    requires |p| <= |s[1..]| && s[1..][..|p|] == p[..|p|]
    ensures IsPrefix([c] + p, s)
  {
    assert p[..|p|] == p;
    assert s[..|p| + 1] == [c] + s[1..][..|p|];
  }

  /** `search` at the start of `[c] + r` is `c` followed by a prefix of `r`. */
  lemma ConsOccurs(c: char, r: string, search: string)
    requires search != [] && OccursAt([c] + r, search, 0)
    ensures c == search[0] && IsPrefix(search[1..], r) && search == [c] + search[1..]
  {
    var cr := [c] + r;
    assert cr[..|search|] == search;
    assert r[..|search| - 1] == cr[1..|search|];
  }

  /** After removal no parameter named `search` starts at a boundary. */
  lemma {:induction false} StrippedLeavesNone(s: string, search: string, b: bool)
    requires search != []
    requires forall m :: 0 <= m < |search| ==> !Separator(search[m])
    decreases |s|
    ensures NoParamLeft(Stripped(s, search, b), search, b)
  {
    var r := Stripped(s, search, b);
    if s == [] {
    } else if b && IsPrefix(search, s) {
      var e := IndexOfChar(s[1..], '&');
      if e >= 0 {
        assert r == Stripped(s[e + 2..], search, true);
        StrippedLeavesNone(s[e + 2..], search, true);
      }
    } else {
      StrippedLeavesNone(s[1..], search, Separator(s[0]));
      assert r == [s[0]] + Stripped(s[1..], search, Separator(s[0]));
      CopiedLeavesNone(s, search, b);
    }
  }

  /** A character copied in front of an output with no parameter left at a
      boundary leaves none either, unless it starts one itself. */
  lemma CopiedLeavesNone(s: string, search: string, b: bool)
    requires search != []
    requires forall m :: 0 <= m < |search| ==> !Separator(search[m])
    requires s != [] && !(b && IsPrefix(search, s))
    requires NoParamLeft(Stripped(s[1..], search, Separator(s[0])), search, Separator(s[0]))
    ensures NoParamLeft([s[0]] + Stripped(s[1..], search, Separator(s[0])), search, b)
  {
    var c := s[0];
    var r' := Stripped(s[1..], search, Separator(c));
    var r := [c] + r';
    forall k | 0 <= k < |r| && (if k == 0 then b else Separator(r[k - 1]))
      ensures !OccursAt(r, search, k)
    {
      if k == 0 {
        if b && OccursAt(r, search, 0) {
          StrippedHead(s, search);
        }
      } else {
        ShiftedNone(c, r', search, k);
      }
    }
  }

  /** Position `k > 0` of `[c] + r` is position `k - 1` of `r`. */
  lemma ShiftedNone(c: char, r: string, search: string, k: int)
    requires NoParamLeft(r, search, Separator(c))
    requires 1 <= k <= |r| && Separator(([c] + r)[k - 1])
    ensures !OccursAt([c] + r, search, k)
  {
    var cr := [c] + r;
    if k + |search| <= |cr| {
      assert cr[k..k + |search|] == r[k - 1..k - 1 + |search|];
    }
    assert OccursAt(cr, search, k) ==> OccursAt(r, search, k - 1);
    assert cr[k - 1] == if k - 1 == 0 then c else r[k - 2];
  }

  /** `removeQueryParam` leaves no parameter of that name behind, and never
      lengthens the string. */
  lemma QueryWithoutRemovesAll(query: string, param: string)
    ensures |QueryWithout(query, param)| <= |query|
    ensures var r := QueryWithout(query, param);
            forall k :: 0 <= k < |r| ==> !StartsParam(r, Encode(param) + "=", k)
  {
    if query != [] {
      var search := Encode(param) + "=";
      EncodeHasNoDelimiter(param);
      assert forall m :: 0 <= m < |search| ==> !Separator(search[m]) by {
        forall m | 0 <= m < |search| ensures !Separator(search[m]) {
          if m < |Encode(param)| {
            assert search[m] == Encode(param)[m];
          }
        }
      }
      StrippedNotLonger(query, search, true);
      StrippedLeavesNone(query, search, true);
    }
  }

  // ---------------------------------------------------------------------
  // Requests

  /** `ActivityRequestDef`. A field the JSON does not carry as a string
      (or boolean) is absent. */
  datatype Request = Request(
    requestId: Option<string>,
    returnUrl: Option<string>,
    args: Json,
    origin: Option<string>,
    originVerified: Option<bool>)

  function StrField(j: Json, key: string): Option<string>
  {
    match Get(j, key)
    case Some(JStr(s)) => Some(s)
    case _ => None
  }

  /** `v || undefined` on a string member. */
  function TruthyStr(v: Option<Json>): Option<string>
  {
    match v
    case Some(JStr(s)) => if s == "" then None else Some(s)
    case _ => None
  }

  function OptionalString(key: string, v: Option<string>): seq<Member>
  {
    if v.Some? then [Member(key, JStr(v.value))] else []
  }

  /** The object `serializeRequest` stringifies; `undefined` members are
      left out, as `JSON.stringify` leaves them out. */
  function RequestJson(r: Request): Json
  {
    var ms := RequestMembers(r);
    JObj(ms[0] + ms[1] + ms[2] + ms[3] + ms[4])
  }

  /** `serializeRequest`. */
  function SerializeRequest(r: Request): string
  {
    Stringify(RequestJson(r))
  }

  /** `parseRequest`: `Ok(None)` for an empty string, `Err` for text that
      is not JSON or is `null`; only a trusted caller reads the origin. */
  function ParseRequest(s: string, trusted: bool): (r: Result<Option<Request>>)
    ensures r.Ok? && r.value.None? <==> s == []
    ensures r.Err? <==> s != [] && (Parse(s).None? || Parse(s) == Some(JNull))
    ensures r.Err? && Parse(s).None? ==> r.message == "SyntaxError: not JSON"
    ensures !trusted && r.Ok? && r.value.Some? ==>
              r.value.value.origin.None? && r.value.value.originVerified.None?
  {
    if s == [] then Ok(None)
    else
      match Parse(s)
      case None => Err("SyntaxError: not JSON")
      case Some(p) =>
        if p == JNull then Err("TypeError: request is null")
        else Ok(Some(RequestOf(p, trusted)))
  }

  /** The request fields read off a parsed object; `origin` is read with
      `|| undefined` and `originVerified` only when it is `true`. */
  function RequestOf(p: Json, trusted: bool): (r: Request)
    ensures !trusted ==> r.origin.None? && r.originVerified.None?
  {
    Request(
      StrField(p, "requestId"),
      StrField(p, "returnUrl"),
      GetOrNull(p, "args"),
      if trusted then TruthyStr(Get(p, "origin")) else None,
      if trusted && Get(p, "originVerified") == Some(JBool(true)) then Some(true) else None)
  }

  lemma {:induction false} LastMemberAppend(a: seq<Member>, b: seq<Member>, key: string)
    decreases |b|
    ensures LastMember(a + b, key) ==
            if LastMember(b, key).Some? then LastMember(b, key) else LastMember(a, key)
  {
    if b == [] {
      assert a + b == a;
    } else {
      var ab := a + b;
      var b' := b[..|b| - 1];
      DropLastAppend(a, b);
      if b[|b| - 1].key == key {
        assert LastMember(ab, key) == Some(b[|b| - 1].value) == LastMember(b, key);
      } else {
        assert LastMember(ab, key) == LastMember(a + b', key);
        assert LastMember(b, key) == LastMember(b', key);
        LastMemberAppend(a, b', key);
      }
    }
  }

  lemma DropLastAppend<T>(a: seq<T>, b: seq<T>)
    requires b != []
    ensures (a + b)[|a + b| - 1] == b[|b| - 1]
    ensures (a + b)[..|a + b| - 1] == a + b[..|b| - 1]
  {
  }

  lemma FiveParts(a: seq<Member>, b: seq<Member>, c: seq<Member>, d: seq<Member>, e: seq<Member>, key: string)
    ensures LastMember(a + b + c + d + e, key) ==
            if LastMember(e, key).Some? then LastMember(e, key)
            else if LastMember(d, key).Some? then LastMember(d, key)
            else if LastMember(c, key).Some? then LastMember(c, key)
            else if LastMember(b, key).Some? then LastMember(b, key)
            else LastMember(a, key)
  {
    LastMemberAppend(a + b + c + d, e, key);
    LastMemberAppend(a + b + c, d, key);
    LastMemberAppend(a + b, c, key);
    LastMemberAppend(a, b, key);
  }

  /** The members `serializeRequest` writes, in order. */
  function RequestMembers(r: Request): (ms: seq<seq<Member>>)
    ensures |ms| == 5
  {
    [OptionalString("requestId", r.requestId),
     OptionalString("returnUrl", r.returnUrl),
     [Member("args", r.args)],
     OptionalString("origin", r.origin),
     if r.originVerified.Some? then [Member("originVerified", JBool(r.originVerified.value))] else []]
  }

  lemma RequestFieldRequestId(r: Request)
    ensures StrField(RequestJson(r), "requestId") == r.requestId
  {
    var ms := RequestMembers(r);
    FiveParts(ms[0], ms[1], ms[2], ms[3], ms[4], "requestId");
    KeysDistinct();
  }

  lemma RequestFieldReturnUrl(r: Request)
    ensures StrField(RequestJson(r), "returnUrl") == r.returnUrl
  {
    var ms := RequestMembers(r);
    FiveParts(ms[0], ms[1], ms[2], ms[3], ms[4], "returnUrl");
    KeysDistinct();
  }

  lemma RequestFieldArgs(r: Request)
    ensures Get(RequestJson(r), "args") == Some(r.args)
  {
    var ms := RequestMembers(r);
    FiveParts(ms[0], ms[1], ms[2], ms[3], ms[4], "args");
    KeysDistinct();
  }

  lemma RequestFieldOrigin(r: Request)
    ensures Get(RequestJson(r), "origin") == if r.origin.Some? then Some(JStr(r.origin.value)) else None
  {
    var ms := RequestMembers(r);
    FiveParts(ms[0], ms[1], ms[2], ms[3], ms[4], "origin");
    KeysDistinct();
  }

  lemma RequestFieldOriginVerified(r: Request)
    ensures Get(RequestJson(r), "originVerified") ==
            if r.originVerified.Some? then Some(JBool(r.originVerified.value)) else None
  {
    var ms := RequestMembers(r);
    FiveParts(ms[0], ms[1], ms[2], ms[3], ms[4], "originVerified");
    KeysDistinct();
  }

  /** The five member names are pairwise different. */
  lemma KeysDistinct()
    ensures "requestId" != "returnUrl" && "requestId" != "args" && "requestId" != "origin"
    ensures "requestId" != "originVerified" && "returnUrl" != "args" && "returnUrl" != "origin"
    ensures "returnUrl" != "originVerified" && "args" != "origin" && "args" != "originVerified"
    ensures "origin" != "originVerified"
  {
    assert "requestId"[2] != "returnUrl"[2];
    assert "requestId"[0] != "args"[0] && "requestId"[0] != "origin"[0] && "requestId"[0] != "originVerified"[0];
    assert "returnUrl"[0] != "args"[0] && "returnUrl"[0] != "origin"[0] && "returnUrl"[0] != "originVerified"[0];
    assert "args"[0] != "origin"[0] && "args"[0] != "originVerified"[0];
    assert |"origin"| != |"originVerified"|;
  }

  /** Each member of a serialized request reads back as the field it came from. */
  lemma RequestJsonFields(r: Request)
    ensures StrField(RequestJson(r), "requestId") == r.requestId
    ensures StrField(RequestJson(r), "returnUrl") == r.returnUrl
    ensures Get(RequestJson(r), "args") == Some(r.args)
    ensures Get(RequestJson(r), "origin") == if r.origin.Some? then Some(JStr(r.origin.value)) else None
    ensures Get(RequestJson(r), "originVerified") ==
            if r.originVerified.Some? then Some(JBool(r.originVerified.value)) else None
  {
    RequestFieldRequestId(r);
    RequestFieldReturnUrl(r);
    RequestFieldArgs(r);
    RequestFieldOrigin(r);
    RequestFieldOriginVerified(r);
  }

  /** `args` as `parseRequest` leaves it: a falsy value reads back as `null`. */
  predicate CanonicalArgs(args: Json) {
    args == JNull || !Falsy(args)
  }

  /** The request a reader gets back from a serialized request: the
      untrusted reader drops both origin fields, the trusted one drops an
      empty origin and a `false` verified flag. */
  function ReadBack(r: Request, trusted: bool): Request
  {
    r.(origin := if trusted && r.origin != Some("") then r.origin else None,
       originVerified := if trusted && r.originVerified == Some(true) then Some(true) else None)
  }

  lemma ParseSerialized(r: Request, trusted: bool)
    requires CanonicalArgs(r.args)
    ensures ParseRequest(SerializeRequest(r), trusted) == Ok(Some(ReadBack(r, trusted)))
  {
    var j := RequestJson(r);
    var s := SerializeRequest(r);
    ParseStringify(j);
    FirstChar(j);
    assert Parse(s) == Some(j) && s != [];
    RequestOfJson(r, trusted);
  }

  lemma RequestOfJson(r: Request, trusted: bool)
    requires CanonicalArgs(r.args)
    ensures RequestOf(RequestJson(r), trusted) == ReadBack(r, trusted)
  {
    RequestJsonFields(r);
  }

  /** An untrusted request (no origin fields) survives serialization, and
      is read back the same whether or not the reader trusts it. */
  lemma ParseSerializeRequest(r: Request, trusted: bool)
    requires CanonicalArgs(r.args)
    requires r.origin.None? && r.originVerified.None?
    ensures ParseRequest(SerializeRequest(r), trusted) == Ok(Some(r))
  {
    ParseSerialized(r, trusted);
  }

  /** A trusted reader gets the origin fields back exactly when they are not
      the falsy values that `|| undefined` drops. */
  lemma ParseSerializeTrustedRequest(r: Request)
    requires CanonicalArgs(r.args)
    ensures ParseRequest(SerializeRequest(r), true) == Ok(Some(r)) <==>
            r.origin != Some("") && r.originVerified != Some(false)
  {
    ParseSerialized(r, true);
    if ReadBack(r, true) == r {
      assert r.origin == ReadBack(r, true).origin && r.originVerified == ReadBack(r, true).originVerified;
    }
  }

  /** An untrusted reader never sees the origin fields, whatever was written. */
  lemma ParseSerializedUntrusted(r: Request)
    requires CanonicalArgs(r.args)
    ensures ParseRequest(SerializeRequest(r), false) == Ok(Some(r.(origin := None, originVerified := None)))
  {
    ParseSerialized(r, false);
  }

  // ---------------------------------------------------------------------
  // Errors and results

  const ABORT_ERR_NAME: string := "AbortError"
  const ABORT_ERR_CODE: int := 20

  /** A rejection reason: an error object, or any other thrown value. */
  datatype Reason = ErrorReason(err: ErrorValue) | ValueReason(v: Json)

  /** `isAbortError`: an object whose `name` is `AbortError`. */
  predicate IsAbortError(reason: Reason) {
    match reason
    case ErrorReason(err) => err.name == ABORT_ERR_NAME
    case ValueReason(v) => Get(v, "name") == Some(JStr(ABORT_ERR_NAME))
  }

  /** `createAbortError`: a DOMException (or an `Error` dressed as one)
      named `AbortError` with code 20. */
  function CreateAbortError(message: string): (e: ErrorValue)
    ensures IsAbortError(ErrorReason(e)) && e.code == Some(ABORT_ERR_CODE)
    ensures message == "" ==> e.message == ABORT_ERR_NAME
    ensures message != "" ==> e.message == ABORT_ERR_NAME + ": " + message
  {
    ErrorValue(ABORT_ERR_NAME, ABORT_ERR_NAME + (if message != "" then ": " + message else ""), Some(ABORT_ERR_CODE))
  }

  /** A plain `Error`, as a FAILED result carries, is never an abort. */
  lemma PlainErrorIsNotAbort(message: string)
    ensures !IsAbortError(ErrorReason(PlainError(message)))
  {
    assert PlainError(message).name[0] != ABORT_ERR_NAME[0];
  }

  /** How the result promise settles. A rejection carries the result as the
      error's `activityResult`. */
  datatype Settlement =
    | Fulfilled(result: ActivityResult)
    | Rejected(reason: ErrorValue, activityResult: ActivityResult)

  /** `resolveResult`. */
  function ResolveResult(result: ActivityResult): (s: Settlement)
    ensures s.Fulfilled? <==> result.ok
    ensures s.Fulfilled? ==> s.result == result
    ensures s.Rejected? ==> s.activityResult == result
  {
    if result.ok then Fulfilled(result)
    else Rejected(if result.error.Some? then result.error.value else CreateAbortError(""), result)
  }

  /** OK fulfils; CANCELED (and an unknown code) rejects with an AbortError;
      FAILED rejects with its own error, which is not an abort. */
  lemma ResolveResultByCode(r: ActivityResult)
    requires WellFormed(r)
    ensures r.code == OK ==> ResolveResult(r) == Fulfilled(r)
    ensures r.code != OK && r.code != FAILED ==>
              ResolveResult(r).Rejected? && IsAbortError(ErrorReason(ResolveResult(r).reason))
    ensures r.code == FAILED ==>
              ResolveResult(r).Rejected? && ResolveResult(r).reason == r.error.value &&
              !IsAbortError(ErrorReason(ResolveResult(r).reason))
  {
    if r.code == FAILED {
      PlainErrorIsNotAbort(r.error.value.message);
    }
  }

  // ---------------------------------------------------------------------
  // Redirect URL safety

  function AsciiLower(c: char): char
  {
    if 'A' <= c <= 'Z' then (c as int + 32) as char else c
  }

  const JAVASCRIPT_SCHEME: string := "javascript:"

  /** A URL whose scheme is `javascript:` in any letter case. */
  predicate UnsafeRedirectUrl(url: string) {
    |url| >= |JAVASCRIPT_SCHEME| &&
    forall i :: 0 <= i < |JAVASCRIPT_SCHEME| ==> AsciiLower(url[i]) == JAVASCRIPT_SCHEME[i]
  }

  /** `assertSafeRedirectUrl`: returns the URL or throws an error whose
      message says it is unsafe. */
  function AssertSafeRedirectUrl(url: string): (r: Result<string>)
    ensures r.Ok? <==> !UnsafeRedirectUrl(url)
    ensures r.Ok? ==> r.value == url
  {
    if UnsafeRedirectUrl(url) then Err("The redirect URL is unsafe") else Ok(url)
  }
}
