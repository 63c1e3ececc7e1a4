/**
 * The request normaliser of `send`: from the stored method, URL and headers and the
 * body handed to `send`, it derives the settings record that fixtures are matched
 * against. It is a pure transformation.
 */
module Normalizer {
  import opened Wrappers
  import opened JsValues
  import opened Text

  /** The settings record offered to the fixture registry. */
  datatype Settings = Settings(
    url: Value,
    data: Value,
    headers: map<string, string>,
    verb: string,
    isAsync: Value)

  /** `type.toLowerCase() || 'get'`. */
  function MethodName(typ: string): (m: string)
    ensures m != ""
    ensures typ == "" ==> m == "get"
    ensures typ != "" ==> m == Lower(typ)
  {
    if Lower(typ) == "" then "get" else Lower(typ)
  }

  /** The guard `!data && type === "get" || type === "delete"`, with JavaScript's
      precedence: `&&` binds first, so `delete` strips the query whatever the body. */
  predicate StripsQuery(verb: string, body: Value)
    ensures StripsQuery(verb, body) ==> verb == "get" || verb == "delete"
  {
    (!Truthy(body) && verb == "get") || verb == "delete"
  }

  /** `url.split("?")[0]`. */
  function PathOf(url: string): (path: string)
    ensures path <= url && '?' !in path
    ensures |path| < |url| ==> url[|path|] == '?'
  {
    SplitFirst(url, '?');
    Split(url, '?')[0]
  }

  /** `url.split("?")[1]`, `undefined` when the URL has no `?`. */
  function QueryOf(url: string): (q: Option<string>)
    ensures q.None? <==> '?' !in url
    ensures q.Some? ==> '?' !in q.value
  {
    SplitFirst(url, '?');
    SplitPiecesAreFree(url, '?');
    var parts := Split(url, '?');
    if |parts| > 1 then Some(parts[1]) else None
  }

  /** Conversion of string request data: `JSON.parse`, and `deparam` when parsing throws;
      any other data is kept as it is. */
  function DecodeData(c: Codecs, d: Value): (r: Value)
    ensures !d.Str? ==> r == d
    ensures d.Str? && c.parseJson(d.s).Some? ==> r == c.parseJson(d.s).value
    ensures d.Str? && c.parseJson(d.s).None? ==> r == c.deparam(Some(d.s))
  {
    if d.Str? then
      match c.parseJson(d.s)
      case Some(v) => v
      case None => c.deparam(Some(d.s))
    else d
  }

  /** The settings record built by `send`. The URL must be a string when the query is
      stripped, or `split` throws. */
  function Normalize(c: Codecs, typ: string, url: Value, body: Value,
                     headers: map<string, string>, isAsync: Value): (s: Settings)
    requires StripsQuery(MethodName(typ), body) ==> url.Str?
    ensures s.verb == MethodName(typ) && s.headers == headers && s.isAsync == isAsync
    ensures StripsQuery(s.verb, body) ==>
      && s.url.Str?
      && s.url.s <= url.s
      && '?' !in s.url.s
      && (|s.url.s| < |url.s| ==> url.s[|s.url.s|] == '?')
      && s.data == DecodeData(c, c.deparam(QueryOf(url.s)))
    ensures !StripsQuery(s.verb, body) ==> s.url == url && s.data == DecodeData(c, body)
  {
    var m := MethodName(typ);
    if StripsQuery(m, body) then
      SplitFirst(url.s, '?');
      Settings(Str(PathOf(url.s)), DecodeData(c, c.deparam(QueryOf(url.s))), headers, m, isAsync)
    else
      Settings(url, DecodeData(c, body), headers, m, isAsync)
  }

  /** Which requests lose their query string: every `delete`, and a `get` exactly when
      its body is falsy; no other method. */
  lemma StripsQueryCases(verb: string, body: Value)
    ensures verb == "delete" ==> StripsQuery(verb, body)
    ensures verb == "get" ==> (StripsQuery(verb, body) <==> !Truthy(body))
    ensures verb != "get" && verb != "delete" ==> !StripsQuery(verb, body)
  {
  }

  /** The method name is lower-case and never empty, and normalising it again changes
      nothing. */
  lemma {:induction false} MethodNameIsCanonical(typ: string)
    ensures forall i :: 0 <= i < |MethodName(typ)| ==> !IsUpper(MethodName(typ)[i])
    ensures MethodName(MethodName(typ)) == MethodName(typ)
  {
    LowerIsIdempotent(typ);
    LowerIsIdempotent(MethodName(typ));
  }

  /** With a `?` in the URL, the URL is the path, the first `?` and the rest, and the
      query is the path of the rest. */
  lemma QueryAfterPath(url: string)
    requires '?' in url
    ensures |PathOf(url)| < |url|
    ensures url == PathOf(url) + "?" + url[|PathOf(url)| + 1..]
    ensures QueryOf(url) == Some(PathOf(url[|PathOf(url)| + 1..]))
  {
    SplitFirst(url, '?');
    var p := PathOf(url);
    assert url[..|p|] == p;
    assert url[|p|] == '?';
    assert url == url[..|p|] + [url[|p|]] + url[|p| + 1..];
  }

  /** With a `?` in the URL, the path, that `?` and the query are a prefix of the URL,
      followed by nothing or by the second `?`. */
  lemma QueryInUrl(url: string)
    requires '?' in url
    ensures QueryOf(url).Some?
    ensures var pre := PathOf(url) + "?" + QueryOf(url).value;
      && pre <= url
      && (|pre| < |url| ==> url[|pre|] == '?')
  {
    QueryAfterPath(url);
    var p := PathOf(url);
    var after := url[|p| + 1..];
    var q := PathOf(after);
    var pre := p + "?";
    assert url == pre + after;
    assert pre + q == url[..|pre + q|];
    if |pre + q| < |url| {
      assert url[|pre + q|] == after[|q|];
    }
  }

  /** The query handed to `deparam` is absent exactly when the URL has no `?`; otherwise
      it is the text after the first `?` up to the next `?` (or the end), and the URL is
      the path, that `?`, the query and then nothing or another `?` with what follows. */
  lemma {:induction false} QueryOfSegment(url: string)
    ensures QueryOf(url).None? <==> '?' !in url
    ensures '?' !in url ==> PathOf(url) == url
    ensures QueryOf(url).Some? ==>
      var q := QueryOf(url).value;
      && '?' !in q
      && PathOf(url) + "?" + q <= url
      && (|PathOf(url) + "?" + q| < |url| ==> url[|PathOf(url) + "?" + q|] == '?')
  {
    if '?' !in url {
      assert |PathOf(url)| == |url|;
    } else {
      QueryInUrl(url);
    }
  }
}
