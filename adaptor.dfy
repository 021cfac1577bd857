/**
 * The OpenAI-compatible channel adaptor: the upstream URL (with Azure's
 * deployment-name rules), the authentication headers, the request
 * conversion, the model list by channel type, and the dispatch of the
 * upstream response to the stream or the non-stream handler. The adaptor's
 * operations that read none of its fields are functions of this module.
 */
module OpenaiAdaptor {
  import opened Wrappers
  import opened Strings
  import opened Dto
  import opened Sensitive
  import opened OpenaiRelay

  // ---------------------------------------------------------------------
  // The adaptor object

  /** The model list an adaptor offers: one of three fixed lists (their contents are not part of this model). */
  datatype ModelList = Ai360Models | MoonshotModels | OpenAIModels

  class Adaptor {
    var channelType: ChannelType

    constructor ()
      ensures channelType == Unknown
    {
      channelType := Unknown;
    }

    /** Init: remember the channel type of the request. */
    method Init(info: RelayInfo, request: GeneralRequest)
      modifies this
      ensures channelType == info.channelType
    {
      channelType := info.channelType;
    }

    /** GetModelList: the 360 list, the Moonshot list, or the default list. */
    function GetModelList(): (r: ModelList)
      reads this
      ensures r == Ai360Models <==> channelType == Ai360
      ensures r == MoonshotModels <==> channelType == Moonshot
      ensures r == OpenAIModels <==> channelType != Ai360 && channelType != Moonshot
    {
      match channelType
      case Ai360 => Ai360Models
      case Moonshot => MoonshotModels
      case _ => OpenAIModels
    }
  }

  // ---------------------------------------------------------------------
  // The upstream URL

  /** The arguments GetRequestURL hands to GetFullRequestURL, which is not part of this model. */
  datatype FullRequestURL = FullRequestURL(baseUrl: string, path: string, channelType: ChannelType)

  /**
   * What the trimming may remove from the end of a dot-free name: `-0613`,
   * then `-0314`, then `-0301`, each present or not, in this order.
   */
  function DateTail(d0613: bool, d0314: bool, d0301: bool): (t: string)
  {
    (if d0613 then "-0613" else "") + (if d0314 then "-0314" else "") + (if d0301 then "-0301" else "")
  }

  /**
   * The Azure deployment name for an upstream model: every dot removed, then
   * `-0301`, `-0314` and `-0613` trimmed, in that order, at most once each.
   */
  function AzureDeployment(model: string): (r: string)
    ensures '.' !in r
    // A date is removed exactly when it ends what is left once the later
    // trims have removed theirs: the dot-free name is r followed by those dates.
    ensures var d := RemoveChar(model, '.');
            var d0301 := HasSuffix(d, "-0301");
            var t0301 := if d0301 then "-0301" else "";
            var d0314 := HasSuffix(d, "-0314" + t0301);
            var t0314 := if d0314 then "-0314" else "";
            var d0613 := HasSuffix(d, ("-0613" + t0314) + t0301);
            r + DateTail(d0613, d0314, d0301) == d
  {
    var d := RemoveChar(model, '.');
    var a := TrimSuffix(d, "-0301");
    var b := TrimSuffix(a, "-0314");
    var c := TrimSuffix(b, "-0613");
    ThreeTrims(d, "-0301", "-0314", "-0613");
    TrimsUncover(d, "-0301", "-0314", "-0613");
    ghost var tail := DateTail(HasSuffix(b, "-0613"), HasSuffix(a, "-0314"), HasSuffix(d, "-0301"));
    assert c + tail == d;
    assert '.' !in c by { assert forall x :: x in c ==> x in c + tail; }
    c
  }

  /** One trim removes the suffix exactly when it is present. */
  lemma TrimStep(s: string, suffix: string)
    ensures TrimSuffix(s, suffix) + (if HasSuffix(s, suffix) then suffix else "") == s
  {
    if !HasSuffix(s, suffix) {
      assert TrimSuffix(s, suffix) + "" == TrimSuffix(s, suffix);
    }
  }

  /** Three trims in a row remove exactly the suffixes that were present, last trimmed first in the result. */
  lemma ThreeTrims(d: string, x: string, y: string, z: string)
    ensures var a := TrimSuffix(d, x);
            var b := TrimSuffix(a, y);
            var c := TrimSuffix(b, z);
            c + ((if HasSuffix(b, z) then z else "") + (if HasSuffix(a, y) then y else "") + (if HasSuffix(d, x) then x else "")) == d
  {
    var a := TrimSuffix(d, x);
    var b := TrimSuffix(a, y);
    TrimStep(d, x);
    TrimStep(a, y);
    TrimStep(b, z);
  }

  /** After trimming, a later suffix is found exactly when it precedes what the earlier trims removed. */
  lemma TrimsUncover(d: string, x: string, y: string, z: string)
    ensures var ex := if HasSuffix(d, x) then x else "";
            var ey := if HasSuffix(TrimSuffix(d, x), y) then y else "";
            (HasSuffix(TrimSuffix(d, x), y) <==> HasSuffix(d, y + ex)) &&
            (HasSuffix(TrimSuffix(TrimSuffix(d, x), y), z) <==> HasSuffix(d, (z + ey) + ex))
  {
    var a := TrimSuffix(d, x);
    var b := TrimSuffix(a, y);
    TrimStep(d, x);
    TrimStep(a, y);
    var ex := if HasSuffix(d, x) then x else "";
    var ey := if HasSuffix(a, y) then y else "";
    SuffixAppend(a, ex, y);
    SuffixAppend(b, ey, z);
    SuffixAppend(a, ex, z + ey);
  }

  /** Appending the same tail to a string and to a candidate suffix keeps whether it is a suffix. */
  lemma SuffixAppend(t: string, e: string, y: string)
    ensures HasSuffix(t + e, y + e) <==> HasSuffix(t, y)
  {
    if |y| <= |t| {
      var k := |t| - |y|;
      assert (t + e)[k..] == t[k..] + e;
      if (t + e)[k..] == y + e {
        assert t[k..] == (t[k..] + e)[..|y|];
      }
    }
  }

  /** A dot-free name with none of the date suffixes is its own deployment name. */
  lemma DeploymentOfPlainName(model: string)
    requires '.' !in model
    requires !HasSuffix(model, "-0301") && !HasSuffix(model, "-0314") && !HasSuffix(model, "-0613")
    ensures AzureDeployment(model) == model
  {
  }

  /** Any dot-free name without a date suffix loses exactly the one date appended to it. */
  lemma DeploymentDropsDate(base: string, date: string)
    requires '.' !in base
    requires !HasSuffix(base, "-0301") && !HasSuffix(base, "-0314") && !HasSuffix(base, "-0613")
    requires date == "-0301" || date == "-0314" || date == "-0613"
    ensures AzureDeployment(base + date) == base
  {
    var d := base + date;
    assert '.' !in d by { assert forall x :: x in d ==> x in base || x in date; }
    assert d[|d| - 5..] == date && d[..|d| - 5] == base;
    assert HasSuffix(d, date);
  }

  /** `gpt-4-32k-0613` is deployed as `gpt-4-32k`; `gpt-3.5-turbo-0301` as `gpt-35-turbo`. */
  lemma DeploymentExamples()
    ensures AzureDeployment("gpt-4-32k-0613") == "gpt-4-32k"
    ensures AzureDeployment("gpt-3.5-turbo-0301") == "gpt-35-turbo"
  {
    var m := "gpt-4-32k" + "-0613";
    assert m == "gpt-4-32k-0613";
    assert '.' !in m;
    assert !HasSuffix(m, "-0301") by { assert m[|m| - 5..] == "-0613"; }
    assert !HasSuffix(m, "-0314") by { assert m[|m| - 5..] == "-0613"; }
    assert m[|m| - 5..] == "-0613";
    assert m[..|m| - 5] == "gpt-4-32k";
    DottedDeploymentExample();
  }

  /** The dot of the version number is removed before the date is trimmed. */
  lemma DottedDeploymentExample()
    ensures AzureDeployment("gpt-3.5-turbo-0301") == "gpt-35-turbo"
  {
    var d, e := "gpt-35-turbo" + "-0301", "gpt-35-turbo";
    DotRemovalExample();
    assert d[|d| - 5..] == "-0301" && d[..|d| - 5] == e;
    assert e[|e| - 5..] == "turbo";
    assert TrimSuffix(d, "-0301") == e;
    assert TrimSuffix(e, "-0314") == e && TrimSuffix(e, "-0613") == e;
  }

  lemma DotRemovalExample()
    ensures RemoveChar("gpt-3.5-turbo-0301", '.') == "gpt-35-turbo" + "-0301"
  {
    var a, b := "gpt-3", "5-turbo-0301";
    assert a + ['.'] + b == "gpt-3.5-turbo-0301";
    assert a + b == "gpt-35-turbo" + "-0301";
    assert '.' !in a && '.' !in b;
    RemoveSingleChar(a, '.', b);
  }

  /** The suffixes are trimmed in a fixed order, each once: `-0314-0613` loses only `-0613`, `-0613-0314` loses both. */
  lemma DeploymentTrimOrder()
    ensures AzureDeployment("gpt-4-0314-0613") == "gpt-4-0314"
    ensures AzureDeployment("gpt-4-0613-0314") == "gpt-4"
  {
    LaterDateKept();
    BothDatesTrimmed();
  }

  /** `-0314` is trimmed before `-0613`, so once `-0613` is gone it is not looked at again. */
  lemma LaterDateKept()
    ensures AzureDeployment("gpt-4-0314-0613") == "gpt-4-0314"
  {
    var m := "gpt-4-0314" + "-0613";
    assert m == "gpt-4-0314-0613";
    assert '.' !in m;
    assert m[|m| - 5..] == "-0613";
    assert !HasSuffix(m, "-0301") && !HasSuffix(m, "-0314");
    var a := "gpt-4-0314";
    assert m[..|m| - 5] == a;
  }

  /** `-0314` at the end goes first, which uncovers `-0613`. */
  lemma BothDatesTrimmed()
    ensures AzureDeployment("gpt-4-0613-0314") == "gpt-4"
  {
    var n := "gpt-4-0613" + "-0314";
    assert n == "gpt-4-0613-0314";
    assert '.' !in n;
    assert n[|n| - 5..] == "-0314";
    assert !HasSuffix(n, "-0301");
    var b := "gpt-4" + "-0613";
    assert n[..|n| - 5] == b;
    assert b[|b| - 5..] == "-0613";
    assert b[..|b| - 5] == "gpt-4";
  }

  /** The route part of an Azure request path: the query dropped, then a leading `/v1/` removed. */
  function AzureRoute(requestPath: string): (r: string)
    ensures '?' !in r
  {
    TrimPrefix(BeforeFirst(requestPath, '?'), "/v1/")
  }

  /**
   * GetRequestURL. For Azure the path becomes
   * `/openai/deployments/<deployment>/<route>?api-version=<version>`: the
   * original query is dropped and the api-version query is the only one.
   * Every other channel passes the request path on unchanged. The error it
   * returns is always nil.
   */
  function GetRequestURL(info: RelayInfo): (r: FullRequestURL)
    ensures r.baseUrl == info.baseUrl && r.channelType == info.channelType
    ensures info.channelType != Azure ==> r.path == info.requestURLPath
    ensures info.channelType == Azure ==>
              r.path == "/openai/deployments/" + AzureDeployment(info.upstreamModelName) + "/"
                        + (AzureRoute(info.requestURLPath) + "?api-version=" + info.apiVersion)
  {
    if info.channelType == Azure then
      var requestURL := BeforeFirst(info.requestURLPath, '?');
      var versioned := requestURL + "?api-version=" + info.apiVersion;
      var task := TrimPrefix(versioned, "/v1/");
      VersionedRoute(info.requestURLPath, info.apiVersion);
      FullRequestURL(info.baseUrl, "/openai/deployments/" + AzureDeployment(info.upstreamModelName) + "/" + task, info.channelType)
    else FullRequestURL(info.baseUrl, info.requestURLPath, info.channelType)
  }

  /** The `task` value GetRequestURL builds: the route followed by the api-version query. */
  lemma VersionedRoute(requestPath: string, apiVersion: string)
    ensures TrimPrefix(BeforeFirst(requestPath, '?') + "?api-version=" + apiVersion, "/v1/")
            == AzureRoute(requestPath) + "?api-version=" + apiVersion
  {
    var requestURL := BeforeFirst(requestPath, '?');
    var query := "?api-version=" + apiVersion;
    TrimPrefixOfQueried(requestURL, query);
    assert requestURL + "?api-version=" + apiVersion == requestURL + query;
    assert AzureRoute(requestPath) + "?api-version=" + apiVersion == AzureRoute(requestPath) + query;
  }

  /** Trimming `/v1/` before or after appending the query gives the same path: the query starts with `?`, which the prefix does not hold. */
  lemma TrimPrefixOfQueried(path: string, query: string)
    requires '?' !in path && query != [] && query[0] == '?'
    ensures TrimPrefix(path + query, "/v1/") == TrimPrefix(path, "/v1/") + query
  {
    var s := path + query;
    if HasPrefix(path, "/v1/") {
      assert s[..4] == path[..4];
      assert s[4..] == path[4..] + query;
    } else if |s| >= 4 {
      if |path| >= 4 {
        assert s[..4] == path[..4];
      } else {
        assert s[..4][|path|] == s[|path|] == '?';
      }
    }
  }

  /** An Azure chat request: query dropped, `/v1/` removed, deployment name rewritten, version appended. */
  lemma AzureURLExample(info: RelayInfo)
    requires info.channelType == Azure
    requires info.requestURLPath == "/v1/chat/completions?x=1"
    requires info.upstreamModelName == "gpt-4-32k-0613" && info.apiVersion == "2023-05-15"
    ensures GetRequestURL(info).path == "/openai/deployments/" + "gpt-4-32k" + "/" + ("chat/completions" + "?api-version=" + "2023-05-15")
  {
    var route, query := "/v1/chat/completions", "x=1";
    var task, version := "chat/completions", "2023-05-15";
    assert route + ['?'] + query == "/v1/chat/completions?x=1";
    assert route[..4] == "/v1/" && route[4..] == task;
    assert '?' !in route;
    BeforeFirstAt(route, '?', query);
    assert AzureRoute(info.requestURLPath) == task;
    DeploymentExamples();
  }

  // ---------------------------------------------------------------------
  // Request headers

  /** The authentication headers an adaptor sets for the channel. */
  function AuthHeaders(info: RelayInfo): (h: map<string, string>)
    ensures info.channelType == Azure ==> h == map["api-key" := info.apiKey]
    ensures info.channelType != Azure ==> "api-key" !in h && "Authorization" in h && h["Authorization"] == "Bearer " + info.apiKey
    ensures info.channelType != Azure ==>
              ("OpenAI-Organization" in h <==> info.channelType == OpenAI && info.organization != "")
    ensures "OpenAI-Organization" in h ==> h["OpenAI-Organization"] == info.organization
    ensures h.Keys <= {"api-key", "Authorization", "OpenAI-Organization"}
  {
    if info.channelType == Azure then map["api-key" := info.apiKey]
    else
      var org: map<string, string> := if info.channelType == OpenAI && info.organization != ""
                                      then map["OpenAI-Organization" := info.organization] else map[];
      org["Authorization" := "Bearer " + info.apiKey]
  }

  /** The outgoing upstream request; only its header map is modelled. */
  class UpstreamRequest {
    var header: map<string, string>

    constructor ()
      ensures header == map[]
    {
      header := map[];
    }
  }

  /**
   * SetupRequestHeader. `common` is what the shared header setup (not part
   * of this model) sets first; the authentication headers are then set on
   * top, Azure returning before `Authorization` is set.
   */
  method SetupRequestHeader(req: UpstreamRequest, info: RelayInfo, common: map<string, string>)
    modifies req
    ensures req.header == old(req.header) + common + AuthHeaders(info)
  {
    req.header := req.header + common;
    if info.channelType == Azure {
      req.header := req.header["api-key" := info.apiKey];
      return;
    }
    if info.channelType == OpenAI && "" != info.organization {
      req.header := req.header["OpenAI-Organization" := info.organization];
    }
    req.header := req.header["Authorization" := "Bearer " + info.apiKey];
  }

  // ---------------------------------------------------------------------
  // Request conversion and response dispatch

  /** ConvertRequest: a nil request is an error, any other request is passed on unchanged. */
  function ConvertRequest(request: Option<GeneralRequest>): (r: Result<GeneralRequest, string>)
    ensures r.Err? <==> request.None?
    ensures r.Err? ==> r.error == "request is nil"
    ensures r.Ok? ==> r.value == request.value
  {
    match request
    case None => Err("request is nil")
    case Some(q) => Ok(q)
  }

  /** The upstream response as either handler reads it. */
  datatype UpstreamResponse = UpstreamResponse(
    status: int,
    streamBody: string,
    body: UpstreamBody,
    closeError: Option<string>,
    copy: CopyResult)

  /**
   * DoResponse: a streamed request goes to the stream handler and its text
   * is turned into usage by `textUsage` (the tokenizer's ResponseText2Usage,
   * not part of this model), whatever error the handler returns; any other
   * request goes to the non-stream handler.
   */
  method DoResponse(cfg: StreamConfig, info: RelayInfo, resp: UpstreamResponse,
                    lineHits: seq<seq<Hit>>, choiceHits: seq<seq<Hit>>,
                    decode: (RelayMode, string) -> Option<DecodedStream>,
                    textUsage: (string, string, int) -> Usage, count: string -> int)
    returns (out: ResponseOutcome)
    requires info.isStream ==> |lineHits| == |Tokens(resp.streamBody)|
    requires info.isStream ==> forall i :: 0 <= i < |lineHits| ==>
               MatcherHits(Dictionary(cfg.configured), Lower(Tokens(resp.streamBody)[i]), lineHits[i], false)
    requires !info.isStream && resp.body.Decoded? ==> |choiceHits| == |resp.body.response.choices|
    requires !info.isStream && resp.body.Decoded? ==> forall i :: 0 <= i < |choiceHits| ==>
               MatcherHits(Dictionary(cfg.configured), Lower(resp.body.response.choices[i]), choiceHits[i], false)
    ensures info.isStream ==>
              (out.ProcessCrashed? <==> Produce(cfg, Tokens(resp.streamBody), lineHits).end == Panicked)
    ensures info.isStream ==>
              var p := Produce(cfg, Tokens(resp.streamBody), lineHits);
              !out.RequestPanicked? && (out.RequestHung? <==> p.end != Panicked && StreamHangs(info.relayMode, p.items, decode))
    ensures info.isStream && out.Responded? ==>
              out.sensitiveWords.None? && out.usage.Some? &&
              exists text :: out.usage.value == textUsage(text, info.upstreamModelName, info.promptTokens)
    ensures info.isStream && out.Responded? && resp.closeError.Some? ==>
              out.usage == Some(textUsage("", info.upstreamModelName, info.promptTokens)) &&
              out.err == Some(Wrapped(resp.closeError.value, "close_response_body_failed", StatusInternalServerError))
    ensures info.isStream && out.Responded? && resp.closeError.None? ==>
              var p := Produce(cfg, Tokens(resp.streamBody), lineHits);
              out == Responded(Some(textUsage(StreamText(info.relayMode, p.items, decode), info.upstreamModelName, info.promptTokens)), None, None)
    ensures !info.isStream ==> !out.ProcessCrashed? && !out.RequestHung?
    ensures !info.isStream ==>
              out == match HandlerResponse(cfg, resp.body, resp.status, info.promptTokens, count, choiceHits, resp.copy)
                     case None => RequestPanicked
                     case Some(h) => Responded(h.usage, h.err, h.sensitiveWords)
    ensures !info.isStream && resp.body.Decoded? && resp.body.response.error.Some? ==>
              out == Responded(None, Some(Upstream(resp.body.response.error.value, resp.status)), None)
  {
    if info.isStream {
      var s := OpenaiStreamHandler(cfg, resp.streamBody, lineHits, info.relayMode, decode, resp.closeError);
      if s.StreamPanicked? {
        return ProcessCrashed;
      }
      if s.StreamHung? {
        return RequestHung;
      }
      var usage := textUsage(s.text, info.upstreamModelName, info.promptTokens);
      return Responded(Some(usage), s.err, None);
    }
    var h := OpenaiHandler(cfg, resp.body, resp.status, info.promptTokens, count, choiceHits, resp.copy);
    if h.None? {
      return RequestPanicked;
    }
    return Responded(h.value.usage, h.value.err, h.value.sensitiveWords);
  }
}
