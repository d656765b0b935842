/**
 * The URL builder for the hub's XML API add-on (XMLAPIURLBuilder): a host and
 * port, an endpoint CGI script, and a map of query parameters, assembled into
 * "http://host:port/addons/xmlapi/<cgi>[?name=value&...]".
 *
 * The parameter map is a HashMap, whose iteration order is unspecified: build
 * visits its keys in some order, returned as the ghost `order`, and the
 * contract holds whichever order that is. Turning the text into a
 * java.net.URL is not modelled; build returns the text.
 */
module UrlBuilder {
  import opened Optional
  import opened Text
  import opened Iteration

  datatype Endpoint = DEVICELIST | STATECHANGE | GET_STATE

  /** The CGI script each endpoint names. */
  function Cgi(e: Endpoint): string {
    match e
    case DEVICELIST => "devicelist.cgi"
    case STATECHANGE => "statechange.cgi"
    case GET_STATE => "state.cgi"
  }

  /** The path of the XML API add-on on the hub. */
  const BASE: string := "/addons/xmlapi/"

  /** Everything before the query: scheme, host, port, add-on path and CGI script. */
  function Prefix(hostname: string, port: int, e: Endpoint): string {
    "http://" + hostname + ":" + IntToString(port) + BASE + Cgi(e)
  }

  function Pair(name: string, value: string): string {
    name + "=" + value
  }

  /** The name=value pairs of the parameters, in the given key order. */
  function Pairs(params: map<string, string>, order: seq<string>): (r: seq<string>)
    requires forall k | k in order :: k in params
    ensures |r| == |order|
    ensures forall n | 0 <= n < |order| :: r[n] == Pair(order[n], params[order[n]])
  {
    if order == [] then []
    else Pairs(params, order[..|order| - 1]) + [Pair(order[|order| - 1], params[order[|order| - 1]])]
  }

  function Query(params: map<string, string>, order: seq<string>): string
    requires forall k | k in order :: k in params
  {
    Join(Pairs(params, order), "&")
  }

  /** The URL text: the prefix, then "?" and the query when there are parameters. */
  function Url(hostname: string, port: int, e: Endpoint, params: map<string, string>, order: seq<string>): string
    requires forall k | k in order :: k in params
  {
    Prefix(hostname, port, e) + (if order == [] then "" else "?" + Query(params, order))
  }

  /** An order in which an iteration over the map's keys can visit them: every key exactly once. */
  predicate IsKeyOrder(order: seq<string>, params: map<string, string>) {
    Enumerates(order, params.Keys)
  }

  /** Distinct endpoints name distinct scripts. */
  lemma CgiInjective(a: Endpoint, b: Endpoint)
    ensures Cgi(a) == Cgi(b) ==> a == b
  {
    assert |Cgi(DEVICELIST)| == 14 && |Cgi(STATECHANGE)| == 15 && |Cgi(GET_STATE)| == 9;
  }

  /**
   * With n >= 1 parameters whose names and values hold no '&', the query
   * holds exactly n - 1 separators, splitting it at '&' gives back the n
   * pairs in order (so there is no leading or trailing separator), and every
   * stored parameter appears as one of them.
   */
  lemma QueryLayout(params: map<string, string>, order: seq<string>)
    requires IsKeyOrder(order, params) && |params| >= 1
    requires forall k | k in params :: '&' !in k && '&' !in params[k]
    ensures Count(Query(params, order), '&') == |params| - 1
    ensures Split(Query(params, order), '&') == Pairs(params, order)
    ensures forall k | k in params :: Pair(k, params[k]) in Split(Query(params, order), '&')
  {
    var pairs := Pairs(params, order);
    forall n | 0 <= n < |pairs|
      ensures '&' !in pairs[n]
    {
      assert pairs[n] == order[n] + "=" + params[order[n]];
    }
    JoinCount(pairs, '&');
    SplitJoin(pairs, '&');
    forall k | k in params
      ensures Pair(k, params[k]) in pairs
    {
      var n :| 0 <= n < |order| && order[n] == k;
      assert pairs[n] == Pair(k, params[k]);
    }
  }

  /** One turn of build's loop: appending the next pair, and "&" when more follow, extends the query. */
  lemma QueryStep(params: map<string, string>, order: seq<string>, name: string, head: string, more: bool)
    requires forall k | k in order :: k in params
    requires name in params
    ensures (head + Query(params, order) + (if order != [] then "&" else ""))
      + (Pair(name, params[name]) + (if more then "&" else ""))
      == head + Query(params, order + [name]) + (if more then "&" else "")
  {
    var pairs, p := Pairs(params, order), Pair(name, params[name]);
    var amp := if more then "&" else "";
    var next := order + [name];
    assert next[..|next| - 1] == order;
    assert Pairs(params, next) == pairs + [p];
    JoinSnoc(pairs, p, "&");
    var q, q' := Query(params, order), Query(params, next);
    if order == [] {
      assert q' == p;
      assert head + q + "" == head;
      AppendAssoc(head, p, amp);
    } else {
      assert q' == q + "&" + p;
      calc {
        (head + q + "&") + (p + amp);
        { AppendAssoc(head + q + "&", p, amp); }
        ((head + q + "&") + p) + amp;
        { AppendAssoc(head + q, "&", p); AppendAssoc(head, q, "&" + p); AppendAssoc(q, "&", p); }
        (head + q') + amp;
      }
    }
  }

  class URLBuilder {
    const hostname: string
    const port: int
    var endpoint: Option<Endpoint>
    var parameters: map<string, string>

    /** forHost: a builder for the host and port, with no endpoint and no parameters. */
    constructor ForHost(hostname: string, port: int)
      ensures this.hostname == hostname && this.port == port
      ensures endpoint == None && parameters == map[]
    {
      this.hostname := hostname;
      this.port := port;
      endpoint := None;
      parameters := map[];
    }

    /** endpoint: sets the endpoint and returns the same builder. */
    method WithEndpoint(e: Endpoint) returns (b: URLBuilder)
      modifies this`endpoint
      ensures b == this && endpoint == Some(e)
    {
      endpoint := Some(e);
      b := this;
    }

    /**
     * parameter: stores the value under name, replacing any earlier value,
     * and returns the same builder; a null value throws
     * NullPointerException (None) and stores nothing.
     */
    method WithParameter(name: string, value: Option<string>) returns (b: Option<URLBuilder>)
      modifies this`parameters
      ensures value.None? ==> b.None? && parameters == old(parameters)
      ensures value.Some? ==> b == Some(this) && parameters == old(parameters)[name := value.value]
    {
      if value.None? {
        return None;
      }
      parameters := parameters[name := value.value];
      b := Some(this);
    }

    /**
     * build: the URL text; without an endpoint it throws (None). With no
     * parameters it is exactly the prefix; otherwise "?" and every
     * parameter once, as name=value, in the map's iteration order `order`,
     * with "&" between consecutive pairs.
     */
    method Build() returns (url: Option<string>, ghost order: seq<string>)
      ensures endpoint.None? ==> url.None?
      ensures endpoint.Some? ==>
        && IsKeyOrder(order, parameters)
        && url == Some(Url(hostname, port, endpoint.value, parameters, order))
      ensures endpoint.Some? && |parameters| == 0 ==>
        url == Some("http://" + hostname + ":" + IntToString(port) + "/addons/xmlapi/" + Cgi(endpoint.value))
    {
      order := [];
      if endpoint.None? {
        return None, order;
      }
      var text := "http://" + hostname + ":" + IntToString(port) + BASE + Cgi(endpoint.value);
      if |parameters| > 0 {
        text := text + "?";
        ghost var head := text;
        var remaining := parameters.Keys;
        while remaining != {}
          invariant Visiting(parameters.Keys, order, remaining)
          invariant text == head + Query(parameters, order) + (if order != [] && remaining != {} then "&" else "")
          decreases |remaining|
        {
          var name :| name in remaining;
          var value := parameters[name];
          VisitStep(parameters.Keys, order, remaining, name);
          remaining := remaining - {name};
          var piece := Pair(name, value) + (if remaining != {} then "&" else "");
          ghost var before := order;
          order := order + [name];
          QueryStep(parameters, before, name, head, remaining != {});
          text := text + piece;
        }
        VisitDone(parameters.Keys, order);
        assert order != [];
        assert text == head + Query(parameters, order);
        AppendAssoc(Prefix(hostname, port, endpoint.value), "?", Query(parameters, order));
      } else {
        assert parameters.Keys == {};
        assert text + "" == text;
      }
      url := Some(text);
    }
  }
}
