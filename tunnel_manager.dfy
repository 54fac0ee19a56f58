/**
 * The decision logic of the Cloudflare tunnel manager script: how a tunnel
 * configuration read from the API is normalised and rewritten to route one
 * hostname, how a tunnel is found by name, how the tunnel token is taken
 * from a response, and whether a DNS record is kept, updated or created.
 * Every HTTP call is left out: the decoded JSON payloads are the inputs, and
 * the requests to send are the outputs.
 */
module TunnelManager {
  import opened Wrappers

  /** A decoded JSON value. Numbers are integers; a dict's key order is not kept. */
  datatype Json =
    | JNull
    | JBool(b: bool)
    | JNum(n: int)
    | JStr(s: string)
    | JArr(items: seq<Json>)
    | JObj(fields: map<string, Json>)

  /** The exceptions the script lets escape. */
  datatype Raised =
    | AttributeError  // `.get` on a value that is not a dict, `.rstrip` on one that is not a string
    | KeyError        // `d[key]` on a dict without that key
    | TypeError       // `x[key]` on a value that is not a dict
    | ValueError      // `create_tunnel`: unexpected token format, or an empty token
    | DomainNotFound  // `get_zone_id`: no zone carries the domain

  /** Python truthiness of a JSON value. */
  predicate Truthy(j: Json) {
    match j
    case JNull => false
    case JBool(b) => b
    case JNum(n) => n != 0
    case JStr(s) => s != ""
    case JArr(items) => items != []
    case JObj(fields) => fields != map[]
  }

  /** `d.get(key, default)`. */
  function Get(d: map<string, Json>, key: string, default: Json): Json {
    if key in d then d[key] else default
  }

  /** `x[key]`: the field of a dict, `KeyError` when it is missing, `TypeError` for a non-dict. */
  function Index(x: Json, key: string): (r: Result<Json, Raised>)
    ensures r.Success? <==> x.JObj? && key in x.fields
    ensures r.Success? ==> r.value == x.fields[key]
    ensures r.Failure? ==> r.error == (if x.JObj? then KeyError else TypeError)
  {
    match x
    case JObj(d) => if key in d then Success(d[key]) else Failure(KeyError)
    case _ => Failure(TypeError)
  }

  // ---------------------------------------------------------------------------
  // create_route: the tunnel configuration and its ingress rules
  // ---------------------------------------------------------------------------

  /** `json.loads` applied to a text that may fail to decode (`None`); the other outcomes. */
  function Loads(parse: string -> Option<Json>, text: string): Json {
    match parse(text)
    case None => JObj(map[])
    case Some(v) => v
  }

  /**
   * The configuration decoded from the `result` field of the GET response
   * (a missing field is `JNull`): `None` and values of unexpected type give
   * `{}`; a string is decoded, and text that fails to decode gives `{}`; a
   * dict contributes its `config` field, or itself when it has none, decoded
   * again when that is a string. A decoded `null` gives `{}`.
   */
  function DecodeConfig(resultData: Json, parse: string -> Option<Json>): (config: Json)
    ensures !config.JNull?
    ensures resultData.JNull? || resultData.JBool? || resultData.JNum? || resultData.JArr? ==> config == JObj(map[])
    ensures resultData.JStr? && parse(resultData.s).None? ==> config == JObj(map[])
    ensures resultData.JStr? && parse(resultData.s).Some? ==>
      config == (if parse(resultData.s).value.JNull? then JObj(map[]) else parse(resultData.s).value)
    ensures resultData.JObj? && "config" !in resultData.fields ==> config == resultData
    ensures resultData.JObj? && "config" in resultData.fields && resultData.fields["config"].JNull? ==> config == JObj(map[])
    ensures resultData.JObj? && "config" in resultData.fields ==>
      var c := resultData.fields["config"];
      !c.JStr? && !c.JNull? ==> config == c
    ensures resultData.JObj? && "config" in resultData.fields && resultData.fields["config"].JStr? ==>
      var decoded := parse(resultData.fields["config"].s);
      config == (if decoded.None? || decoded.value.JNull? then JObj(map[]) else decoded.value)
  {
    var decoded :=
      match resultData
      case JNull => JObj(map[])
      case JStr(text) => Loads(parse, text)
      case JObj(d) =>
        (var c := Get(d, "config", resultData);
         match c
         case JStr(text) => Loads(parse, text)
         case _ => c)
      case _ => JObj(map[]);
    if decoded.JNull? then JObj(map[]) else decoded
  }

  /** `config.get(...)` raises unless the decoded configuration is a dict. */
  function LoadConfig(resultData: Json, parse: string -> Option<Json>): (r: Result<map<string, Json>, Raised>)
    ensures r.Success? <==> DecodeConfig(resultData, parse).JObj?
    ensures r.Success? ==> r.value == DecodeConfig(resultData, parse).fields
    ensures r.Failure? ==> r.error == AttributeError && (resultData.JStr? || resultData.JObj?)
  {
    match DecodeConfig(resultData, parse)
    case JObj(m) => Success(m)
    case _ => Failure(AttributeError)
  }

  /** `config.get("ingress", [])`, with anything but a list replaced by `[]`. */
  function IngressOf(config: map<string, Json>): (rules: seq<Json>)
    ensures "ingress" in config && config["ingress"].JArr? ==> rules == config["ingress"].items
    ensures !("ingress" in config && config["ingress"].JArr?) ==> rules == []
  {
    match Get(config, "ingress", JArr([]))
    case JArr(items) => items
    case _ => []
  }

  /** The service of the catch-all rule that answers every unmatched request with 404. */
  const CatchAllService: string := "http_status:404"

  /** `{"service": "http_status:404"}`. */
  const CatchAllRule: Json := JObj(map["service" := JStr(CatchAllService)])

  /** `{"hostname": hostname, "service": service}`. */
  function NewRule(hostname: string, service: string): Json {
    JObj(map["hostname" := JStr(hostname), "service" := JStr(service)])
  }

  /** `r.get("hostname") == hostname`, for a dict `r`. */
  predicate HasHostname(rule: Json, hostname: string) {
    rule.JObj? && "hostname" in rule.fields && rule.fields["hostname"] == JStr(hostname)
  }

  /** `r.get("service") == "http_status:404"`, for a dict `r`. */
  predicate IsCatchAll(rule: Json) {
    rule.JObj? && "service" in rule.fields && rule.fields["service"] == JStr(CatchAllService)
  }

  predicate AllDicts(rules: seq<Json>) {
    forall i :: 0 <= i < |rules| ==> rules[i].JObj?
  }

  /** `[r for r in ingress if r.get("hostname") != hostname]`. */
  function WithoutHostname(rules: seq<Json>, hostname: string): seq<Json> {
    if rules == [] then []
    else (if HasHostname(rules[0], hostname) then [] else [rules[0]]) + WithoutHostname(rules[1..], hostname)
  }

  /** `[r for r in ingress if r.get("service") != "http_status:404"]`. */
  function WithoutCatchAll(rules: seq<Json>): seq<Json> {
    if rules == [] then []
    else (if IsCatchAll(rules[0]) then [] else [rules[0]]) + WithoutCatchAll(rules[1..])
  }

  /** The old rules that survive the rewrite: neither for the routed hostname nor a catch-all. */
  function Survivors(rules: seq<Json>, hostname: string): seq<Json> {
    if rules == [] then []
    else
      (if HasHostname(rules[0], hostname) || IsCatchAll(rules[0]) then [] else [rules[0]])
      + Survivors(rules[1..], hostname)
  }

  /**
   * The rewritten rule list, stated in one piece: the new rule (unless its
   * service is itself the catch-all), the surviving old rules in their old
   * order, and one catch-all at the end.
   */
  function RoutedIngress(rules: seq<Json>, hostname: string, service: string): seq<Json> {
    (if service == CatchAllService then [] else [NewRule(hostname, service)])
    + Survivors(rules, hostname) + [CatchAllRule]
  }

  lemma {:induction false} SurvivorsMember(rules: seq<Json>, hostname: string, x: Json)
    ensures x in Survivors(rules, hostname) <==> x in rules && !HasHostname(x, hostname) && !IsCatchAll(x)
  {
    if rules != [] {
      SurvivorsMember(rules[1..], hostname, x);
      assert x in rules <==> x == rules[0] || x in rules[1..] by {
        assert rules == [rules[0]] + rules[1..];
      }
    }
  }

  /** The surviving rules keep their relative order: selecting survivors commutes with concatenation. */
  lemma {:induction false} SurvivorsConcat(xs: seq<Json>, ys: seq<Json>, hostname: string)
    ensures Survivors(xs + ys, hostname) == Survivors(xs, hostname) + Survivors(ys, hostname)
  {
    if xs == [] {
      assert xs + ys == ys;
    } else {
      assert (xs + ys)[0] == xs[0] && (xs + ys)[1..] == xs[1..] + ys;
      SurvivorsConcat(xs[1..], ys, hostname);
    }
  }

  lemma {:induction false} SurvivorsIdempotent(rules: seq<Json>, hostname: string)
    ensures Survivors(Survivors(rules, hostname), hostname) == Survivors(rules, hostname)
  {
    if rules != [] {
      var head := if HasHostname(rules[0], hostname) || IsCatchAll(rules[0]) then [] else [rules[0]];
      SurvivorsConcat(head, Survivors(rules[1..], hostname), hostname);
      SurvivorsIdempotent(rules[1..], hostname);
      if head != [] {
        assert Survivors(head, hostname) == head by {
          assert head[1..] == [];
        }
      }
    }
  }

  /** The two comprehensions of the script, applied in its order, select the survivors. */
  lemma {:induction false} FiltersSelectSurvivors(rules: seq<Json>, hostname: string)
    ensures WithoutCatchAll(WithoutHostname(rules, hostname)) == Survivors(rules, hostname)
  {
    if rules != [] {
      FiltersSelectSurvivors(rules[1..], hostname);
      var rest := WithoutHostname(rules[1..], hostname);
      if HasHostname(rules[0], hostname) {
        assert WithoutHostname(rules, hostname) == rest;
      } else {
        var l := [rules[0]] + rest;
        assert WithoutHostname(rules, hostname) == l;
        assert l[0] == rules[0] && l[1..] == rest;
        assert WithoutCatchAll(l) == (if IsCatchAll(rules[0]) then [] else [rules[0]]) + WithoutCatchAll(rest);
      }
    }
  }

  /** The script's steps (drop the hostname, insert first, drop catch-alls, append one) compute `RoutedIngress`. */
  lemma RewriteSteps(rules: seq<Json>, hostname: string, service: string)
    ensures WithoutCatchAll([NewRule(hostname, service)] + WithoutHostname(rules, hostname)) + [CatchAllRule]
         == RoutedIngress(rules, hostname, service)
  {
    var l := [NewRule(hostname, service)] + WithoutHostname(rules, hostname);
    assert l[0] == NewRule(hostname, service) && l[1..] == WithoutHostname(rules, hostname);
    FiltersSelectSurvivors(rules, hostname);
  }

  /**
   * After the rewrite the last rule is the catch-all and no other rule is
   * one; no old rule for the hostname survives, and the only rule for it is
   * the new one, first, unless the new service is the catch-all itself.
   */
  lemma RoutedIngressShape(rules: seq<Json>, hostname: string, service: string)
    ensures var r := RoutedIngress(rules, hostname, service);
      && r[|r| - 1] == CatchAllRule
      && (forall i :: 0 <= i < |r| - 1 ==> !IsCatchAll(r[i]))
      && (forall i :: 0 <= i < |r| && HasHostname(r[i], hostname) ==>
            i == 0 && r[0] == NewRule(hostname, service) && service != CatchAllService)
      && (r[0] == NewRule(hostname, service) <==> service != CatchAllService)
  {
    var r := RoutedIngress(rules, hostname, service);
    var pre := if service == CatchAllService then [] else [NewRule(hostname, service)];
    var mid := Survivors(rules, hostname);
    assert r == pre + mid + [CatchAllRule];
    forall i | |pre| <= i < |pre| + |mid|
      ensures r[i] == mid[i - |pre|] && !IsCatchAll(r[i]) && !HasHostname(r[i], hostname)
    {
      assert mid[i - |pre|] in mid;
      SurvivorsMember(rules, hostname, mid[i - |pre|]);
    }
    assert HasHostname(NewRule(hostname, service), hostname);
    assert IsCatchAll(NewRule(hostname, service)) <==> service == CatchAllService;
    assert !HasHostname(CatchAllRule, hostname);
  }

  /** Routing the same hostname to the same service again changes nothing. */
  lemma RoutedIngressIdempotent(rules: seq<Json>, hostname: string, service: string)
    ensures RoutedIngress(RoutedIngress(rules, hostname, service), hostname, service)
         == RoutedIngress(rules, hostname, service)
  {
    var pre := if service == CatchAllService then [] else [NewRule(hostname, service)];
    var mid := Survivors(rules, hostname);
    SurvivorsConcat(pre + mid, [CatchAllRule], hostname);
    SurvivorsConcat(pre, mid, hostname);
    SurvivorsIdempotent(rules, hostname);
    assert Survivors(pre, hostname) == [] by {
      if pre != [] { assert HasHostname(pre[0], hostname) && pre[1..] == []; }
    }
    assert Survivors([CatchAllRule], hostname) == [] by {
      assert IsCatchAll(CatchAllRule) && [CatchAllRule][1..] == [];
    }
  }

  /**
   * `create_route` up to the PUT: the configuration with its `ingress`
   * replaced by the rewritten rules and every other key kept; it raises when
   * the decoded configuration or one of its rules is not a dict.
   */
  function RoutedConfig(resultData: Json, parse: string -> Option<Json>, subdomain: string, domain: string, service: string)
    : (r: Result<map<string, Json>, Raised>)
    ensures r.Success? <==> LoadConfig(resultData, parse).Success? && AllDicts(IngressOf(LoadConfig(resultData, parse).value))
    ensures r.Failure? ==> r.error == AttributeError
    ensures r.Success? ==>
      var config := LoadConfig(resultData, parse).value;
      && r.value.Keys == config.Keys + {"ingress"}
      && r.value["ingress"] == JArr(RoutedIngress(IngressOf(config), subdomain + "." + domain, service))
      && (forall k :: k in config && k != "ingress" ==> r.value[k] == config[k])
  {
    match LoadConfig(resultData, parse)
    case Failure(e) => Failure(e)
    case Success(config) =>
      var rules := IngressOf(config);
      if AllDicts(rules) then
        Success(config["ingress" := JArr(RoutedIngress(rules, subdomain + "." + domain, service))])
      else Failure(AttributeError)
  }

  /**
   * The rewrite as the script performs it, on a local list: filter out the
   * hostname, insert the new rule first, filter out catch-alls, append the
   * catch-all, store the list under `ingress`.
   */
  method CreateRoute(resultData: Json, parse: string -> Option<Json>, subdomain: string, domain: string, serviceUrl: string)
    returns (r: Result<map<string, Json>, Raised>)
    ensures r == RoutedConfig(resultData, parse, subdomain, domain, serviceUrl)
  {
    var loaded := LoadConfig(resultData, parse);
    if loaded.Failure? {
      return Failure(loaded.error);
    }
    var config := loaded.value;
    var ingress := IngressOf(config);
    if !AllDicts(ingress) {
      return Failure(AttributeError);
    }
    var hostname := subdomain + "." + domain;
    var rules := ingress;
    ingress := WithoutHostname(ingress, hostname);
    ingress := [NewRule(hostname, serviceUrl)] + ingress;
    ingress := WithoutCatchAll(ingress);
    ingress := ingress + [CatchAllRule];
    RewriteSteps(rules, hostname, serviceUrl);
    config := config["ingress" := JArr(ingress)];
    return Success(config);
  }

  /**
   * Routing is idempotent end to end: when the next GET returns the
   * configuration the first call wrote, routing the same hostname again
   * writes the same configuration.
   */
  lemma RouteTwice(resultData: Json, parse: string -> Option<Json>, subdomain: string, domain: string, service: string,
                   response: map<string, Json>)
    requires RoutedConfig(resultData, parse, subdomain, domain, service).Success?
    requires "config" in response && response["config"] == JObj(RoutedConfig(resultData, parse, subdomain, domain, service).value)
    ensures RoutedConfig(JObj(response), parse, subdomain, domain, service)
         == RoutedConfig(resultData, parse, subdomain, domain, service)
  {
    var first := RoutedConfig(resultData, parse, subdomain, domain, service).value;
    var config := LoadConfig(resultData, parse).value;
    var hostname := subdomain + "." + domain;
    var routed := RoutedIngress(IngressOf(config), hostname, service);
    assert LoadConfig(JObj(response), parse) == Success(first);
    assert IngressOf(first) == routed;
    RoutedIngressShape(IngressOf(config), hostname, service);
    RoutedIngressIdempotent(IngressOf(config), hostname, service);
    assert AllDicts(routed) by {
      var pre := if service == CatchAllService then [] else [NewRule(hostname, service)];
      var mid := Survivors(IngressOf(config), hostname);
      assert routed == pre + mid + [CatchAllRule];
      forall i | 0 <= i < |routed| ensures routed[i].JObj? {
        if |pre| <= i < |pre| + |mid| {
          assert routed[i] in mid;
          SurvivorsMember(IngressOf(config), hostname, routed[i]);
          var k :| 0 <= k < |IngressOf(config)| && IngressOf(config)[k] == routed[i];
        }
      }
    }
    assert first["ingress" := JArr(routed)] == first;
  }

  // ---------------------------------------------------------------------------
  // get_tunnel_by_name
  // ---------------------------------------------------------------------------

  /** A tunnel the search passes over: a dict with a `name` other than `name`. */
  predicate PassesOver(tunnel: Json, name: string) {
    Index(tunnel, "name").Success? && Index(tunnel, "name").value != JStr(name)
  }

  /** The search from position `from` on. */
  function FindByName(tunnels: seq<Json>, name: string, from: nat): (r: Result<Option<Json>, Raised>)
    requires from <= |tunnels|
    ensures r == Success(None) <==> forall j :: from <= j < |tunnels| ==> PassesOver(tunnels[j], name)
    ensures r.Success? && r.value.Some? ==>
      exists i :: from <= i < |tunnels| && tunnels[i] == r.value.value && Index(tunnels[i], "name") == Success(JStr(name))
        && forall j :: from <= j < i ==> PassesOver(tunnels[j], name)
    ensures r.Failure? ==>
      exists i :: from <= i < |tunnels| && Index(tunnels[i], "name") == Failure(r.error)
        && forall j :: from <= j < i ==> PassesOver(tunnels[j], name)
    decreases |tunnels| - from
  {
    if from == |tunnels| then Success(None)
    else
      match Index(tunnels[from], "name")
      case Failure(e) => Failure(e)
      case Success(n) => if n == JStr(name) then Success(Some(tunnels[from])) else FindByName(tunnels, name, from + 1)
  }

  /**
   * `get_tunnel_by_name`: the first tunnel whose `name` equals `name`, or
   * `None` when there is none; a tunnel before it without a `name` raises.
   */
  function TunnelByName(tunnels: seq<Json>, name: string): (r: Result<Option<Json>, Raised>)
    ensures r == Success(None) <==> forall j :: 0 <= j < |tunnels| ==> PassesOver(tunnels[j], name)
    ensures r.Success? && r.value.Some? ==>
      exists i :: 0 <= i < |tunnels| && tunnels[i] == r.value.value && Index(tunnels[i], "name") == Success(JStr(name))
        && forall j :: 0 <= j < i ==> PassesOver(tunnels[j], name)
    ensures r.Failure? ==>
      exists i :: 0 <= i < |tunnels| && Index(tunnels[i], "name") == Failure(r.error)
        && forall j :: 0 <= j < i ==> PassesOver(tunnels[j], name)
  {
    FindByName(tunnels, name, 0)
  }

  // ---------------------------------------------------------------------------
  // create_tunnel and get_tunnel_token
  // ---------------------------------------------------------------------------

  /** `token_result.get("result", {})`. */
  function TokenData(tokenResponse: map<string, Json>): Json {
    Get(tokenResponse, "result", JObj(map[]))
  }

  /** `get_tunnel_token`: a dict gives its `token` field or `""`, a string gives itself, anything else `""`. */
  function GetTunnelToken(tokenResponse: map<string, Json>): (token: Json)
    ensures TokenData(tokenResponse).JObj? ==> token == Get(TokenData(tokenResponse).fields, "token", JStr(""))
    ensures TokenData(tokenResponse).JStr? ==> token == TokenData(tokenResponse)
    ensures !TokenData(tokenResponse).JObj? && !TokenData(tokenResponse).JStr? ==> token == JStr("")
  {
    match TokenData(tokenResponse)
    case JObj(d) => Get(d, "token", JStr(""))
    case JStr(s) => JStr(s)
    case _ => JStr("")
  }

  /** `result["result"]["id"]` of the POST that created the tunnel. */
  function CreatedTunnelId(created: map<string, Json>): Result<Json, Raised> {
    if "result" in created then Index(created["result"], "id") else Failure(KeyError)
  }

  /**
   * `create_tunnel`: the new tunnel's id and its token. It raises where
   * `get_tunnel_token` would fall back: on a token payload that is neither a
   * dict nor a string, and on an empty (falsy) token.
   */
  function CreateTunnel(created: map<string, Json>, tokenResponse: map<string, Json>): (r: Result<(Json, Json), Raised>)
    ensures CreatedTunnelId(created).Failure? ==> r == Failure(CreatedTunnelId(created).error)
    ensures CreatedTunnelId(created).Success? ==>
      (r.Success? <==> Truthy(GetTunnelToken(tokenResponse)))
    ensures r.Success? ==> r.value == (CreatedTunnelId(created).value, GetTunnelToken(tokenResponse))
    ensures r.Failure? && CreatedTunnelId(created).Success? ==> r.error == ValueError
  {
    match CreatedTunnelId(created)
    case Failure(e) => Failure(e)
    case Success(id) =>
      var data := TokenData(tokenResponse);
      if !(data.JObj? || data.JStr?) then Failure(ValueError)
      else
        var token := if data.JObj? then Get(data.fields, "token", JStr("")) else data;
        if !Truthy(token) then Failure(ValueError) else Success((id, token))
  }

  // ---------------------------------------------------------------------------
  // ensure_dns_record and get_zone_id
  // ---------------------------------------------------------------------------

  /** `s.rstrip(".")`. */
  function RStripDots(s: string): (r: string)
    ensures r <= s && (|r| > 0 ==> r[|r| - 1] != '.')
    ensures forall i :: |r| <= i < |s| ==> s[i] == '.'
  {
    if |s| > 0 && s[|s| - 1] == '.' then RStripDots(s[..|s| - 1]) else s
  }

  /** The CNAME target of a tunnel. */
  function DnsTarget(tunnelId: string): string {
    tunnelId + ".cfargotunnel.com"
  }

  /** The record body the script sends on an update or a create. */
  datatype DnsRecordBody = DnsRecordBody(name: string, recordType: string, content: string, ttl: int, proxied: bool)

  /** What `ensure_dns_record` does: return the first record as it is, update it in place, or create one. */
  datatype DnsAction = KeepRecord(record: Json) | UpdateRecord(recordId: Json, body: DnsRecordBody) | CreateRecord(body: DnsRecordBody)

  function CnameBody(subdomain: string, domain: string, tunnelId: string): DnsRecordBody {
    DnsRecordBody(subdomain + "." + domain, "CNAME", DnsTarget(tunnelId), 1, true)
  }

  /** `record.get("content", "").rstrip(".")` can run: the record is a dict and its content (default `""`) is text. */
  predicate HasTextContent(record: Json) {
    record.JObj? && Get(record.fields, "content", JStr("")).JStr?
  }

  /** The record already points at the tunnel through the proxy, trailing dots aside. */
  predicate PointsAtTunnel(record: Json, tunnelId: string) {
    && record.JObj?
    && Get(record.fields, "content", JStr("")).JStr?
    && RStripDots(Get(record.fields, "content", JStr("")).s) == RStripDots(DnsTarget(tunnelId))
    && Truthy(Get(record.fields, "proxied", JBool(false)))
  }

  /**
   * The decision of `ensure_dns_record` over the records found for the
   * name: create when there are none; otherwise keep the first record when it
   * already points at the tunnel through the proxy, and update it otherwise.
   */
  function DecideDns(records: seq<Json>, subdomain: string, domain: string, tunnelId: string): (r: Result<DnsAction, Raised>)
    ensures records == [] ==> r == Success(CreateRecord(CnameBody(subdomain, domain, tunnelId)))
    ensures records != [] && PointsAtTunnel(records[0], tunnelId) ==> r == Success(KeepRecord(records[0]))
    ensures r.Success? && r.value.KeepRecord? ==> records != [] && PointsAtTunnel(records[0], tunnelId)
    ensures r.Success? && !r.value.KeepRecord? ==> r.value.body == CnameBody(subdomain, domain, tunnelId)
    ensures r.Success? && r.value.UpdateRecord? ==> records != [] && Index(records[0], "id") == Success(r.value.recordId)
    ensures r.Failure? ==> records != [] && !PointsAtTunnel(records[0], tunnelId)
    ensures records != [] && HasTextContent(records[0]) && !PointsAtTunnel(records[0], tunnelId) ==>
      "id" in records[0].fields ==> r == Success(UpdateRecord(records[0].fields["id"], CnameBody(subdomain, domain, tunnelId)))
    ensures r == Failure(AttributeError) <==> records != [] && !HasTextContent(records[0])
    ensures r == Failure(KeyError) <==>
      records != [] && HasTextContent(records[0]) && !PointsAtTunnel(records[0], tunnelId) && "id" !in records[0].fields
    ensures r.Success? && r.value.CreateRecord? <==> records == []
  {
    if records == [] then Success(CreateRecord(CnameBody(subdomain, domain, tunnelId)))
    else
      match records[0]
      case JObj(record) =>
        (match Get(record, "content", JStr(""))
         case JStr(content) =>
           if RStripDots(content) != RStripDots(DnsTarget(tunnelId)) || !Truthy(Get(record, "proxied", JBool(false))) then
             if "id" in record then Success(UpdateRecord(record["id"], CnameBody(subdomain, domain, tunnelId)))
             else Failure(KeyError)
           else Success(KeepRecord(records[0]))
         case _ => Failure(AttributeError))
      case _ => Failure(AttributeError)
  }

  /** The record as the API stores it after an update or a create with `body`. */
  function WrittenRecord(id: Json, body: DnsRecordBody): Json {
    JObj(map[
      "id" := id, "name" := JStr(body.name), "type" := JStr(body.recordType),
      "content" := JStr(body.content), "ttl" := JNum(body.ttl), "proxied" := JBool(body.proxied)])
  }

  /**
   * The decision converges: once the record the script writes is in place
   * (possibly with trailing dots on its content), the next run keeps it.
   */
  lemma WrittenRecordIsKept(id: Json, subdomain: string, domain: string, tunnelId: string, dots: nat, rest: seq<Json>)
    ensures var body := CnameBody(subdomain, domain, tunnelId);
      var record := WrittenRecord(id, body.(content := body.content + seq(dots, _ => '.')));
      DecideDns([record] + rest, subdomain, domain, tunnelId) == Success(KeepRecord(record))
  {
    var target := DnsTarget(tunnelId);
    assert target[|target| - 1] == 'm';
    assert RStripDots(target) == target;
    TrailingDots(target, dots);
  }

  lemma {:induction false} TrailingDots(s: string, dots: nat)
    requires |s| > 0 && s[|s| - 1] != '.'
    ensures RStripDots(s + seq(dots, _ => '.')) == s
  {
    if dots > 0 {
      var t := s + seq(dots, _ => '.');
      assert t[..|t| - 1] == s + seq(dots - 1, _ => '.');
      TrailingDots(s, dots - 1);
    } else {
      assert s + seq(0, _ => '.') == s;
    }
  }

  /** `get_zone_id`: the first zone's `id`; no zone raises. */
  function ZoneId(zones: seq<Json>): (r: Result<Json, Raised>)
    ensures r == Failure(DomainNotFound) <==> zones == []
    ensures zones != [] ==> r == Index(zones[0], "id")
  {
    if zones == [] then Failure(DomainNotFound) else Index(zones[0], "id")
  }
}
