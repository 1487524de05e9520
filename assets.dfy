/**
 * The Tenable assets inventory plugin (`InventoryModule`): it resolves and
 * checks its three options, builds the authenticated request for the asset
 * list, turns a failed call into one of two error messages, and adds the
 * first host name of every returned asset to the Ansible inventory.
 *
 * The HTTP exchange itself is a parameter, `transport`, from the request the
 * plugin builds to what `requests` and `response.json()` produce for it.
 */
module Assets {
  import opened Wrappers
  import opened PyValues

  const NAME := "jpclipffel.tenable.assets"
  const DEFAULT_ENDPOINT := "https://cloud.tenable.com"

  const API_ENDPOINT := "api_endpoint"
  const ACCESS_KEY := "access_key"
  const SECRET_KEY := "secret_key"

  const API_KEYS_HEADER := "X-ApiKeys"
  const ACCEPT_HEADER := "Accept"
  const JSON_MEDIA_TYPE := "application/json"

  /** The errors the plugin raises to Ansible. */
  datatype Error =
    | OptionsError(message: string)  // AnsibleOptionsError from the option check
    | ApiError(message: string)      // AnsibleError from an API call
    // Unguarded failure while projecting assets: a KeyError, IndexError or TypeError,
    // the AttributeError of `.get` on a response that is not an object, or the
    // error Ansible's `add_host` raises for a host name that is not a string.
    | DataFault

  /** `t` occurs in `s` starting at index `i`. */
  predicate OccursAt(s: string, t: string, i: nat) {
    i + |t| <= |s| && s[i..i + |t|] == t
  }

  /** `t in s` for Python strings. */
  ghost predicate Mentions(s: string, t: string) {
    exists i: nat :: OccursAt(s, t, i)
  }

  lemma {:induction false} OccursBetween(a: string, t: string, b: string)
    ensures OccursAt(a + t + b, t, |a|)
  {
  }

  // ------------------------------------------------------------------ options

  /** The option table `self._tenable_cfg`, whose items come in this order. */
  datatype Config = Config(apiEndpoint: Value, accessKey: Value, secretKey: Value) {
    function Items(): seq<(string, Value)> {
      [(API_ENDPOINT, apiEndpoint), (ACCESS_KEY, accessKey), (SECRET_KEY, secretKey)]
    }
  }

  /** `os.environ.get(name)` as an option value: `None` when the variable is unset. */
  function FromEnv(v: Option<string>): Value {
    match v
    case None => Null
    case Some(s) => Str(s)
  }

  /** The option table built from the config mapping and the two environment variables. */
  function Resolve(config: map<string, Value>, envAccess: Option<string>, envSecret: Option<string>): Config {
    Config(
      if API_ENDPOINT in config then config[API_ENDPOINT] else Str(DEFAULT_ENDPOINT),
      FromEnv(envAccess),
      FromEnv(envSecret))
  }

  /** The endpoint comes from the config, with a default; the keys are exactly the environment inputs. */
  lemma ResolveSources(config: map<string, Value>, envAccess: Option<string>, envSecret: Option<string>)
    ensures var c := Resolve(config, envAccess, envSecret);
      && (API_ENDPOINT in config ==> c.apiEndpoint == config[API_ENDPOINT])
      && (API_ENDPOINT !in config ==> c.apiEndpoint == Str(DEFAULT_ENDPOINT))
      && (c.accessKey.Str? <==> envAccess.Some?)
      && (envAccess.Some? ==> c.accessKey.text == envAccess.value)
      && (c.secretKey.Str? <==> envSecret.Some?)
      && (envSecret.Some? ==> c.secretKey.text == envSecret.value)
      && !c.accessKey.NonStr? && !c.secretKey.NonStr?
  {
  }

  /** The message of the options error raised for option `key`. */
  function OptionsMessage(key: string): string {
    "Missing, empty or invalid option \"" + key + "\" for inventory plugin " + NAME
  }

  /** Distinct options give distinct messages, and each message names the plugin. */
  lemma {:induction false} OptionsMessageIdentifies(key1: string, key2: string)
    ensures OptionsMessage(key1) == OptionsMessage(key2) ==> key1 == key2
    ensures Mentions(OptionsMessage(key1), key1)
    ensures Mentions(OptionsMessage(key1), NAME)
  {
    var prefix := "Missing, empty or invalid option \"";
    var suffix := "\" for inventory plugin " + NAME;
    var m1, m2 := OptionsMessage(key1), OptionsMessage(key2);
    assert m1 == prefix + key1 + suffix;
    assert m2 == prefix + key2 + suffix;
    if m1 == m2 {
      assert key1 == m1[|prefix|..|m1| - |suffix|];
      assert key2 == m2[|prefix|..|m2| - |suffix|];
    }
    OccursBetween(prefix, key1, suffix);
    var head := prefix + key1 + "\" for inventory plugin ";
    OccursBetween(head, NAME, "");
    assert head + NAME + "" == m1;
  }

  /** The option check: the first item that is not a non-empty string is reported. */
  function Validate(c: Config): Outcome<Error> {
    if !IsNonEmptyStr(c.apiEndpoint) then Fail(OptionsError(OptionsMessage(API_ENDPOINT)))
    else if !IsNonEmptyStr(c.accessKey) then Fail(OptionsError(OptionsMessage(ACCESS_KEY)))
    else if !IsNonEmptyStr(c.secretKey) then Fail(OptionsError(OptionsMessage(SECRET_KEY)))
    else Pass
  }

  /** The check passes exactly when every option is a non-empty string. */
  lemma ValidateAcceptsIff(c: Config)
    ensures Validate(c) == Pass <==> forall i :: 0 <= i < |c.Items()| ==> IsNonEmptyStr(c.Items()[i].1)
  {
    if Validate(c) != Pass {
      var i := if !IsNonEmptyStr(c.apiEndpoint) then 0 else if !IsNonEmptyStr(c.accessKey) then 1 else 2;
      assert !IsNonEmptyStr(c.Items()[i].1);
    }
  }

  /** A failing check names the first bad option in item order, and only that one. */
  lemma ValidateNamesFirstInvalid(c: Config, i: nat)
    requires i < |c.Items()| && !IsNonEmptyStr(c.Items()[i].1)
    requires forall j :: 0 <= j < i ==> IsNonEmptyStr(c.Items()[j].1)
    ensures Validate(c) == Fail(OptionsError(OptionsMessage(c.Items()[i].0)))
  {
    if i > 0 {
      assert IsNonEmptyStr(c.Items()[0].1);
    }
    if i > 1 {
      assert IsNonEmptyStr(c.Items()[1].1);
    }
  }

  // ------------------------------------------------------------------ headers

  /** The `X-ApiKeys` header value. */
  function ApiKeys(access: string, secret: string): string {
    "accessKey=" + access + ";secretKey=" + secret + ";"
  }

  /** The header value gives back both keys when the access key holds no `;`. */
  lemma {:induction false} ApiKeysInjective(access1: string, secret1: string, access2: string, secret2: string)
    requires ';' !in access1 && ';' !in access2
    requires ApiKeys(access1, secret1) == ApiKeys(access2, secret2)
    ensures access1 == access2 && secret1 == secret2
  {
    var v1, v2 := ApiKeys(access1, secret1), ApiKeys(access2, secret2);
    var tail1, tail2 := ";secretKey=" + secret1 + ";", ";secretKey=" + secret2 + ";";
    assert v1 == "accessKey=" + access1 + tail1;
    assert v2 == "accessKey=" + access2 + tail2;
    assert v1[10 + |access1|] == ';';
    assert v2[10 + |access2|] == ';';
    if |access1| != |access2| {
      assert false;
    }
    assert access1 == v1[10..10 + |access1|];
    assert access2 == v2[10..10 + |access2|];
    assert secret1 == v1[21 + |access1|..|v1| - 1];
    assert secret2 == v2[21 + |access2|..|v2| - 1];
  }

  /** The headers the plugin sets before the caller's are merged in. */
  function DefaultHeaders(c: Config): map<string, string> {
    map[API_KEYS_HEADER := ApiKeys(Show(c.accessKey), Show(c.secretKey)), ACCEPT_HEADER := JSON_MEDIA_TYPE]
  }

  /** `{**defaults, **headers}`: the caller's headers win. */
  function Headers(c: Config, caller: map<string, string>): (h: map<string, string>)
    ensures h.Keys == DefaultHeaders(c).Keys + caller.Keys
    ensures forall k :: k in caller ==> h[k] == caller[k]
    ensures forall k :: k in DefaultHeaders(c) && k !in caller ==> h[k] == DefaultHeaders(c)[k]
  {
    DefaultHeaders(c) + caller
  }

  // ---------------------------------------------------------------- API call

  /** The request URL: endpoint, one slash, path, with no normalisation. */
  function Url(endpoint: string, path: string): string {
    endpoint + "/" + path
  }

  /** The URL splits back into the endpoint and the path at the endpoint's length. */
  lemma UrlParts(endpoint: string, path: string)
    ensures var u := Url(endpoint, path);
      && |u| == |endpoint| + 1 + |path|
      && u[..|endpoint|] == endpoint
      && u[|endpoint|] == '/'
      && u[|endpoint| + 1..] == path
  {
  }

  /** An endpoint that ends in a slash yields a doubled slash. */
  lemma UrlKeepsTrailingSlash(endpoint: string, path: string)
    requires |endpoint| > 0 && endpoint[|endpoint| - 1] == '/'
    ensures OccursAt(Url(endpoint, path), "//", |endpoint| - 1)
  {
  }

  datatype HttpRequest = HttpRequest(verb: string, url: string, headers: map<string, string>)

  /** What `requests.request`, `raise_for_status()` and `response.json()` produce for a request. */
  datatype HttpOutcome =
    | Decoded(body: Json)             // the call succeeded and the body was decoded
    | RequestFailure(reason: string)  // a requests.exceptions.RequestException, with its text
    | OtherFailure(reason: string)    // any other exception, with its text

  function BuildRequest(c: Config, verb: string, path: string, caller: map<string, string>): HttpRequest {
    HttpRequest(verb, Url(Show(c.apiEndpoint), path), Headers(c, caller))
  }

  /** The second half of both API error messages. */
  function CallDetails(verb: string, path: string, reason: string): string {
    "method=\"" + verb + "\", path=\"" + path + "\", error=\"" + reason + "\""
  }

  function RunFailureMessage(verb: string, path: string, reason: string): string {
    "Failed to run Tenable API call: " + CallDetails(verb, path, reason)
  }

  function DecodeFailureMessage(verb: string, path: string, reason: string): string {
    "Failed to decode Tenable response as JSON: " + CallDetails(verb, path, reason)
  }

  lemma {:induction false} OccursAppend(s: string, t: string, i: nat, b: string)
    requires OccursAt(s, t, i)
    ensures OccursAt(s + b, t, i)
  {
  }

  lemma {:induction false} OccursPrepend(a: string, s: string, t: string, i: nat)
    requires OccursAt(s, t, i)
    ensures OccursAt(a + s, t, |a| + i)
  {
  }

  /** Whatever precedes them, the call details carry the method, the path and the error text. */
  lemma {:induction false} CallDetailsMention(head: string, verb: string, path: string, reason: string)
    ensures var m := head + CallDetails(verb, path, reason);
      Mentions(m, verb) && Mentions(m, path) && Mentions(m, reason)
  {
    var v, p, e, q := "method=\"", "\", path=\"", "\", error=\"", "\"";
    var s1 := v + verb;
    var s2 := s1 + p;
    var s3 := s2 + path;
    var s4 := s3 + e;
    var s5 := s4 + reason;
    var s6 := s5 + q;
    assert s6 == CallDetails(verb, path, reason);
    OccursBetween(v, verb, "");
    assert v + verb + "" == s1;
    OccursAppend(s1, verb, |v|, p);
    OccursAppend(s2, verb, |v|, path);
    OccursAppend(s3, verb, |v|, e);
    OccursAppend(s4, verb, |v|, reason);
    OccursAppend(s5, verb, |v|, q);
    OccursPrepend(head, s6, verb, |v|);
    OccursBetween(s2, path, "");
    assert s2 + path + "" == s3;
    OccursAppend(s3, path, |s2|, e);
    OccursAppend(s4, path, |s2|, reason);
    OccursAppend(s5, path, |s2|, q);
    OccursPrepend(head, s6, path, |s2|);
    OccursBetween(s4, reason, "");
    assert s4 + reason + "" == s5;
    OccursAppend(s5, reason, |s4|, q);
    OccursPrepend(head, s6, reason, |s4|);
  }

  /** Both messages carry the method, the path and the underlying error text. */
  lemma FailureMessagesMention(verb: string, path: string, reason: string)
    ensures var m := RunFailureMessage(verb, path, reason);
      Mentions(m, verb) && Mentions(m, path) && Mentions(m, reason)
    ensures var m := DecodeFailureMessage(verb, path, reason);
      Mentions(m, verb) && Mentions(m, path) && Mentions(m, reason)
  {
    CallDetailsMention("Failed to run Tenable API call: ", verb, path, reason);
    CallDetailsMention("Failed to decode Tenable response as JSON: ", verb, path, reason);
  }

  /** The two failure categories never produce the same message. */
  lemma {:induction false} FailureMessagesDistinct(verb1: string, path1: string, reason1: string,
                                                   verb2: string, path2: string, reason2: string)
    ensures RunFailureMessage(verb1, path1, reason1) != DecodeFailureMessage(verb2, path2, reason2)
  {
    var run, dec := "Failed to run Tenable API call: ", "Failed to decode Tenable response as JSON: ";
    var rest1, rest2 := CallDetails(verb1, path1, reason1), CallDetails(verb2, path2, reason2);
    assert (run + rest1)[10] == 'r';
    assert (dec + rest2)[10] == 'd';
  }

  /** `_tenable_api`: one request, the decoded body or an API error. */
  function Api(c: Config, verb: string, path: string, caller: map<string, string>,
               transport: HttpRequest -> HttpOutcome): Result<Json, Error> {
    match transport(BuildRequest(c, verb, path, caller))
    case Decoded(body) => Success(body)
    case RequestFailure(reason) => Failure(ApiError(RunFailureMessage(verb, path, reason)))
    case OtherFailure(reason) => Failure(ApiError(DecodeFailureMessage(verb, path, reason)))
  }

  /** The call succeeds exactly when the body was decoded; otherwise its error names method, path and cause. */
  lemma ApiOutcome(c: Config, verb: string, path: string, caller: map<string, string>,
                   transport: HttpRequest -> HttpOutcome)
    ensures var r := Api(c, verb, path, caller, transport);
            var o := transport(BuildRequest(c, verb, path, caller));
      && (r.Success? <==> o.Decoded?)
      && (r.Success? ==> r.value == o.body)
      && (r.Failure? ==>
            && r.error.ApiError?
            && Mentions(r.error.message, verb)
            && Mentions(r.error.message, path)
            && Mentions(r.error.message, o.reason))
  {
    match transport(BuildRequest(c, verb, path, caller))
    case Decoded(_) =>
    case RequestFailure(reason) => FailureMessagesMention(verb, path, reason);
    case OtherFailure(reason) => FailureMessagesMention(verb, path, reason);
  }

  // --------------------------------------------------------------- projection

  /** `asset['hostname'][0]` when it yields a host name; `None` when it raises. */
  function HostOf(asset: Json): Option<string> {
    match asset
    case JObj(fields) =>
      if "hostname" !in fields then None
      else (
        match fields["hostname"]
        case JArr(names) => if |names| > 0 && names[0].JStr? then Some(names[0].text) else None
        case JStr(s) => if |s| > 0 then Some([s[0]]) else None
        case _ => None)
    case _ => None
  }

  /**
   * The assets a `for` loop over `body.get('assets', [])` visits, or `None`
   * when evaluating or iterating that value raises before any asset yields a
   * host (a body that is not an object; an `assets` value that is not
   * iterable; a non-empty string or object, whose first element cannot be
   * indexed by `'hostname'`).
   */
  function AssetsOf(body: Json): Option<seq<Json>> {
    match body
    case JObj(fields) =>
      if "assets" !in fields then Some([])
      else (
        match fields["assets"]
        case JArr(items) => Some(items)
        case JStr(s) => if |s| == 0 then Some([]) else None
        case JObj(m) => if |m| == 0 then Some([]) else None
        case _ => None)
    case _ => None
  }

  /** The host names of assets that all have one, in order. */
  function Hosts(assets: seq<Json>): (hosts: seq<string>)
    requires forall i :: 0 <= i < |assets| ==> HostOf(assets[i]).Some?
    ensures |hosts| == |assets|
    ensures forall i :: 0 <= i < |assets| ==> Some(hosts[i]) == HostOf(assets[i])
  {
    if assets == [] then [] else [HostOf(assets[0]).value] + Hosts(assets[1..])
  }

  /** How many leading assets yield a host before the first one that raises. */
  function ValidPrefix(assets: seq<Json>): (k: nat)
    ensures k <= |assets|
    ensures forall i :: 0 <= i < k ==> HostOf(assets[i]).Some?
    ensures k < |assets| ==> HostOf(assets[k]).None?
  {
    if assets == [] || HostOf(assets[0]).None? then 0 else 1 + ValidPrefix(assets[1..])
  }

  /** What projecting assets does: its completion and the hosts it adds. */
  datatype Projected = Projected(outcome: Outcome<Error>, hosts: seq<string>)

  /** The loop over the asset list: hosts up to the first asset that raises. */
  function ProjectList(assets: seq<Json>): (p: Projected)
    ensures |p.hosts| <= |assets|
    ensures forall i :: 0 <= i < |p.hosts| ==> Some(p.hosts[i]) == HostOf(assets[i])
    ensures p.outcome == Pass <==> |p.hosts| == |assets|
    ensures p.outcome != Pass ==> p.outcome == Fail(DataFault) && HostOf(assets[|p.hosts|]).None?
  {
    var k := ValidPrefix(assets);
    Projected(if k == |assets| then Pass else Fail(DataFault), Hosts(assets[..k]))
  }

  /** Projection passes exactly when every asset has a host, and then adds one host per asset. */
  lemma ProjectListAcceptsIff(assets: seq<Json>)
    ensures ProjectList(assets).outcome == Pass <==> forall i :: 0 <= i < |assets| ==> HostOf(assets[i]).Some?
    ensures ProjectList(assets).outcome == Pass ==> ProjectList(assets).hosts == Hosts(assets)
  {
  }

  /** `_tenable_api_assets` after a successful call: project the decoded body. */
  function Projection(body: Json): Projected {
    match AssetsOf(body)
    case None => Projected(Fail(DataFault), [])
    case Some(assets) => ProjectList(assets)
  }

  /** A response without an `assets` key adds nothing and raises nothing. */
  lemma ProjectionWithoutAssets(fields: map<string, Json>)
    requires "assets" !in fields
    ensures Projection(JObj(fields)) == Projected(Pass, [])
  {
  }

  /** A two-asset response, the second asset with two host names, adds each asset's first host name, in order. */
  lemma ProjectionExample()
    ensures Projection(JObj(map["assets" := JArr([
              JObj(map["hostname" := JArr([JStr("a.example.com")])]),
              JObj(map["hostname" := JArr([JStr("b.example.com"), JStr("b2.example.com")])])])]))
            == Projected(Pass, ["a.example.com", "b.example.com"])
  {
  }

  /** What one asset request does for a configuration: its completion and the hosts it adds. */
  function FetchAssets(c: Config, transport: HttpRequest -> HttpOutcome): Projected {
    match Api(c, "GET", "assets", map[], transport)
    case Failure(e) => Projected(Fail(e), [])
    case Success(body) => Projection(body)
  }

  // --------------------------------------------------------------------- run

  /** One `parse` run: its completion, the requests it sent and the hosts it added. */
  datatype RunResult = RunResult(outcome: Outcome<Error>, sent: seq<HttpRequest>, added: seq<string>)

  function Run(config: map<string, Value>, envAccess: Option<string>, envSecret: Option<string>,
               transport: HttpRequest -> HttpOutcome): RunResult {
    var c := Resolve(config, envAccess, envSecret);
    match Validate(c)
    case Fail(e) => RunResult(Fail(e), [], [])
    case Pass =>
      var p := FetchAssets(c, transport);
      RunResult(p.outcome, [BuildRequest(c, "GET", "assets", map[])], p.hosts)
  }

  /** A run raises an options error exactly when the options are bad, and then sends nothing and adds nothing. */
  lemma RunConfigErrorFirst(config: map<string, Value>, envAccess: Option<string>, envSecret: Option<string>,
                            transport: HttpRequest -> HttpOutcome)
    ensures var r := Run(config, envAccess, envSecret, transport);
      (r.outcome.Fail? && r.outcome.error.OptionsError?) <==> Validate(Resolve(config, envAccess, envSecret)).Fail?
    ensures var r := Run(config, envAccess, envSecret, transport);
      Validate(Resolve(config, envAccess, envSecret)).Fail? ==> r.sent == [] && r.added == []
  {
  }

  /** With good options, a run sends one GET for `<endpoint>/assets` carrying exactly the two plugin headers. */
  lemma RunRequest(config: map<string, Value>, envAccess: Option<string>, envSecret: Option<string>,
                   transport: HttpRequest -> HttpOutcome)
    requires Validate(Resolve(config, envAccess, envSecret)) == Pass
    ensures var r := Run(config, envAccess, envSecret, transport);
            var c := Resolve(config, envAccess, envSecret);
      && |r.sent| == 1
      && r.sent[0].verb == "GET"
      && r.sent[0].url == c.apiEndpoint.text + "/assets"
      && r.sent[0].headers.Keys == {API_KEYS_HEADER, ACCEPT_HEADER}
      && r.sent[0].headers[API_KEYS_HEADER]
           == "accessKey=" + envAccess.value + ";secretKey=" + envSecret.value + ";"
      && r.sent[0].headers[ACCEPT_HEADER] == JSON_MEDIA_TYPE
  {
  }

  /** A failed call adds no host and raises an API error naming `GET` and `assets`. */
  lemma RunTransportFailure(config: map<string, Value>, envAccess: Option<string>, envSecret: Option<string>,
                            transport: HttpRequest -> HttpOutcome)
    requires Validate(Resolve(config, envAccess, envSecret)) == Pass
    requires !transport(BuildRequest(Resolve(config, envAccess, envSecret), "GET", "assets", map[])).Decoded?
    ensures var r := Run(config, envAccess, envSecret, transport);
      && r.added == []
      && r.outcome.Fail? && r.outcome.error.ApiError?
      && Mentions(r.outcome.error.message, "GET")
      && Mentions(r.outcome.error.message, "assets")
  {
    ApiOutcome(Resolve(config, envAccess, envSecret), "GET", "assets", map[], transport);
  }

  // ---------------------------------------------------------------- objects

  /** The inventory sink: the hosts added so far, in the order they were added. */
  class Inventory {
    var hosts: seq<string>

    constructor()
      ensures hosts == []
    {
      hosts := [];
    }

    method AddHost(name: string)
      modifies this
      ensures hosts == old(hosts) + [name]
    {
      hosts := hosts + [name];
    }
  }

  /** The loop of `_tenable_api_assets`: adds each asset's first host name until one raises. */
  method ProjectAssets(assets: seq<Json>, inventory: Inventory) returns (r: Outcome<Error>)
    modifies inventory
    ensures r == ProjectList(assets).outcome
    ensures inventory.hosts == old(inventory.hosts) + ProjectList(assets).hosts
  {
    var i := 0;
    while i < |assets|
      invariant 0 <= i <= |assets|
      invariant forall j :: 0 <= j < i ==> HostOf(assets[j]).Some?
      invariant inventory.hosts == old(inventory.hosts) + Hosts(assets[..i])
    {
      match HostOf(assets[i]) {
        case None =>
          assert ValidPrefix(assets) == i;
          return Fail(DataFault);
        case Some(host) =>
          inventory.AddHost(host);
          assert Hosts(assets[..i + 1]) == Hosts(assets[..i]) + [host];
      }
      i := i + 1;
    }
    assert assets[..i] == assets;
    r := Pass;
  }

  /** The plugin object; `cfg` is `self._tenable_cfg`, absent until the options are loaded. */
  class InventoryModule {
    var cfg: Option<Config>

    constructor()
      ensures cfg == None
    {
      cfg := None;
    }

    /** Every path is accepted as an inventory source. */
    function VerifyFile(path: string): (accepted: bool)
      ensures accepted
    {
      true
    }

    /** The option check loop over the stored table. */
    method CheckCfg() returns (r: Outcome<Error>)
      requires cfg.Some?
      ensures r == Validate(cfg.value)
    {
      var items := cfg.value.Items();
      var i := 0;
      while i < |items|
        invariant 0 <= i <= |items|
        invariant forall j :: 0 <= j < i ==> IsNonEmptyStr(items[j].1)
      {
        var (k, v) := items[i];
        if !v.Str? || |v.text| < 1 {
          ValidateNamesFirstInvalid(cfg.value, i);
          return Fail(OptionsError(OptionsMessage(k)));
        }
        i := i + 1;
      }
      ValidateAcceptsIff(cfg.value);
      r := Pass;
    }

    /** `_tenable_load_cfg`: stores the resolved table, then checks it. */
    method LoadCfg(config: map<string, Value>, envAccess: Option<string>, envSecret: Option<string>)
      returns (r: Outcome<Error>)
      modifies this
      ensures cfg == Some(Resolve(config, envAccess, envSecret))
      ensures r == Validate(cfg.value)
    {
      cfg := Some(Resolve(config, envAccess, envSecret));
      r := CheckCfg();
    }

    /** `_tenable_api_assets`: one GET of `assets`, then the projection into the inventory. */
    method ApiAssets(inventory: Inventory, transport: HttpRequest -> HttpOutcome)
      returns (r: Outcome<Error>, sent: HttpRequest)
      requires cfg.Some?
      modifies inventory
      ensures sent == BuildRequest(cfg.value, "GET", "assets", map[])
      ensures r == FetchAssets(cfg.value, transport).outcome
      ensures inventory.hosts == old(inventory.hosts) + FetchAssets(cfg.value, transport).hosts
    {
      sent := BuildRequest(cfg.value, "GET", "assets", map[]);
      match Api(cfg.value, "GET", "assets", map[], transport) {
        case Failure(e) =>
          r := Fail(e);
        case Success(body) =>
          match AssetsOf(body) {
            case None =>
              r := Fail(DataFault);
            case Some(assets) =>
              r := ProjectAssets(assets, inventory);
          }
      }
    }

    /** `parse`: load the options, then fetch and project the assets. */
    method Parse(inventory: Inventory, config: map<string, Value>, envAccess: Option<string>,
                 envSecret: Option<string>, transport: HttpRequest -> HttpOutcome)
      returns (r: Outcome<Error>, sent: seq<HttpRequest>)
      modifies this, inventory
      ensures cfg == Some(Resolve(config, envAccess, envSecret))
      ensures r == Run(config, envAccess, envSecret, transport).outcome
      ensures sent == Run(config, envAccess, envSecret, transport).sent
      ensures inventory.hosts == old(inventory.hosts) + Run(config, envAccess, envSecret, transport).added
    {
      r := LoadCfg(config, envAccess, envSecret);
      if r.Fail? {
        sent := [];
        return;
      }
      var request;
      r, request := ApiAssets(inventory, transport);
      sent := [request];
    }
  }
}
