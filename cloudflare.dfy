/**
 * The Cloudflare adapter (Sarab.Infrastructure/Adapters/CloudflareAdapter.cs) over an abstract
 * HTTP client. Every reply the client could give is an input (`CloudflareApi`); every operation
 * returns what the adapter returns or throws together with the ordered list of requests it sent.
 */
module Cloudflare {
  import opened Wrappers
  import opened Entities
  import opened Text

  // ---- Response bodies the adapter reads ----

  datatype VerifyTokenResult = VerifyTokenResult(id: string, status: string)
  datatype VerifyTokenResponse = VerifyTokenResponse(success: bool, result: Option<VerifyTokenResult>)
  datatype AccountResult = AccountResult(id: string, name: string)
  datatype AccountListResponse = AccountListResponse(success: bool, result: seq<AccountResult>)
  /** The created tunnel; the adapter also reads an optional run token from it. */
  datatype TunnelResult = TunnelResult(id: string, token: Option<string>)
  datatype CreateTunnelResponse = CreateTunnelResponse(success: bool, result: Option<TunnelResult>)
  datatype TunnelTokenResponse = TunnelTokenResponse(success: bool, result: Option<string>)
  datatype TunnelConfigResponse = TunnelConfigResponse(success: bool)
  datatype TunnelListItem = TunnelListItem(id: string, name: string, deletedAt: Option<Timestamp>)
  datatype TunnelListResponse = TunnelListResponse(success: bool, result: seq<TunnelListItem>)
  datatype ZoneResult = ZoneResult(id: string, name: string)
  datatype ZoneListResponse = ZoneListResponse(success: bool, result: seq<ZoneResult>)
  datatype DnsRecordResult = DnsRecordResult(id: string)
  datatype DnsRecordResponse = DnsRecordResponse(success: bool, result: Option<DnsRecordResult>)
  datatype DnsListResponse = DnsListResponse(success: bool, result: seq<DnsListResult>)

  // ---- Request bodies the adapter builds ----

  datatype CreateTunnelRequest = CreateTunnelRequest(name: string, configSrc: string)
  datatype TunnelOriginRequest = TunnelOriginRequest(noTlsVerify: Option<bool>)
  datatype TunnelIngressRule = TunnelIngressRule(hostname: Option<string>, service: string, originRequest: Option<TunnelOriginRequest>)
  datatype TunnelConfig = TunnelConfig(ingress: seq<TunnelIngressRule>)
  datatype UpdateTunnelConfigRequest = UpdateTunnelConfigRequest(config: TunnelConfig)
  datatype CreateDnsRecordRequest = CreateDnsRecordRequest(recordType: string, name: string, content: string, ttl: int, proxied: bool)

  /** What one HTTP call yields: a decoded body, or a non-success status (Refit's `ApiException`). */
  datatype Reply<T> = Delivered(body: T) | Rejected(status: int, content: string)

  /** The HTTP client: for each endpoint, the reply it gives to each request. */
  datatype CloudflareApi = CloudflareApi(
    verifyToken: string -> Reply<VerifyTokenResponse>,
    getAccounts: string -> Reply<AccountListResponse>,
    createTunnel: (string, string, CreateTunnelRequest) -> Reply<CreateTunnelResponse>,
    getTunnelToken: (string, string, string) -> Reply<TunnelTokenResponse>,
    updateTunnelConfig: (string, string, string, UpdateTunnelConfigRequest) -> Reply<TunnelConfigResponse>,
    getTunnels: (string, string, bool) -> Reply<TunnelListResponse>,
    deleteTunnel: (string, string, string) -> Reply<string>,
    getZones: (string, string) -> Reply<ZoneListResponse>,
    createDnsRecord: (string, string, CreateDnsRecordRequest) -> Reply<DnsRecordResponse>,
    updateDnsRecord: (string, string, string, CreateDnsRecordRequest) -> Reply<DnsRecordResponse>,
    deleteDnsRecord: (string, string, string) -> Reply<string>,
    getDnsRecords: (string, string, Option<string>) -> Reply<DnsListResponse>)

  /** One request sent to the client, with its arguments (bearer token first). */
  datatype ApiCall =
    | VerifyTokenCall(bearer: string)
    | GetAccountsCall(bearer: string)
    | CreateTunnelCall(bearer: string, accountId: string, createRequest: CreateTunnelRequest)
    | GetTunnelTokenCall(bearer: string, accountId: string, tunnelId: string)
    | UpdateTunnelConfigCall(bearer: string, accountId: string, tunnelId: string, configRequest: UpdateTunnelConfigRequest)
    | GetTunnelsCall(bearer: string, accountId: string, isDeleted: bool)
    | DeleteTunnelCall(bearer: string, accountId: string, tunnelId: string)
    | GetZonesCall(bearer: string, name: string)
    | CreateDnsRecordCall(bearer: string, zoneId: string, dnsRequest: CreateDnsRecordRequest)
    | UpdateDnsRecordCall(bearer: string, zoneId: string, recordId: string, dnsRequest: CreateDnsRecordRequest)
    | DeleteDnsRecordCall(bearer: string, zoneId: string, recordId: string)
    | GetDnsRecordsCall(bearer: string, zoneId: string, nameFilter: Option<string>)

  /** The adapter operation an error comes from. */
  datatype Operation =
    | VerifyToken | CreateTunnel | GetTunnelToken | ConfigureTunnel | ListTunnels | DeleteTunnel
    | CreateDnsRecord | DeleteDnsRecord | UpdateDnsRecord | ListDnsRecords

  /** The exceptions the adapter throws, as variants rather than messages. */
  datatype AdapterError =
    | TokenNotActive                                    // "Token is invalid or not active."
    | NoAccountAccess                                   // "Token is valid but has no access to any accounts."
    | AccountIdMissing                                  // "Account ID missing for token."
    | RequestFailed(op: Operation)                      // a delivered reply that reports failure
    | ApiError(op: Operation, status: int, content: string) // an ApiException caught and rethrown
    | RawApiException(status: int, content: string)     // an ApiException left uncaught

  /** An operation's outcome and the requests it sent, in order. */
  datatype Exchange<T> = Exchange(outcome: Result<T, AdapterError>, calls: seq<ApiCall>)

  /** The guard most operations run first. */
  predicate HasAccountId(token: TokenRecord) {
    !IsNullOrEmpty(token.accountId)
  }

  // ---- Token verification ----

  /** The verify reply shows a successful check of an active token. */
  predicate ActiveTokenReply(reply: Reply<VerifyTokenResponse>) {
    reply.Delivered? && reply.body.success && reply.body.result.Some? && reply.body.result.value.status == "active"
  }

  /** The accounts reply is a success listing at least one account. */
  predicate AccountsReply(reply: Reply<AccountListResponse>) {
    reply.Delivered? && reply.body.success && |reply.body.result| > 0
  }

  function VerifyTokenAsync(api: CloudflareApi, apiToken: string): (x: Exchange<string>)
    ensures x.outcome.Ok? <==> ActiveTokenReply(api.verifyToken(apiToken)) && AccountsReply(api.getAccounts(apiToken))
    ensures x.outcome.Ok? ==> x.outcome.value == api.getAccounts(apiToken).body.result[0].id
    ensures x.calls == if ActiveTokenReply(api.verifyToken(apiToken))
                       then [VerifyTokenCall(apiToken), GetAccountsCall(apiToken)]
                       else [VerifyTokenCall(apiToken)]
    ensures api.verifyToken(apiToken).Delivered? && !ActiveTokenReply(api.verifyToken(apiToken)) ==> x.outcome == Err(TokenNotActive)
    ensures ActiveTokenReply(api.verifyToken(apiToken)) && api.getAccounts(apiToken).Delivered? && !AccountsReply(api.getAccounts(apiToken))
            ==> x.outcome == Err(NoAccountAccess)
    ensures api.verifyToken(apiToken).Rejected? ==>
              x.outcome == Err(ApiError(VerifyToken, api.verifyToken(apiToken).status, api.verifyToken(apiToken).content))
    ensures ActiveTokenReply(api.verifyToken(apiToken)) && api.getAccounts(apiToken).Rejected? ==>
              x.outcome == Err(ApiError(VerifyToken, api.getAccounts(apiToken).status, api.getAccounts(apiToken).content))
  {
    var calls := [VerifyTokenCall(apiToken)];
    match api.verifyToken(apiToken)
    case Rejected(status, content) => Exchange(Err(ApiError(VerifyToken, status, content)), calls)
    case Delivered(verified) =>
      if !verified.success || verified.result.None? || verified.result.value.status != "active" then
        Exchange(Err(TokenNotActive), calls)
      else
        var calls := calls + [GetAccountsCall(apiToken)];
        match api.getAccounts(apiToken)
        case Rejected(status, content) => Exchange(Err(ApiError(VerifyToken, status, content)), calls)
        case Delivered(accounts) =>
          if !accounts.success || |accounts.result| == 0 then Exchange(Err(NoAccountAccess), calls)
          else Exchange(Ok(accounts.result[0].id), calls)
  }

  // ---- Tunnels ----

  const ConfigSrcCloudflare: string := "cloudflare"

  function CreateTunnelAsync(api: CloudflareApi, token: TokenRecord, name: string): (x: Exchange<(string, Option<string>)>)
    ensures !HasAccountId(token) ==> x == Exchange(Err(AccountIdMissing), [])
    ensures HasAccountId(token) ==>
      var request := CreateTunnelRequest(name, ConfigSrcCloudflare);
      var reply := api.createTunnel(token.apiToken, token.accountId.value, request);
      && x.calls == [CreateTunnelCall(token.apiToken, token.accountId.value, request)]
      && (x.outcome.Ok? <==> reply.Delivered? && reply.body.success && reply.body.result.Some?)
      && (x.outcome.Ok? ==> x.outcome.value == (reply.body.result.value.id, reply.body.result.value.token))
      && (reply.Delivered? && x.outcome.Err? ==> x.outcome.error == RequestFailed(CreateTunnel))
      && (reply.Rejected? ==> x.outcome == Err(ApiError(CreateTunnel, reply.status, reply.content)))
  {
    if !HasAccountId(token) then Exchange(Err(AccountIdMissing), [])
    else
      var request := CreateTunnelRequest(name, ConfigSrcCloudflare);
      var calls := [CreateTunnelCall(token.apiToken, token.accountId.value, request)];
      match api.createTunnel(token.apiToken, token.accountId.value, request)
      case Rejected(status, content) => Exchange(Err(ApiError(CreateTunnel, status, content)), calls)
      case Delivered(response) =>
        if !response.success || response.result.None? then Exchange(Err(RequestFailed(CreateTunnel)), calls)
        else Exchange(Ok((response.result.value.id, response.result.value.token)), calls)
  }

  function GetTunnelTokenAsync(api: CloudflareApi, token: TokenRecord, tunnelId: string): (x: Exchange<string>)
    ensures !HasAccountId(token) ==> x == Exchange(Err(AccountIdMissing), [])
    ensures HasAccountId(token) ==>
      var reply := api.getTunnelToken(token.apiToken, token.accountId.value, tunnelId);
      && x.calls == [GetTunnelTokenCall(token.apiToken, token.accountId.value, tunnelId)]
      && (x.outcome.Ok? <==> reply.Delivered? && reply.body.success && !IsNullOrEmpty(reply.body.result))
      && (x.outcome.Ok? ==> x.outcome.value == reply.body.result.value && x.outcome.value != "")
      && (reply.Delivered? && x.outcome.Err? ==> x.outcome.error == RequestFailed(GetTunnelToken))
      && (reply.Rejected? ==> x.outcome == Err(ApiError(GetTunnelToken, reply.status, reply.content)))
  {
    if !HasAccountId(token) then Exchange(Err(AccountIdMissing), [])
    else
      var calls := [GetTunnelTokenCall(token.apiToken, token.accountId.value, tunnelId)];
      match api.getTunnelToken(token.apiToken, token.accountId.value, tunnelId)
      case Rejected(status, content) => Exchange(Err(ApiError(GetTunnelToken, status, content)), calls)
      case Delivered(response) =>
        if !response.success || IsNullOrEmpty(response.result) then Exchange(Err(RequestFailed(GetTunnelToken)), calls)
        else Exchange(Ok(response.result.value), calls)
  }

  const CatchAllService: string := "http_status:404"

  /**
   * Builds the two-rule ingress configuration (the first rule is created and then given an origin
   * request when TLS checks are off) and sends it.
   */
  method ConfigureTunnelAsync(api: CloudflareApi, token: TokenRecord, tunnelId: string, hostname: string, localUrl: string, noTlsVerify: bool)
    returns (outcome: Outcome<AdapterError>, calls: seq<ApiCall>)
    ensures !HasAccountId(token) ==> outcome == Fail(AccountIdMissing) && calls == []
    ensures HasAccountId(token) ==>
      && |calls| == 1 && calls[0].UpdateTunnelConfigCall?
      && calls[0].bearer == token.apiToken && calls[0].accountId == token.accountId.value && calls[0].tunnelId == tunnelId
    ensures HasAccountId(token) ==>
      var rules := calls[0].configRequest.config.ingress;
      && |rules| == 2
      && rules[0].hostname == Some(hostname) && rules[0].service == localUrl
      && (rules[0].originRequest.Some? <==> noTlsVerify)
      && (noTlsVerify ==> rules[0].originRequest.value.noTlsVerify == Some(true))
      && rules[1].hostname.None? && rules[1].service == CatchAllService && rules[1].originRequest.None?
    ensures HasAccountId(token) ==>
      var reply := api.updateTunnelConfig(token.apiToken, token.accountId.value, tunnelId, calls[0].configRequest);
      && (outcome.Pass? <==> reply.Delivered? && reply.body.success)
      && (reply.Delivered? && outcome.Fail? ==> outcome.error == RequestFailed(ConfigureTunnel))
      && (reply.Rejected? ==> outcome.error == ApiError(ConfigureTunnel, reply.status, reply.content))
  {
    if !HasAccountId(token) {
      return Fail(AccountIdMissing), [];
    }
    var ingressRule := TunnelIngressRule(Some(hostname), localUrl, None);
    if noTlsVerify {
      ingressRule := ingressRule.(originRequest := Some(TunnelOriginRequest(Some(true))));
    }
    var config := TunnelConfig([ingressRule, TunnelIngressRule(None, CatchAllService, None)]);
    var request := UpdateTunnelConfigRequest(config);
    calls := [UpdateTunnelConfigCall(token.apiToken, token.accountId.value, tunnelId, request)];
    match api.updateTunnelConfig(token.apiToken, token.accountId.value, tunnelId, request)
    case Rejected(status, content) =>
      outcome := Fail(ApiError(ConfigureTunnel, status, content));
    case Delivered(response) =>
      outcome := if response.success then Pass else Fail(RequestFailed(ConfigureTunnel));
  }

  /** The LINQ pipeline: keep the tunnels not marked deleted and project them to `TunnelDetail`. */
  function LiveTunnels(items: seq<TunnelListItem>): seq<TunnelDetail> {
    if |items| == 0 then []
    else
      var head := items[0];
      (if head.deletedAt.None? then [TunnelDetail(head.id, head.name, head.deletedAt)] else []) + LiveTunnels(items[1..])
  }

  /** A listed tunnel is exactly the projection of an API tunnel that is not marked deleted. */
  lemma {:induction false} LiveTunnelsMembership(items: seq<TunnelListItem>, d: TunnelDetail)
    ensures d in LiveTunnels(items) <==> TunnelListItem(d.id, d.name, d.deletedAt) in items && d.deletedAt.None?
  {
    if |items| > 0 {
      LiveTunnelsMembership(items[1..], d);
      assert items == [items[0]] + items[1..];
    }
  }

  /** The filter works piecewise, so it keeps the API order. */
  lemma {:induction false} LiveTunnelsAppend(a: seq<TunnelListItem>, b: seq<TunnelListItem>)
    ensures LiveTunnels(a + b) == LiveTunnels(a) + LiveTunnels(b)
  {
    if |a| > 0 {
      assert (a + b)[1..] == a[1..] + b;
      LiveTunnelsAppend(a[1..], b);
    } else {
      assert a + b == b;
    }
  }

  function ListTunnelsAsync(api: CloudflareApi, token: TokenRecord): (x: Exchange<seq<TunnelDetail>>)
    ensures !HasAccountId(token) ==> x == Exchange(Err(AccountIdMissing), [])
    ensures HasAccountId(token) ==>
      var reply := api.getTunnels(token.apiToken, token.accountId.value, false);
      && x.calls == [GetTunnelsCall(token.apiToken, token.accountId.value, false)]
      && (x.outcome.Ok? <==> reply.Delivered? && reply.body.success)
      && (x.outcome.Ok? ==> x.outcome.value == LiveTunnels(reply.body.result))
      && (reply.Delivered? && x.outcome.Err? ==> x.outcome.error == RequestFailed(ListTunnels))
      && (reply.Rejected? ==> x.outcome == Err(ApiError(ListTunnels, reply.status, reply.content)))
  {
    if !HasAccountId(token) then Exchange(Err(AccountIdMissing), [])
    else
      var calls := [GetTunnelsCall(token.apiToken, token.accountId.value, false)];
      match api.getTunnels(token.apiToken, token.accountId.value, false)
      case Rejected(status, content) => Exchange(Err(ApiError(ListTunnels, status, content)), calls)
      case Delivered(response) =>
        if !response.success then Exchange(Err(RequestFailed(ListTunnels)), calls)
        else Exchange(Ok(LiveTunnels(response.result)), calls)
  }

  /** No tunnel that `ListTunnelsAsync` returns is marked deleted, and every live one is returned. */
  lemma ListedTunnelsAreLive(api: CloudflareApi, token: TokenRecord, item: TunnelListItem)
    requires ListTunnelsAsync(api, token).outcome.Ok?
    ensures var listed := ListTunnelsAsync(api, token).outcome.value;
            var all := api.getTunnels(token.apiToken, token.accountId.value, false).body.result;
            && (forall d :: d in listed ==> d.deletedAt.None?)
            && (item in all && item.deletedAt.None? ==> TunnelDetail(item.id, item.name, item.deletedAt) in listed)
  {
    var listed := ListTunnelsAsync(api, token).outcome.value;
    var all := api.getTunnels(token.apiToken, token.accountId.value, false).body.result;
    forall d | d in listed ensures d.deletedAt.None? {
      LiveTunnelsMembership(all, d);
    }
    LiveTunnelsMembership(all, TunnelDetail(item.id, item.name, item.deletedAt));
  }

  function DeleteTunnelAsync(api: CloudflareApi, token: TokenRecord, tunnelId: string): (x: Exchange<()>)
    ensures !HasAccountId(token) ==> x == Exchange(Err(AccountIdMissing), [])
    ensures HasAccountId(token) ==>
      var reply := api.deleteTunnel(token.apiToken, token.accountId.value, tunnelId);
      && x.calls == [DeleteTunnelCall(token.apiToken, token.accountId.value, tunnelId)]
      && (x.outcome.Ok? <==> reply.Delivered?)
      && (reply.Rejected? ==> x.outcome.error == ApiError(DeleteTunnel, reply.status, reply.content))
  {
    if !HasAccountId(token) then Exchange(Err(AccountIdMissing), [])
    else
      var calls := [DeleteTunnelCall(token.apiToken, token.accountId.value, tunnelId)];
      match api.deleteTunnel(token.apiToken, token.accountId.value, tunnelId)
      case Rejected(status, content) => Exchange(Err(ApiError(DeleteTunnel, status, content)), calls)
      case Delivered(_) => Exchange(Ok(()), calls)
  }

  // ---- DNS records ----

  const CnameType: string := "CNAME"
  /** Cloudflare's "automatic" TTL. */
  const AutoTtl: int := 1

  /** The body sent for both creating and updating a record. */
  function CnameRequest(name: string, content: string, proxied: bool): CreateDnsRecordRequest {
    CreateDnsRecordRequest(CnameType, name, content, AutoTtl, proxied)
  }

  /** The request is a CNAME with automatic TTL that carries the caller's name, content and proxy flag. */
  predicate IsCnameRequestFor(request: CreateDnsRecordRequest, name: string, content: string, proxied: bool) {
    && request.recordType == "CNAME" && request.ttl == 1
    && request.name == name && request.content == content && request.proxied == proxied
  }

  /** Interpreting a record reply: its id, unless the reply reports failure or carries no record. */
  function RecordId(op: Operation, reply: Reply<DnsRecordResponse>): (r: Result<string, AdapterError>)
    ensures r.Ok? <==> reply.Delivered? && reply.body.success && reply.body.result.Some?
    ensures r.Ok? ==> r.value == reply.body.result.value.id
    ensures r.Err? ==> r.error == if reply.Rejected? then ApiError(op, reply.status, reply.content) else RequestFailed(op)
  {
    match reply
    case Rejected(status, content) => Err(ApiError(op, status, content))
    case Delivered(response) =>
      if !response.success || response.result.None? then Err(RequestFailed(op)) else Ok(response.result.value.id)
  }

  function CreateDnsRecordAsync(api: CloudflareApi, token: TokenRecord, zoneId: string, name: string, content: string, proxied: bool)
    : (x: Exchange<string>)
    ensures |x.calls| == 1 && x.calls[0].CreateDnsRecordCall?
    ensures x.calls[0].bearer == token.apiToken && x.calls[0].zoneId == zoneId
    ensures IsCnameRequestFor(x.calls[0].dnsRequest, name, content, proxied)
    ensures x.outcome == RecordId(CreateDnsRecord, api.createDnsRecord(token.apiToken, zoneId, x.calls[0].dnsRequest))
  {
    var request := CnameRequest(name, content, proxied);
    Exchange(RecordId(CreateDnsRecord, api.createDnsRecord(token.apiToken, zoneId, request)),
             [CreateDnsRecordCall(token.apiToken, zoneId, request)])
  }

  function UpdateDnsRecordAsync(api: CloudflareApi, token: TokenRecord, zoneId: string, recordId: string, name: string, content: string, proxied: bool)
    : (x: Exchange<string>)
    ensures |x.calls| == 1 && x.calls[0].UpdateDnsRecordCall?
    ensures x.calls[0].bearer == token.apiToken && x.calls[0].zoneId == zoneId && x.calls[0].recordId == recordId
    ensures IsCnameRequestFor(x.calls[0].dnsRequest, name, content, proxied)
    ensures x.outcome == RecordId(UpdateDnsRecord, api.updateDnsRecord(token.apiToken, zoneId, recordId, x.calls[0].dnsRequest))
  {
    var request := CnameRequest(name, content, proxied);
    Exchange(RecordId(UpdateDnsRecord, api.updateDnsRecord(token.apiToken, zoneId, recordId, request)),
             [UpdateDnsRecordCall(token.apiToken, zoneId, recordId, request)])
  }

  /** Creating and updating a record with the same arguments send the same body. */
  lemma CreateAndUpdateSendSameBody(api: CloudflareApi, token: TokenRecord, zoneId: string, recordId: string, name: string, content: string, proxied: bool)
    ensures CreateDnsRecordAsync(api, token, zoneId, name, content, proxied).calls[0].dnsRequest
         == UpdateDnsRecordAsync(api, token, zoneId, recordId, name, content, proxied).calls[0].dnsRequest
  {
  }

  function DeleteDnsRecordAsync(api: CloudflareApi, token: TokenRecord, zoneId: string, recordId: string): (x: Exchange<()>)
    ensures x.calls == [DeleteDnsRecordCall(token.apiToken, zoneId, recordId)]
    ensures var reply := api.deleteDnsRecord(token.apiToken, zoneId, recordId);
            && (x.outcome.Ok? <==> reply.Delivered?)
            && (reply.Rejected? ==> x.outcome.error == ApiError(DeleteDnsRecord, reply.status, reply.content))
  {
    var calls := [DeleteDnsRecordCall(token.apiToken, zoneId, recordId)];
    match api.deleteDnsRecord(token.apiToken, zoneId, recordId)
    case Rejected(status, content) => Exchange(Err(ApiError(DeleteDnsRecord, status, content)), calls)
    case Delivered(_) => Exchange(Ok(()), calls)
  }

  function ListDnsRecordsAsync(api: CloudflareApi, token: TokenRecord, zoneId: string, name: Option<string>): (x: Exchange<seq<DnsListResult>>)
    ensures !HasAccountId(token) ==> x == Exchange(Err(AccountIdMissing), [])
    ensures HasAccountId(token) ==>
      var reply := api.getDnsRecords(token.apiToken, zoneId, name);
      && x.calls == [GetDnsRecordsCall(token.apiToken, zoneId, name)]
      && (x.outcome.Ok? <==> reply.Delivered? && reply.body.success)
      && (x.outcome.Ok? ==> x.outcome.value == reply.body.result)
      && (reply.Delivered? && x.outcome.Err? ==> x.outcome.error == RequestFailed(ListDnsRecords))
      && (reply.Rejected? ==> x.outcome == Err(ApiError(ListDnsRecords, reply.status, reply.content)))
  {
    if !HasAccountId(token) then Exchange(Err(AccountIdMissing), [])
    else
      var calls := [GetDnsRecordsCall(token.apiToken, zoneId, name)];
      match api.getDnsRecords(token.apiToken, zoneId, name)
      case Rejected(status, content) => Exchange(Err(ApiError(ListDnsRecords, status, content)), calls)
      case Delivered(response) =>
        if !response.success then Exchange(Err(RequestFailed(ListDnsRecords)), calls)
        else Exchange(Ok(response.result), calls)
  }

  // ---- Zone resolution ----

  /** `string.Join(".", domainName.Split('.').Skip(1))`. */
  function ParentDomain(domainName: string): string {
    Join(Split(domainName, '.')[1..], '.')
  }

  /** The parent that is queried is the name with exactly its first label and that label's dot removed. */
  lemma {:induction false} ParentDomainDropsFirstLabel(domainName: string, i: nat)
    requires i < |domainName| && domainName[i] == '.' && '.' !in domainName[..i]
    ensures ParentDomain(domainName) == domainName[i + 1..]
    ensures domainName == domainName[..i] + "." + ParentDomain(domainName)
    ensures Split(domainName, '.')[0] == domainName[..i]
  {
    SplitAtFirst(domainName, '.', i);
    JoinSplit(domainName[i + 1..], '.');
    assert Split(domainName, '.')[1..] == Split(domainName[i + 1..], '.');
    assert domainName == domainName[..i] + "." + domainName[i + 1..];
  }

  /** A zone reply that names at least one zone. */
  predicate FoundZone(reply: Reply<ZoneListResponse>) {
    reply.Delivered? && reply.body.success && |reply.body.result| > 0
  }

  /** The name has more than two dot-separated parts, so one parent level is tried. */
  predicate HasParentToTry(domainName: string) {
    |Split(domainName, '.')| > 2
  }

  /**
   * Exact-name lookup, then at most one lookup of the parent name. This code has no handler for
   * `ApiException`, so a rejected query ends the lookup with that exception.
   */
  method GetZoneIdAsync(api: CloudflareApi, token: TokenRecord, domainName: string)
    returns (r: Result<Option<string>, AdapterError>, calls: seq<ApiCall>)
    ensures 1 <= |calls| <= 2 && calls[0] == GetZonesCall(token.apiToken, domainName)
    ensures FoundZone(api.getZones(token.apiToken, domainName)) ==>
              r == Ok(Some(api.getZones(token.apiToken, domainName).body.result[0].id)) && |calls| == 1
    ensures api.getZones(token.apiToken, domainName).Rejected? ==>
              r == Err(RawApiException(api.getZones(token.apiToken, domainName).status, api.getZones(token.apiToken, domainName).content))
              && |calls| == 1
    ensures |calls| == 2 <==> api.getZones(token.apiToken, domainName).Delivered? && !FoundZone(api.getZones(token.apiToken, domainName)) && HasParentToTry(domainName)
    ensures |calls| == 2 ==>
              var parent := api.getZones(token.apiToken, ParentDomain(domainName));
              && calls[1] == GetZonesCall(token.apiToken, ParentDomain(domainName))
              && (FoundZone(parent) ==> r == Ok(Some(parent.body.result[0].id)))
              && (parent.Rejected? ==> r == Err(RawApiException(parent.status, parent.content)))
              && (parent.Delivered? && !FoundZone(parent) ==> r == Ok(None))
    ensures |calls| == 1 && api.getZones(token.apiToken, domainName).Delivered? && !FoundZone(api.getZones(token.apiToken, domainName)) ==> r == Ok(None)
  {
    calls := [GetZonesCall(token.apiToken, domainName)];
    var response := api.getZones(token.apiToken, domainName);
    if response.Rejected? {
      return Err(RawApiException(response.status, response.content)), calls;
    }
    if response.body.success && |response.body.result| > 0 {
      return Ok(Some(response.body.result[0].id)), calls;
    }
    var parts := Split(domainName, '.');
    if |parts| > 2 {
      var parent := Join(parts[1..], '.');
      calls := calls + [GetZonesCall(token.apiToken, parent)];
      response := api.getZones(token.apiToken, parent);
      if response.Rejected? {
        return Err(RawApiException(response.status, response.content)), calls;
      }
      if response.body.success && |response.body.result| > 0 {
        return Ok(Some(response.body.result[0].id)), calls;
      }
    }
    r := Ok(None);
  }

  /** A name with a single dot, such as "example.com", never gets the parent lookup. */
  lemma {:induction false} TwoLabelNameHasNoParentToTry(domainName: string, i: nat)
    requires i < |domainName| && domainName[i] == '.'
    requires forall k :: 0 <= k < |domainName| && k != i ==> domainName[k] != '.'
    ensures !HasParentToTry(domainName)
  {
    OccurrencesOfSingle(domainName, i);
  }

  lemma {:induction false} OccurrencesOfSingle(s: string, i: nat)
    requires i < |s| && s[i] == '.'
    requires forall k :: 0 <= k < |s| && k != i ==> s[k] != '.'
    ensures Occurrences(s, '.') == 1
  {
    if i == 0 {
      NoOccurrences(s[1..]);
    } else {
      OccurrencesOfSingle(s[1..], i - 1);
    }
  }

  lemma {:induction false} NoOccurrences(s: string)
    requires forall k :: 0 <= k < |s| ==> s[k] != '.'
    ensures Occurrences(s, '.') == 0
  {
    if |s| > 0 {
      NoOccurrences(s[1..]);
    }
  }

  /** A name with at least two dots has a parent level to try. */
  lemma TwoDotsHaveParentToTry(domainName: string, i: nat, j: nat)
    requires i < j < |domainName| && domainName[i] == '.' && domainName[j] == '.'
    ensures HasParentToTry(domainName)
  {
    OccurrencesAtLeastTwo(domainName, i, j);
  }

  lemma {:induction false} OccurrencesAtLeastTwo(s: string, i: nat, j: nat)
    requires i < j < |s| && s[i] == '.' && s[j] == '.'
    ensures Occurrences(s, '.') >= 2
  {
    if i > 0 {
      OccurrencesAtLeastTwo(s[1..], i - 1, j - 1);
    } else {
      OccurrencesAtLeastOne(s[1..], j - 1);
    }
  }

  lemma {:induction false} OccurrencesAtLeastOne(s: string, j: nat)
    requires j < |s| && s[j] == '.'
    ensures Occurrences(s, '.') >= 1
  {
    if j > 0 {
      OccurrencesAtLeastOne(s[1..], j - 1);
    }
  }

  /** For "api.example.com" the parent lookup queries "example.com". */
  lemma ParentOfApiExampleCom()
    ensures HasParentToTry("api.example.com")
    ensures ParentDomain("api.example.com") == "example.com"
  {
    var d := "api.example.com";
    assert d[3] == '.' && d[11] == '.';
    TwoDotsHaveParentToTry(d, 3, 11);
    assert '.' !in d[..3];
    ParentDomainDropsFirstLabel(d, 3);
    assert d[4..] == "example.com";
  }

  /** "example.com" has two parts, so only the exact-name query is made. */
  lemma NoParentForExampleCom()
    ensures !HasParentToTry("example.com")
  {
  }

  /** Only one level is stripped: "a.b.example.com" falls back to "b.example.com", not "example.com". */
  lemma ParentOfDeepName()
    ensures HasParentToTry("a.b.example.com")
    ensures ParentDomain("a.b.example.com") == "b.example.com"
  {
    var d := "a.b.example.com";
    assert d[1] == '.' && d[3] == '.';
    TwoDotsHaveParentToTry(d, 1, 3);
    assert '.' !in d[..1];
    ParentDomainDropsFirstLabel(d, 1);
    assert d[2..] == "b.example.com";
  }
}
