# Sarab core, modelled in Dafny

Sarab is a command-line tool that exposes a local port through a Cloudflare tunnel, using a
rotating set of stored Cloudflare API tokens ("identities"). This project models its core pieces
and proves what they promise:

- **Cloudflare adapter** (`cloudflare.dfy`, module `Cloudflare`). The HTTP client is an abstract
  oracle, `CloudflareApi`. It is a datatype holding one function per endpoint, from request to
  reply. A reply is either a decoded body or a rejected status (Refit's `ApiException`). Every
  operation returns its outcome together with the ordered list of requests it sent. That list
  states "fails before any call", "at most two zone queries" and "no second query" directly.
  The pure parts (token verification, the tunnel-list LINQ filter, the CNAME request builder) are
  functions. `ConfigureTunnelAsync` and `GetZoneIdAsync` are methods because the source changes
  a local step by step: it adds the origin request after building the rule, and it reassigns
  `response` for the parent lookup.
- **Token repository** (`token_store.dfy`, class `TokenStore.SqliteRepository`). The Tokens table
  is a sequence of rows in rowid order. The AUTOINCREMENT counter is a field, and the Config table
  is a map. Each SQL statement is a pure function on rows (`ActiveRows`, `LeastFailing`,
  `Deactivate`, `ApplyUpdate`). The methods update the fields through these functions. `AddAsync`
  writes the new id back into the caller's `Token` object.
- **Token rotator** (`token_rotator.dfy`, class `TokenRotation.TokenRotator`). It forwards to the
  repository. `ReportFailureAsync` increments the object's failure count with C# `int` (unchecked)
  semantics and writes the object back.
- **Expose orchestrator** (`illusionist.dfy`, class `Illusionist.IllusionistService`). This is
  the current stub: pick a token, check the binary, start the tunnel. Each collaborator call is
  appended to a trace.
- **SSH connector** (`ssh_connector.dfy`). The ssh command line is a pure function of the binary
  path, the target and the identity file.

Shared pieces: `wrappers.dfy` (Option, Result, Outcome), `entities.dfy` (the `Token` object, its
row snapshot `TokenRecord`, `TunnelDetail`, `DnsListResult`, `Int32`), `text.dfy` (.NET
`Split`/`Join` on a character, and `int.ToString()` with its inverse).

Where the sources disagree, the model follows the code:

- The adapter reads `Result.Token` from the create-tunnel reply, but `TunnelResult` declares no
  such property. The client interface also lacks `UpdateTunnelConfigAsync`,
  `UpdateDnsRecordAsync` and `GetDnsRecordsAsync`, and `TunnelListResponse` is not declared. The
  oracle has the response shapes the adapter assumes. The create-tunnel result has an optional token.
- The code strips exactly one label, so `a.b.example.com` falls back to `b.example.com`, never
  `example.com` (`Cloudflare.ParentOfDeepName`).
- Aliases compare with SQLite's case-sensitive `=`, and `ORDER BY FailureCount LIMIT 1` does not
  fix ties, so `IsBestChoice` allows any tied active row.
- A soft-deleted row keeps its alias under the UNIQUE constraint, so adding a removed alias again
  fails (`TokenStore.RemovedAliasNotListedButTaken`).

## Model

| member | source | states |
|---|---|---|
| `Cloudflare.VerifyTokenAsync` | Sarab.Infrastructure/Adapters/CloudflareAdapter.cs:22-46 | Succeeds iff the verify reply is a success with status "active" and the accounts reply is a success with at least one account. It then returns the first account's id. The accounts query is sent only after a passing verification. Delivered failures give `TokenNotActive` or `NoAccountAccess`. |
| `Cloudflare.CreateTunnelAsync` | Sarab.Infrastructure/Adapters/CloudflareAdapter.cs:48-64 | No account id (null or empty) gives `AccountIdMissing` with no call. Otherwise the one call carries the name with config source "cloudflare". It succeeds iff the reply is a success with a result, and returns that result's id and token. |
| `Cloudflare.GetTunnelTokenAsync` | Sarab.Infrastructure/Adapters/CloudflareAdapter.cs:66-83 | The account-id guard comes before any call. It succeeds iff the reply is a success with a non-empty token, and returns that token. |
| `Cloudflare.ConfigureTunnelAsync` | Sarab.Infrastructure/Adapters/CloudflareAdapter.cs:85-127 | The account-id guard comes first. Exactly two ingress rules are sent. The first is {hostname, localUrl}, with an origin request iff `noTlsVerify`, and that request holds `NoTLSVerify = true`. The last has no hostname, service "http_status:404" and no origin request. It succeeds iff the reply reports success. |
| `Cloudflare.ListTunnelsAsync` | Sarab.Infrastructure/Adapters/CloudflareAdapter.cs:129-156 | The account-id guard comes first. One call is made with `isDeleted = false`. On success the result is the filter of the API tunnels. |
| `Cloudflare.LiveTunnelsMembership` | Sarab.Infrastructure/Adapters/CloudflareAdapter.cs:141-149 | A detail is listed iff an API tunnel with the same id, name and DeletedAt exists and DeletedAt is null. |
| `Cloudflare.LiveTunnelsAppend` | Sarab.Infrastructure/Adapters/CloudflareAdapter.cs:141-149 | The filter distributes over concatenation, so the original order is kept. |
| `Cloudflare.ListedTunnelsAreLive` | Sarab.Infrastructure/Adapters/CloudflareAdapter.cs:141-149 | Every listed tunnel has no DeletedAt, and every live API tunnel is listed with its fields copied. |
| `Cloudflare.DeleteTunnelAsync` | Sarab.Infrastructure/Adapters/CloudflareAdapter.cs:158-171 | The account-id guard comes first. One delete call is made. It fails only on an HTTP rejection. |
| `Cloudflare.RecordId` | Sarab.Infrastructure/Adapters/CloudflareAdapter.cs:186-189 | A record reply yields its id iff it is a success with a result. Otherwise the error is the wrapped rejection or the operation's failure. |
| `Cloudflare.CreateDnsRecordAsync` | Sarab.Infrastructure/Adapters/CloudflareAdapter.cs:173-195 | There is no account-id guard: exactly one call is always made. Its body is a CNAME with ttl 1 and the given name, content and proxied flag. The outcome is the reply's record id. |
| `Cloudflare.UpdateDnsRecordAsync` | Sarab.Infrastructure/Adapters/CloudflareAdapter.cs:210-232 | The same as create, addressed to the given record id. |
| `Cloudflare.CreateAndUpdateSendSameBody` | Sarab.Infrastructure/Adapters/CloudflareAdapter.cs:175-219 | Create and update send the identical request body for the same arguments. |
| `Cloudflare.DeleteDnsRecordAsync` | Sarab.Infrastructure/Adapters/CloudflareAdapter.cs:197-208 | There is no guard: exactly one delete call is made. It fails only on an HTTP rejection. |
| `Cloudflare.ListDnsRecordsAsync` | Sarab.Infrastructure/Adapters/CloudflareAdapter.cs:234-251 | The account-id guard comes first. One call carries the optional name filter. On success it returns the records as given. |
| `Cloudflare.GetZoneIdAsync` | Sarab.Infrastructure/Adapters/CloudflareAdapter.cs:253-279 | The exact-name query comes first. If it finds a zone, that first zone's id is returned and no second query is made. A second query, for the parent name, is made iff the first one was delivered empty or failed and the name has more than two dot-separated parts. There are at most two queries. An uncaught rejection ends the lookup. Otherwise the result is null. |
| `Cloudflare.ParentDomainDropsFirstLabel` | Sarab.Infrastructure/Adapters/CloudflareAdapter.cs:267-270 | The parent name is the original with exactly its first label and that label's dot removed. |
| `Cloudflare.TwoLabelNameHasNoParentToTry` | Sarab.Infrastructure/Adapters/CloudflareAdapter.cs:267-268 | A name with a single dot never gets the fallback query. |
| `Cloudflare.TwoDotsHaveParentToTry` | Sarab.Infrastructure/Adapters/CloudflareAdapter.cs:267-268 | A name with two dots or more gets the fallback query. |
| `Cloudflare.NoParentForExampleCom` | Sarab.Infrastructure/Adapters/CloudflareAdapter.cs:267-268 | `example.com` gets no fallback. |
| `Cloudflare.ParentOfApiExampleCom` | Sarab.Infrastructure/Adapters/CloudflareAdapter.cs:266-271 | `api.example.com` falls back to `example.com`. |
| `Cloudflare.ParentOfDeepName` | Sarab.Infrastructure/Adapters/CloudflareAdapter.cs:266-271 | `a.b.example.com` falls back only to `b.example.com`, one level. |
| `Text.JoinSplit` | Sarab.Infrastructure/Adapters/CloudflareAdapter.cs:267-270 | Joining the pieces of `Split('.')` with "." gives back the name. |
| `Text.Split` | Sarab.Infrastructure/Adapters/CloudflareAdapter.cs:267 | `Split('.')` yields one more piece than there are separators, and no piece holds the separator. |
| `Text.SplitAtFirst` | Sarab.Infrastructure/Adapters/CloudflareAdapter.cs:267 | The first piece of a split is the text before the first separator. The rest is the split of what follows it. |
| `TokenStore.SqliteRepository.constructor` | Sarab.Infrastructure/Persistence/SqliteRepository.cs:22-43 | A freshly created database has empty Tokens and Config tables. |
| `TokenStore.SqliteRepository.AddAsync` | Sarab.Infrastructure/Persistence/SqliteRepository.cs:45-55 | An alias already present, active or not, fails and changes nothing. Otherwise the token's values are appended as a row. The row has a new id greater than every earlier id, and that id is written into the token object. |
| `TokenStore.SqliteRepository.ListAsync` | Sarab.Infrastructure/Persistence/SqliteRepository.cs:57-61 | Returns the active rows. |
| `TokenStore.ActiveRowsMembership` | Sarab.Infrastructure/Persistence/SqliteRepository.cs:60 | A row is listed iff it is in the table and active. |
| `TokenStore.ActiveRowsAppend` | Sarab.Infrastructure/Persistence/SqliteRepository.cs:60 | The listing filters piecewise and keeps table order. |
| `TokenStore.SqliteRepository.RemoveAsync` | Sarab.Infrastructure/Persistence/SqliteRepository.cs:63-68 | Returns true iff some row has the alias. The table becomes the soft-deleted table. |
| `TokenStore.DeactivateOnlyClearsFlag` | Sarab.Infrastructure/Persistence/SqliteRepository.cs:66 | No row is removed. Each row differs from before at most in its active flag. The flag is cleared exactly on rows with the alias. |
| `TokenStore.RemovedAliasNotListedButTaken` | Sarab.Infrastructure/Persistence/SqliteRepository.cs:63-67 | After removal the alias is no longer listed, yet it is still in use for the UNIQUE constraint. |
| `TokenStore.SqliteRepository.GetBestTokenAsync` | Sarab.Infrastructure/Persistence/SqliteRepository.cs:70-75 | Returns none iff no row is active. Otherwise it returns an active row whose failure count is no larger than that of any active row. |
| `TokenStore.LeastFailingIsBest` | Sarab.Infrastructure/Persistence/SqliteRepository.cs:74 | The earliest active row with the fewest failures meets that promise. |
| `TokenStore.SqliteRepository.UpdateAsync` | Sarab.Infrastructure/Persistence/SqliteRepository.cs:77-86 | The table becomes the three-column update keyed by the token's id. |
| `TokenStore.UpdateTouchesThreeColumns` | Sarab.Infrastructure/Persistence/SqliteRepository.cs:80-85 | Only FailureCount, LastUsedAt and AccountId of the row with that id change. Id, Alias, ApiToken and IsActive keep their values, and other rows are untouched. An unknown id changes nothing. |
| `TokenStore.SqliteRepository.GetConfigAsync` | Sarab.Infrastructure/Persistence/SqliteRepository.cs:88-92 | Returns the key's entry iff the key is present. |
| `TokenStore.SqliteRepository.SetConfigAsync` | Sarab.Infrastructure/Persistence/SqliteRepository.cs:94-102 | An upsert: the key holds the value, and every other key keeps its presence and value. |
| `TokenStore.UpsertThenRead` | Sarab.Infrastructure/Persistence/SqliteRepository.cs:97-101 | After setting a key, reading it yields the new value, and another key reads as before. |
| `TokenStore.FreshDatabase` | Sarab.Infrastructure/Persistence/SqliteRepository.cs:91 | On a fresh database any key reads as none, and no token is chosen. |
| `Entities.Token.constructor` | Sarab.Core/Entities/Token.cs:5-14 | A new token has IsActive true, FailureCount 0, no account id and no last use. |
| `Entities.Inc32` | Sarab.Core/Services/TokenRotator.cs:26 | The unchecked `++` on a C# `int`: the result keeps the low 32 bits of `x + 1` (it differs from `x + 1` by a multiple of 2^32), which is one more below `int.MaxValue` and `int.MinValue` at it. |
| `Entities.Inc32IsTheTruncatedSum` | Sarab.Core/Services/TokenRotator.cs:26 | That truncation fixes the result: any `int` agreeing with `x + 1` on its low 32 bits is `Inc32(x)`. |
| `TokenRotation.TokenRotator.GetNextTokenAsync` | Sarab.Core/Services/TokenRotator.cs:18-22 | Returns what the best-token query promises: none iff nothing is active, else an active row with the fewest failures. |
| `TokenRotation.TokenRotator.ReportFailureAsync` | Sarab.Core/Services/TokenRotator.cs:24-28 | The object's count becomes its `int` increment, and the table becomes the update with the object's new values. |
| `TokenRotation.TokenRotator.GetAllTokensAsync` | Sarab.Core/Services/TokenRotator.cs:30-33 | Returns the active rows. |
| `TokenRotation.ReportedRowCountsOneMore` | Sarab.Core/Services/TokenRotator.cs:26-27 | For a token read from a row, the stored count rises by exactly one below the `int` maximum, so it never decreases. Alias, secret and active flag stay the same. |
| `TokenRotation.ReportFailureWrapsAtMaximum` | Sarab.Core/Services/TokenRotator.cs:26 | At `int.MaxValue` the increment wraps to `int.MinValue`. |
| `TokenRotation.ReportFailureOnStoredToken` | Sarab.Core/Services/TokenRotator.cs:24-28 | For every stored token, including one at `int.MaxValue`: the object's count becomes its unchecked increment (one more below the maximum), the stored row gets the same count, and only the three updatable columns of that row change. |
| `Illusionist.IllusionistService.ExposePortAsync` | Sarab.Core/Services/IllusionistService.cs:20-37 | The trace begins with token selection. With no token, the call fails and nothing else is called. Otherwise the binary check comes next, and if it fails the tunnel is never started. The tunnel starts only after the check, with the token's ApiToken and `http://localhost:<port>`. Outcome and trace do not depend on `subdomain`. |
| `Illusionist.LocalUrlDeterminesPort` | Sarab.Core/Services/IllusionistService.cs:35 | The local URL determines the port. |
| `Text.IntToDecimalInjective` | Sarab.Core/Services/IllusionistService.cs:35 | Decimal formatting of an `int` is injective. |
| `Text.DigitsValueOfDecimal` | Sarab.Core/Services/IllusionistService.cs:35 | Reading back the digits of a number gives the number. |
| `SshConnector.PrepareSshCommandAsync` | Sarab.Core/Services/SshConnectorService.cs:14-29 | The executable is "ssh" and the arguments begin with the base string. A null or empty identity file adds nothing. A non-empty one is followed by ` -i "<file>"` at the end. |
| `SshConnector.ArgumentsStartWithProxyCommand` | Sarab.Core/Services/SshConnectorService.cs:19-21 | The arguments start with `-o "ProxyCommand=<binPath> access ssh --hostname %h" ` followed by the target. |
| `SshConnector.IdentityFileIsRecoverable` | Sarab.Core/Services/SshConnectorService.cs:23-26 | A null and an empty identity file give the same command. Two non-empty files giving the same command are equal. |

## Left out

- The fuller session flow does not exist in these files, so it is not modelled: DNS duplicate reconciliation, secret polling with back-off, the local ingress file, quick mode, the `sarab-` prefix filter, fleet listing and nuke. `IllusionistService.cs` is a stub at line 32.
- SQLite, Dapper, connections and schema creation are not modelled. The constructor stands for `InitializeAsync` on a new database file.
- Rows come back in rowid order. SQLite promises no order without ORDER BY, so the order is a choice of the model.
- Row ids are unbounded naturals. The 64-bit limit of AUTOINCREMENT and the `int` conversion in `ExecuteScalarAsync<int>` are not modelled.
- Query results are value snapshots (`TokenRecord`), not fresh `Token` objects. Dapper's materialisation of objects is not modelled.
- Refit, HTTP and JSON are not modelled. Exception messages become `AdapterError` variants, and the request URI in two messages is dropped. A JSON reply with a null array (which would throw `NullReferenceException` in the adapter) is not representable. Arrays default to empty, as the DTOs declare.
- Failures other than `ApiException` (`HttpRequestException`, time-outs, deserialisation errors) escape every adapter method uncaught. `Reply` has no variant for them, so the model does not represent them.
- The `name` query parameter of the tunnel listing is always null in the code and is not modelled.
- Timestamps are opaque values that are never inspected.
- Process and file I/O are not modelled (`ProcessManager.cs`, `ArtifactStore.cs`). The binary check is a boolean input. How a started tunnel ends is an input function of its arguments. The ssh binary path is a parameter.
- The invariant culture's minus sign is assumed for `int.ToString()`.
- The CLI layer, the console output and the unused adapter fields of `TokenRotator` and `IllusionistService` are not modelled.
- TokenRotation.ReportedRowCountsOneMore: assumes the token object holds the stored row's current values and a count below `int.MaxValue`. A stale object can lower the stored count, because the update writes the object's value. At the maximum the count wraps (`ReportFailureWrapsAtMaximum`).
