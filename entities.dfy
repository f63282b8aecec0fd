/** The stored identity record and the value types shared by the services. */
module Entities {
  import opened Wrappers

  const MinInt32: int := -0x8000_0000
  const MaxInt32: int := 0x7fff_ffff

  /** The range of a C# `int`. */
  type Int32 = x: int | MinInt32 <= x <= MaxInt32

  /**
   * `x++` on a C# `int` in the default unchecked context: the result keeps the low 32 bits of the
   * mathematical `x + 1`, so it wraps from the maximum to the minimum.
   */
  function Inc32(x: Int32): (r: Int32)
    ensures (r - (x + 1)) % 0x1_0000_0000 == 0
    ensures x < MaxInt32 ==> r == x + 1
    ensures x == MaxInt32 ==> r == MinInt32
  {
    if x == MaxInt32 then MinInt32 else x + 1
  }

  /** The low 32 bits fix an `Int32`: any `int` that keeps the low 32 bits of `x + 1` is `Inc32(x)`. */
  lemma Inc32IsTheTruncatedSum(x: Int32, y: Int32)
    requires (y - (x + 1)) % 0x1_0000_0000 == 0
    ensures y == Inc32(x)
  {
  }

  /** A point in time; the model never inspects it. */
  datatype Timestamp = Timestamp(ticks: int)

  /** One row of the Tokens table, or a snapshot of a `Token` object. */
  datatype TokenRecord = TokenRecord(
    id: int,
    alias: string,
    apiToken: string,
    accountId: Option<string>,
    isActive: bool,
    failureCount: Int32,
    lastUsedAt: Option<Timestamp>)

  /** `string.IsNullOrEmpty`. */
  predicate IsNullOrEmpty(s: Option<string>) {
    s.None? || s.value == ""
  }

  /** The mutable identity object of the services (Sarab.Core/Entities/Token.cs). */
  class Token {
    var id: int
    var alias: string
    var apiToken: string
    var accountId: Option<string>
    var isActive: bool
    var failureCount: Int32
    var lastUsedAt: Option<Timestamp>

    /** `new Token { Alias = alias, ApiToken = apiToken }`: the remaining properties take their defaults. */
    constructor (alias: string, apiToken: string)
      ensures Snapshot() == TokenRecord(0, alias, apiToken, None, true, 0, None)
    {
      this.id := 0;
      this.alias := alias;
      this.apiToken := apiToken;
      this.accountId := None;
      this.isActive := true;
      this.failureCount := 0;
      this.lastUsedAt := None;
    }

    /** The values of the object's properties, as the repository's SQL parameters read them. */
    function Snapshot(): TokenRecord
      reads this
    {
      TokenRecord(id, alias, apiToken, accountId, isActive, failureCount, lastUsedAt)
    }
  }

  /** Sarab.Core/DTOs/TunnelDetail.cs */
  datatype TunnelDetail = TunnelDetail(id: string, name: string, deletedAt: Option<Timestamp>)

  /** Sarab.Core/DTOs/DnsDtos.cs */
  datatype DnsListResult = DnsListResult(id: string, name: string, recordType: string, content: string)
}
