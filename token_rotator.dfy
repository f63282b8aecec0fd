/** Token selection and failure bookkeeping (Sarab.Core/Services/TokenRotator.cs) over the repository. */
module TokenRotation {
  import opened Wrappers
  import opened Entities
  import opened TokenStore

  class TokenRotator {
    const repository: SqliteRepository

    constructor (repository: SqliteRepository)
      ensures this.repository == repository
    {
      this.repository := repository;
    }

    /** Whatever the repository's best-token query returns. */
    method GetNextTokenAsync() returns (token: Option<TokenRecord>)
      ensures IsBestChoice(repository.tokens, token)
    {
      token := repository.GetBestTokenAsync();
    }

    /** `token.FailureCount++`, then the repository's three-column update with the object's values. */
    method ReportFailureAsync(token: Token)
      requires repository.Valid()
      modifies token`failureCount, repository`tokens
      ensures repository.Valid()
      ensures token.failureCount == Inc32(old(token.failureCount))
      ensures repository.tokens == ApplyUpdate(old(repository.tokens), token.Snapshot())
    {
      token.failureCount := Inc32(token.failureCount);
      repository.UpdateAsync(token);
    }

    method GetAllTokensAsync() returns (tokens: seq<TokenRecord>)
      ensures tokens == ActiveRows(repository.tokens)
    {
      tokens := repository.ListAsync();
    }
  }

  /** The row the token object was read from, after `ReportFailureAsync` wrote the object back. */
  function ReportedRow(rows: seq<TokenRecord>, token: TokenRecord, i: nat): TokenRecord
    requires i < |rows|
  {
    ApplyUpdate(rows, token.(failureCount := Inc32(token.failureCount)))[i]
  }

  /**
   * Reporting a failure on a token read from row `i` raises that row's count by exactly one (below the
   * `int` maximum), so it never decreases, and leaves its alias, secret and active flag as they were.
   */
  lemma ReportedRowCountsOneMore(rows: seq<TokenRecord>, token: TokenRecord, i: nat)
    requires i < |rows| && rows[i] == token && token.failureCount < MaxInt32
    ensures ReportedRow(rows, token, i).failureCount == rows[i].failureCount + 1
    ensures ReportedRow(rows, token, i).failureCount > rows[i].failureCount
    ensures ReportedRow(rows, token, i).(failureCount := rows[i].failureCount) == rows[i]
  {
  }

  /** The increment is C# `int` arithmetic: at the maximum it wraps to the minimum. */
  lemma ReportFailureWrapsAtMaximum(rows: seq<TokenRecord>, token: TokenRecord, i: nat)
    requires i < |rows| && rows[i] == token && token.failureCount == MaxInt32
    ensures ReportedRow(rows, token, i).failureCount == MinInt32
  {
  }

  /** A client: the failure lands both in the object and in its stored row. */
  method ReportFailureOnStoredToken(rotator: TokenRotator, token: Token, i: nat)
    requires rotator.repository.Valid()
    requires i < |rotator.repository.tokens| && rotator.repository.tokens[i].id == token.id
    modifies token`failureCount, rotator.repository`tokens
    ensures token.failureCount == Inc32(old(token.failureCount))
    ensures old(token.failureCount) < MaxInt32 ==> token.failureCount == old(token.failureCount) + 1
    ensures |rotator.repository.tokens| == old(|rotator.repository.tokens|)
    ensures rotator.repository.tokens[i].failureCount == token.failureCount
    ensures rotator.repository.tokens[i].(failureCount := old(rotator.repository.tokens[i].failureCount),
                                          lastUsedAt := old(rotator.repository.tokens[i].lastUsedAt),
                                          accountId := old(rotator.repository.tokens[i].accountId))
            == old(rotator.repository.tokens[i])
  {
    rotator.ReportFailureAsync(token);
  }
}
