/**
 * The token repository (Sarab.Infrastructure/Persistence/SqliteRepository.cs) as an in-memory
 * database: the Tokens table is a sequence of rows in rowid order, `lastId` is the table's
 * AUTOINCREMENT counter, and the Config table is a map from key to value.
 */
module TokenStore {
  import opened Wrappers
  import opened Entities

  /** The exception `AddAsync` raises: the UNIQUE constraint on `Alias` failed. */
  datatype StoreError = AliasTaken(alias: string)

  /** A row of the Config table. */
  datatype Config = Config(key: string, value: string)

  /** Some row, active or not, carries the alias (the UNIQUE constraint ignores `IsActive`). */
  predicate AliasInUse(rows: seq<TokenRecord>, alias: string) {
    exists i :: 0 <= i < |rows| && rows[i].alias == alias
  }

  /** `SELECT * FROM Tokens WHERE IsActive = 1`, in table order. */
  function ActiveRows(rows: seq<TokenRecord>): seq<TokenRecord> {
    if |rows| == 0 then []
    else (if rows[0].isActive then [rows[0]] else []) + ActiveRows(rows[1..])
  }

  /** The listing holds exactly the active rows. */
  lemma {:induction false} ActiveRowsMembership(rows: seq<TokenRecord>, t: TokenRecord)
    ensures t in ActiveRows(rows) <==> t in rows && t.isActive
  {
    if |rows| > 0 {
      ActiveRowsMembership(rows[1..], t);
      assert rows == [rows[0]] + rows[1..];
    }
  }

  /** The listing is a filter of the table and keeps its order. */
  lemma {:induction false} ActiveRowsAppend(a: seq<TokenRecord>, b: seq<TokenRecord>)
    ensures ActiveRows(a + b) == ActiveRows(a) + ActiveRows(b)
  {
    if |a| > 0 {
      assert (a + b)[1..] == a[1..] + b;
      ActiveRowsAppend(a[1..], b);
    } else {
      assert a + b == b;
    }
  }

  /**
   * What `ORDER BY FailureCount ASC LIMIT 1` over the active rows promises: nothing when no row is
   * active, otherwise an active row whose failure count is no larger than any active row's.
   * Which of several tied rows comes back is not fixed.
   */
  ghost predicate IsBestChoice(rows: seq<TokenRecord>, choice: Option<TokenRecord>) {
    && (choice.None? <==> forall i :: 0 <= i < |rows| ==> !rows[i].isActive)
    && (choice.Some? ==>
          && choice.value in rows && choice.value.isActive
          && forall i :: 0 <= i < |rows| && rows[i].isActive ==> choice.value.failureCount <= rows[i].failureCount)
  }

  /** The earliest active row with the fewest failures. */
  function LeastFailing(rows: seq<TokenRecord>): Option<TokenRecord> {
    if |rows| == 0 then None
    else
      var rest := LeastFailing(rows[1..]);
      if !rows[0].isActive then rest
      else if rest.Some? && rest.value.failureCount < rows[0].failureCount then rest
      else Some(rows[0])
  }

  lemma {:induction false} LeastFailingIsBest(rows: seq<TokenRecord>)
    ensures IsBestChoice(rows, LeastFailing(rows))
  {
    if |rows| > 0 {
      LeastFailingIsBest(rows[1..]);
      assert forall i :: 1 <= i < |rows| ==> rows[i] == rows[1..][i - 1];
    }
  }

  /** `UPDATE Tokens SET IsActive = 0 WHERE Alias = @Alias`. */
  function Deactivate(rows: seq<TokenRecord>, alias: string): seq<TokenRecord> {
    seq(|rows|, i requires 0 <= i < |rows| => if rows[i].alias == alias then rows[i].(isActive := false) else rows[i])
  }

  /** `UPDATE Tokens SET FailureCount, LastUsedAt, AccountId WHERE Id = @Id` with the token's values. */
  function ApplyUpdate(rows: seq<TokenRecord>, token: TokenRecord): seq<TokenRecord> {
    seq(|rows|, i requires 0 <= i < |rows| =>
      if rows[i].id == token.id
      then rows[i].(failureCount := token.failureCount, lastUsedAt := token.lastUsedAt, accountId := token.accountId)
      else rows[i])
  }

  /** A soft delete: no row disappears, and only the active flag of the alias's row changes. */
  lemma DeactivateOnlyClearsFlag(rows: seq<TokenRecord>, alias: string)
    ensures |Deactivate(rows, alias)| == |rows|
    ensures forall i :: 0 <= i < |rows| ==>
      && Deactivate(rows, alias)[i].(isActive := rows[i].isActive) == rows[i]
      && (Deactivate(rows, alias)[i].isActive <==> rows[i].isActive && rows[i].alias != alias)
  {
  }

  /** After a removal the alias is no longer listed, but it still blocks a new row with that alias. */
  lemma RemovedAliasNotListedButTaken(rows: seq<TokenRecord>, alias: string)
    requires AliasInUse(rows, alias)
    ensures forall t :: t in ActiveRows(Deactivate(rows, alias)) ==> t.alias != alias
    ensures AliasInUse(Deactivate(rows, alias), alias)
  {
    var i :| 0 <= i < |rows| && rows[i].alias == alias;
    assert Deactivate(rows, alias)[i].alias == alias;
    forall t | t in ActiveRows(Deactivate(rows, alias)) ensures t.alias != alias {
      ActiveRowsMembership(Deactivate(rows, alias), t);
    }
  }

  /** The update changes failure count, last use and account id of the row with the token's id, and nothing else. */
  lemma UpdateTouchesThreeColumns(rows: seq<TokenRecord>, token: TokenRecord)
    ensures |ApplyUpdate(rows, token)| == |rows|
    ensures forall i :: 0 <= i < |rows| ==>
      var r := ApplyUpdate(rows, token)[i];
      && r.id == rows[i].id && r.alias == rows[i].alias && r.apiToken == rows[i].apiToken && r.isActive == rows[i].isActive
      && (rows[i].id == token.id ==>
            r.failureCount == token.failureCount && r.lastUsedAt == token.lastUsedAt && r.accountId == token.accountId)
      && (rows[i].id != token.id ==> r == rows[i])
    ensures (forall i :: 0 <= i < |rows| ==> rows[i].id != token.id) ==> ApplyUpdate(rows, token) == rows
  {
  }

  class SqliteRepository {
    var tokens: seq<TokenRecord>
    var lastId: nat
    var config: map<string, string>

    /** Aliases are unique, ids are positive, increase in table order and never exceed the counter. */
    ghost predicate Valid()
      reads this
    {
      && (forall i, j :: 0 <= i < j < |tokens| ==> tokens[i].alias != tokens[j].alias && tokens[i].id < tokens[j].id)
      && (forall i :: 0 <= i < |tokens| ==> 1 <= tokens[i].id <= lastId)
    }

    /** A freshly initialized database: both tables exist and are empty. */
    constructor ()
      ensures Valid() && tokens == [] && lastId == 0 && config == map[]
    {
      tokens := [];
      lastId := 0;
      config := map[];
    }

    /** INSERT ... RETURNING Id, then `token.Id = ...`. */
    method AddAsync(token: Token) returns (outcome: Outcome<StoreError>)
      requires Valid()
      modifies this`tokens, this`lastId, token`id
      ensures Valid() && config == old(config)
      ensures old(AliasInUse(tokens, token.alias)) ==>
                outcome == Fail(AliasTaken(token.alias)) && tokens == old(tokens) && lastId == old(lastId) && token.id == old(token.id)
      ensures !old(AliasInUse(tokens, token.alias)) ==>
                && outcome == Pass
                && token.id == old(lastId) + 1 && lastId == token.id
                && tokens == old(tokens) + [old(token.Snapshot()).(id := token.id)]
                && (forall i :: 0 <= i < |old(tokens)| ==> old(tokens)[i].id < token.id)
    {
      if AliasInUse(tokens, token.alias) {
        return Fail(AliasTaken(token.alias));
      }
      lastId := lastId + 1;
      token.id := lastId;
      tokens := tokens + [token.Snapshot()];
      outcome := Pass;
    }

    method ListAsync() returns (rows: seq<TokenRecord>)
      ensures rows == ActiveRows(tokens)
    {
      rows := ActiveRows(tokens);
    }

    /** Soft delete; reports whether any row carries the alias. */
    method RemoveAsync(alias: string) returns (removed: bool)
      requires Valid()
      modifies this`tokens
      ensures Valid()
      ensures removed <==> old(AliasInUse(tokens, alias))
      ensures tokens == Deactivate(old(tokens), alias)
    {
      removed := AliasInUse(tokens, alias);
      tokens := Deactivate(tokens, alias);
    }

    method GetBestTokenAsync() returns (best: Option<TokenRecord>)
      ensures IsBestChoice(tokens, best)
    {
      LeastFailingIsBest(tokens);
      best := LeastFailing(tokens);
    }

    method UpdateAsync(token: Token)
      requires Valid()
      modifies this`tokens
      ensures Valid()
      ensures tokens == ApplyUpdate(old(tokens), token.Snapshot())
    {
      tokens := ApplyUpdate(tokens, token.Snapshot());
    }

    method GetConfigAsync(key: string) returns (entry: Option<Config>)
      ensures entry.Some? <==> key in config
      ensures entry.Some? ==> entry.value == Config(key, config[key])
    {
      entry := if key in config then Some(Config(key, config[key])) else None;
    }

    /** INSERT ... ON CONFLICT(Key) DO UPDATE: an upsert. */
    method SetConfigAsync(key: string, value: string)
      requires Valid()
      modifies this`config
      ensures Valid()
      ensures key in config && config[key] == value
      ensures forall k :: k != key ==> (k in config <==> k in old(config)) && (k in config ==> config[k] == old(config)[k])
    {
      config := config[key := value];
    }
  }

  /** On a fresh database no key has a value and no token can be chosen. */
  method FreshDatabase(key: string) returns (entry: Option<Config>, best: Option<TokenRecord>)
    ensures entry.None? && best.None?
  {
    var repository := new SqliteRepository();
    entry := repository.GetConfigAsync(key);
    best := repository.GetBestTokenAsync();
  }

  /** After `SetConfigAsync(key, value)`, `GetConfigAsync(key)` yields that value; other keys read as before. */
  method UpsertThenRead(repository: SqliteRepository, key: string, value: string, other: string)
    returns (entry: Option<Config>, otherEntry: Option<Config>)
    requires other != key && repository.Valid()
    modifies repository`config
    ensures entry == Some(Config(key, value))
    ensures otherEntry == if other in old(repository.config) then Some(Config(other, old(repository.config)[other])) else None
  {
    repository.SetConfigAsync(key, value);
    entry := repository.GetConfigAsync(key);
    otherEntry := repository.GetConfigAsync(other);
  }
}
