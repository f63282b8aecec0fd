/**
 * The expose orchestrator as it stands (Sarab.Core/Services/IllusionistService.cs): choose a token,
 * check the tunnel binary, start the tunnel. Every collaborator call is recorded in a trace.
 */
module Illusionist {
  import opened Wrappers
  import opened Entities
  import opened Text
  import opened TokenStore
  import opened TokenRotation

  /** How the tunnel process ended when it did not end cleanly. */
  datatype ProcessError = TunnelProcessFailed(exitCode: int)

  /**
   * The process manager as seen by the service: whether the binary check passes, and how a tunnel
   * started with given arguments ends.
   */
  datatype ProcessManager = ProcessManager(binaryFound: bool, startTunnel: (string, string) -> Outcome<ProcessError>)

  /** One call the service makes on a collaborator; token selection records what it returned. */
  datatype Collaboration =
    | GetNextToken(selected: Option<TokenRecord>)
    | EnsureBinaryExists
    | StartTunnel(tunnelToken: string, url: string)

  datatype ExposeError =
    | NoActiveTokens               // "No active tokens found. ..."
    | BinaryNotFound               // the process manager's FileNotFoundException
    | TunnelFailed(reason: ProcessError)

  const LocalUrlPrefix: string := "http://localhost:"

  /** `$"http://localhost:{port}"`. */
  function LocalUrl(port: Int32): string {
    LocalUrlPrefix + IntToDecimal(port)
  }

  /** Different ports give different URLs: the URL carries the port. */
  lemma LocalUrlDeterminesPort(p: Int32, q: Int32)
    requires LocalUrl(p) == LocalUrl(q)
    ensures p == q
  {
    assert LocalUrl(p)[|LocalUrlPrefix|..] == IntToDecimal(p);
    assert LocalUrl(q)[|LocalUrlPrefix|..] == IntToDecimal(q);
    IntToDecimalInjective(p, q);
  }

  /** The tunnel is started only after the binary check has been recorded. */
  ghost predicate StartFollowsBinaryCheck(trace: seq<Collaboration>) {
    forall i :: 0 <= i < |trace| && trace[i].StartTunnel? ==> exists j :: 0 <= j < i && trace[j] == EnsureBinaryExists
  }

  class IllusionistService {
    const rotator: TokenRotator
    const processManager: ProcessManager

    constructor (rotator: TokenRotator, processManager: ProcessManager)
      ensures this.rotator == rotator && this.processManager == processManager
    {
      this.rotator := rotator;
      this.processManager := processManager;
    }

    /**
     * The contract fixes outcome and trace from the selected token, the process manager and the
     * port alone; `subdomain` takes no part in any call.
     */
    method ExposePortAsync(port: Int32, subdomain: Option<string>) returns (outcome: Outcome<ExposeError>, trace: seq<Collaboration>)
      ensures |trace| >= 1 && trace[0].GetNextToken? && IsBestChoice(rotator.repository.tokens, trace[0].selected)
      ensures StartFollowsBinaryCheck(trace)
      ensures trace[0].selected.None? ==> outcome == Fail(NoActiveTokens) && trace == [trace[0]]
      ensures trace[0].selected.Some? && !processManager.binaryFound ==>
                outcome == Fail(BinaryNotFound) && trace == [trace[0], EnsureBinaryExists]
      ensures trace[0].selected.Some? && processManager.binaryFound ==>
                var started := StartTunnel(trace[0].selected.value.apiToken, LocalUrl(port));
                && trace == [trace[0], EnsureBinaryExists, started]
                && (outcome.Pass? <==> processManager.startTunnel(started.tunnelToken, started.url).Pass?)
                && (outcome.Fail? ==> outcome.error == TunnelFailed(processManager.startTunnel(started.tunnelToken, started.url).error))
    {
      var token := rotator.GetNextTokenAsync();
      trace := [GetNextToken(token)];
      if token.None? {
        return Fail(NoActiveTokens), trace;
      }
      trace := trace + [EnsureBinaryExists];
      if !processManager.binaryFound {
        return Fail(BinaryNotFound), trace;
      }
      var localUrl := LocalUrl(port);
      trace := trace + [StartTunnel(token.value.apiToken, localUrl)];
      assert trace[1] == EnsureBinaryExists;
      match processManager.startTunnel(token.value.apiToken, localUrl)
      case Pass => outcome := Pass;
      case Fail(e) => outcome := Fail(TunnelFailed(e));
    }
  }
}
