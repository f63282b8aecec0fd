/** The ssh command line for `sarab connect` (Sarab.Core/Services/SshConnectorService.cs). */
module SshConnector {
  import opened Wrappers
  import opened Entities

  datatype SshCommand = SshCommand(executable: string, arguments: string)

  /** `$"{binPath} access ssh --hostname %h"`. */
  function ProxyCommand(binPath: string): string {
    binPath + " access ssh --hostname %h"
  }

  /** `$"-o \"ProxyCommand={proxyCmd}\" {target}"`. */
  function BaseArguments(binPath: string, target: string): string {
    "-o \"ProxyCommand=" + ProxyCommand(binPath) + "\" " + target
  }

  /** `$" -i \"{identityFile}\""`. */
  function IdentitySuffix(file: string): string {
    " -i \"" + file + "\""
  }

  /** The binary path is what the artifact store resolved. */
  function PrepareSshCommandAsync(binPath: string, target: string, identityFile: Option<string>): (c: SshCommand)
    ensures c.executable == "ssh"
    ensures BaseArguments(binPath, target) <= c.arguments
    ensures IsNullOrEmpty(identityFile) ==> c.arguments == BaseArguments(binPath, target)
    ensures !IsNullOrEmpty(identityFile) ==>
              c.arguments[|BaseArguments(binPath, target)|..] == IdentitySuffix(identityFile.value)
  {
    var args := BaseArguments(binPath, target);
    SshCommand("ssh", if IsNullOrEmpty(identityFile) then args else args + IdentitySuffix(identityFile.value))
  }

  /** The arguments begin with the quoted proxy command that names the binary, then the target. */
  lemma ArgumentsStartWithProxyCommand(binPath: string, target: string, identityFile: Option<string>)
    ensures var args := PrepareSshCommandAsync(binPath, target, identityFile).arguments;
            var head := "-o \"ProxyCommand=" + binPath + " access ssh --hostname %h\" ";
            && head <= args
            && args[|head|..|head| + |target|] == target
  {
  }

  /** A null and an empty identity file give the same command, and a non-empty file is recoverable from it. */
  lemma IdentityFileIsRecoverable(binPath: string, target: string, f: string, g: string)
    requires f != "" && g != ""
    requires PrepareSshCommandAsync(binPath, target, Some(f)) == PrepareSshCommandAsync(binPath, target, Some(g))
    ensures f == g
    ensures PrepareSshCommandAsync(binPath, target, None) == PrepareSshCommandAsync(binPath, target, Some(""))
  {
    var n := |BaseArguments(binPath, target)|;
    var a := PrepareSshCommandAsync(binPath, target, Some(f)).arguments;
    assert a[n..] == IdentitySuffix(f) == IdentitySuffix(g);
    assert IdentitySuffix(f)[5..|IdentitySuffix(f)| - 1] == f;
    assert IdentitySuffix(g)[5..|IdentitySuffix(g)| - 1] == g;
  }
}
