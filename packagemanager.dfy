/**
 * Choosing and invoking the package manager: npm, Yarn or pnpm.
 */
module PackageManagers {
  import opened Text
  import opened Types

  /** `detectPackageManager`. `userAgent` is `npm_config_user_agent`, `""` when unset;
      `yarnLock` and `pnpmLock` say whether those lockfiles exist in the directory. */
  function DetectPackageManager(userAgent: string, yarnLock: bool, pnpmLock: bool): PackageManager {
    if userAgent != "" then
      if StartsWith(userAgent, "yarn") then Yarn
      else if StartsWith(userAgent, "pnpm") then Pnpm
      else Npm
    else if yarnLock then Yarn
    else if pnpmLock then Pnpm
    else Npm
  }

  /** A user agent, as the package managers write it, names the manager that is running:
      the detection reads it back whatever lockfiles lie around. */
  lemma UserAgentNamesManager(pm: PackageManager, rest: string, yarnLock: bool, pnpmLock: bool)
    ensures DetectPackageManager(PackageManagerId(pm) + rest, yarnLock, pnpmLock) == pm
  {
    var ua := PackageManagerId(pm) + rest;
    assert ua[..|PackageManagerId(pm)|] == PackageManagerId(pm);
    if pm == Npm {
      assert ua[0] == 'n';
    }
  }

  /** With a user agent set the lockfiles are not consulted; without one, a Yarn lockfile
      beats a pnpm one and npm is the default. */
  lemma DetectionOrder(userAgent: string, yarnLock: bool, pnpmLock: bool)
    ensures userAgent != "" ==> DetectPackageManager(userAgent, yarnLock, pnpmLock) == DetectPackageManager(userAgent, false, false)
    ensures userAgent == "" ==> (DetectPackageManager(userAgent, yarnLock, pnpmLock) == Yarn <==> yarnLock)
    ensures userAgent == "" ==> (DetectPackageManager(userAgent, yarnLock, pnpmLock) == Pnpm <==> !yarnLock && pnpmLock)
    ensures userAgent != "" && !StartsWith(userAgent, "yarn") && !StartsWith(userAgent, "pnpm") ==>
      DetectPackageManager(userAgent, yarnLock, pnpmLock) == Npm
  {
  }

  /** `getInstallCommand`: the manager's own name, followed by ` install` for every
      manager but Yarn, whose bare name installs. */
  function GetInstallCommand(pm: PackageManager): (cmd: string)
    ensures StartsWith(cmd, PackageManagerId(pm))
    ensures cmd == PackageManagerId(pm) <==> pm == Yarn
    ensures pm != Yarn ==> cmd == PackageManagerId(pm) + " install"
  {
    match pm
    case Yarn => "yarn"
    case Pnpm => "pnpm install"
    case Npm => "npm install"
  }

  /** The manager's own prefix of a run command: `npm run` for npm, the bare name otherwise. */
  function RunPrefix(pm: PackageManager): string {
    if pm == Npm then "npm run" else PackageManagerId(pm)
  }

  /** `getRunCommand`: the manager's run prefix, a space, then the script. */
  function GetRunCommand(pm: PackageManager, script: string): (cmd: string)
    ensures StartsWith(cmd, PackageManagerId(pm) + " ")
    ensures cmd == RunPrefix(pm) + " " + script
  {
    match pm
    case Yarn => "yarn " + script
    case Pnpm => "pnpm " + script
    case Npm => "npm run " + script
  }

  /** The script can be read back from the run command, and different managers give
      different commands. */
  lemma RunCommandInjective(pm1: PackageManager, s1: string, pm2: PackageManager, s2: string)
    requires GetRunCommand(pm1, s1) == GetRunCommand(pm2, s2)
    ensures pm1 == pm2 && s1 == s2
  {
    var c := GetRunCommand(pm1, s1);
    assert c[0] == PackageManagerId(pm1)[0] && c[0] == PackageManagerId(pm2)[0];
    if pm1 == Yarn || pm1 == Pnpm {
      assert s1 == c[5..];
    } else {
      assert s1 == c[8..];
    }
    if pm2 == Yarn || pm2 == Pnpm {
      assert s2 == c[5..];
    } else {
      assert s2 == c[8..];
    }
  }

  /** The three install commands are different. */
  lemma InstallCommandsDistinct(pm1: PackageManager, pm2: PackageManager)
    requires GetInstallCommand(pm1) == GetInstallCommand(pm2)
    ensures pm1 == pm2
  {
    var c := GetInstallCommand(pm1);
    assert c[0] == PackageManagerId(pm1)[0] && c[0] == PackageManagerId(pm2)[0];
  }
}
