/** Platform resolution and command construction of ping-server/server.js
    (`getOS`, `buildPingCommand`, `buildTracertCommand`, lines 97-158). The
    platform name and the process environment are parameters. */
module Platform {
  import opened Base
  import opened Text

  /** What `spawn` is given: the program, its arguments and its environment. */
  datatype Command = Command(command: string, args: seq<string>, env: map<string, string>)

  const Unsupported := "Unsupported operating system"

  /** `getOS()` for `process.platform == platform`. */
  function GetOS(platform: string): (os: string)
    ensures os == "windows" || os == "macos" || os == "linux"
    ensures os == "windows" <==> platform == "win32"
    ensures os == "macos" <==> platform == "darwin"
  {
    if platform == "win32" then "windows"
    else if platform == "darwin" then "macos"
    else "linux"
  }

  /** `{ ...env, key: value }` */
  function Override(env: map<string, string>, key: string, value: string): (r: map<string, string>)
    ensures r.Keys == env.Keys + {key} && r[key] == value
    ensures forall k :: k in env && k != key ==> r[k] == env[k]
  {
    env[key := value]
  }

  /** The `switch (os)` of `buildPingCommand`. */
  function PingCommandFor(os: string, host: string, count: int, env: map<string, string>): Result<Command, string> {
    if os == "windows" then
      Success(Command("cmd", ["/c", "chcp 65001 >nul && ping -n " + IntToString(count) + " " + host],
        Override(env, "LANG", "en_US.UTF-8")))
    else if os == "macos" then
      Success(Command("ping", ["-c", IntToString(count), host], Override(env, "LC_ALL", "C")))
    else if os == "linux" then
      Success(Command("ping", ["-c", IntToString(count), host], Override(env, "LC_ALL", "C")))
    else Failure(Unsupported)
  }

  /** The `switch (os)` of `buildTracertCommand`. */
  function TracertCommandFor(os: string, host: string, maxHops: int, env: map<string, string>): Result<Command, string> {
    if os == "windows" then
      Success(Command("cmd", ["/c", "chcp 65001 >nul && tracert -h " + IntToString(maxHops) + " " + host],
        Override(env, "LANG", "en_US.UTF-8")))
    else if os == "macos" then
      Success(Command("traceroute", ["-m", IntToString(maxHops), host], Override(env, "LC_ALL", "C")))
    else if os == "linux" then
      Success(Command("traceroute", ["-m", IntToString(maxHops), host], Override(env, "LC_ALL", "C")))
    else Failure(Unsupported)
  }

  /** `buildPingCommand(host, count)`: it never throws, because `getOS` only
      returns systems the switch knows. On Windows the count and host travel
      inside one `cmd /c` command line that first switches the console to
      UTF-8; elsewhere `ping` gets them as separate arguments and the C
      locale. */
  function BuildPingCommand(platform: string, host: string, count: int, env: map<string, string>): (r: Result<Command, string>)
    ensures r.Success?
    ensures platform == "win32" ==>
      r.value == Command("cmd", ["/c", "chcp 65001 >nul && ping -n " + IntToString(count) + " " + host],
        Override(env, "LANG", "en_US.UTF-8"))
    ensures platform != "win32" ==> r.value == Command("ping", ["-c", IntToString(count), host], Override(env, "LC_ALL", "C"))
  {
    PingCommandFor(GetOS(platform), host, count, env)
  }

  /** `buildTracertCommand(host, maxHops)`, the same shape with `tracert -h`
      on Windows and `traceroute -m` elsewhere. */
  function BuildTracertCommand(platform: string, host: string, maxHops: int, env: map<string, string>): (r: Result<Command, string>)
    ensures r.Success?
    ensures platform == "win32" ==>
      r.value == Command("cmd", ["/c", "chcp 65001 >nul && tracert -h " + IntToString(maxHops) + " " + host],
        Override(env, "LANG", "en_US.UTF-8"))
    ensures platform != "win32" ==> r.value == Command("traceroute", ["-m", IntToString(maxHops), host], Override(env, "LC_ALL", "C"))
  {
    TracertCommandFor(GetOS(platform), host, maxHops, env)
  }

  /** The `'Unsupported operating system'` branches are taken exactly for a
      system name `getOS` never returns. */
  lemma {:induction false} UnsupportedOnlyForUnknownSystems(os: string, host: string, n: int, env: map<string, string>)
    ensures PingCommandFor(os, host, n, env).Failure? <==> os !in {"windows", "macos", "linux"}
    ensures TracertCommandFor(os, host, n, env).Failure? <==> os !in {"windows", "macos", "linux"}
    ensures forall platform :: GetOS(platform) in {"windows", "macos", "linux"}
  {
  }

  /** macOS and Linux are handled identically. */
  lemma {:induction false} UnixBuildersAgree(host: string, n: int, env: map<string, string>)
    ensures PingCommandFor("macos", host, n, env) == PingCommandFor("linux", host, n, env)
    ensures TracertCommandFor("macos", host, n, env) == TracertCommandFor("linux", host, n, env)
    ensures BuildPingCommand("darwin", host, n, env) == BuildPingCommand("linux", host, n, env)
    ensures BuildTracertCommand("darwin", host, n, env) == BuildTracertCommand("linux", host, n, env)
  {
  }

  /** The locale override changes one variable and keeps every other one. */
  lemma {:induction false} LocaleOverride(platform: string, host: string, n: int, env: map<string, string>)
    ensures var key := if platform == "win32" then "LANG" else "LC_ALL";
      var e1, e2 := BuildPingCommand(platform, host, n, env).value.env, BuildTracertCommand(platform, host, n, env).value.env;
      && e1 == e2 && e1.Keys == env.Keys + {key}
      && e1[key] == (if platform == "win32" then "en_US.UTF-8" else "C")
      && forall k :: k in env && k != key ==> e1[k] == env[k]
  {
  }
}
