/** How `PlaceRunner::run` names the plugin file it drops into Studio's
    plugin directory and how it builds the command that launches Studio
    (src/place_runner.rs:36-48, 56, 72-89). */
module Launch {

  newtype u16 = x: int | 0 <= x < 0x1_0000

  // ---------------------------------------------------------------------
  // Substring search, as `str::contains` with a string pattern
  // ---------------------------------------------------------------------

  /** `sub` occurs in `s` starting at index `i`. */
  predicate OccursAt(s: string, sub: string, i: nat) {
    i + |sub| <= |s| && s[i..i + |sub|] == sub
  }

  /** Scans `s` from the left for an occurrence of `sub`. The empty
      pattern occurs in every string, and no pattern longer than `s` does. */
  function Contains(s: string, sub: string): (b: bool)
    ensures sub == [] ==> b
    ensures b ==> |sub| <= |s|
    decreases |s|
  {
    if |sub| > |s| then false
    else if s[..|sub|] == sub then true
    else Contains(s[1..], sub)
  }

  /** The scan finds `sub` exactly when it occurs somewhere in `s`. */
  lemma {:induction false} ContainsIffOccurs(s: string, sub: string)
    ensures Contains(s, sub) <==> exists i: nat :: OccursAt(s, sub, i)
    decreases |s|
  {
    if |sub| > |s| {
      forall i: nat ensures !OccursAt(s, sub, i) { }
    } else if s[..|sub|] == sub {
      assert OccursAt(s, sub, 0);
    } else {
      ContainsIffOccurs(s[1..], sub);
      if Contains(s[1..], sub) {
        var i: nat :| OccursAt(s[1..], sub, i);
        assert s[i + 1..i + 1 + |sub|] == s[1..][i..i + |sub|];
        assert OccursAt(s, sub, i + 1);
      } else {
        forall i: nat | OccursAt(s, sub, i) ensures false {
          if i > 0 {
            assert s[1..][i - 1..i - 1 + |sub|] == s[i..i + |sub|];
            assert OccursAt(s[1..], sub, i - 1);
          }
        }
      }
    }
  }

  // ---------------------------------------------------------------------
  // The launch command
  // ---------------------------------------------------------------------

  /** The marker that selects the vinegar launcher on Linux hosts. */
  const Vinegar := "vinegar"

  /** `get_studio_execution_cmd`: the launcher name when the application
      path mentions it, the application path itself otherwise. */
  function StudioExecutable(appPath: string): (exe: string)
    ensures exe == Vinegar || exe == appPath
    ensures exe == Vinegar <==> Contains(appPath, Vinegar)
  {
    if Contains(appPath, Vinegar) then Vinegar else appPath
  }

  /** The executable chosen mentions the launcher exactly when the
      application path does, so the later test on the program name
      (src/place_runner.rs:74-78) agrees with the test that chose it. */
  lemma ExecutableMentionsVinegarIff(appPath: string)
    ensures Contains(StudioExecutable(appPath), Vinegar) <==> Contains(appPath, Vinegar)
  {
  }

  /** Where a child's standard output or error goes. */
  datatype Stdio = Inherit | Null

  /** Everything `Command` records before `spawn`. */
  datatype LaunchCommand = LaunchCommand(program: string, args: seq<string>, stdout: Stdio, stderr: Stdio)

  /** The command `run` builds for the given application path, place
      file and debug flag. */
  function StudioLaunch(appPath: string, placePath: string, debug: bool): (c: LaunchCommand)
    ensures c.program == StudioExecutable(appPath)
    ensures |c.args| > 0 && c.args[|c.args| - 1] == placePath
    ensures c.stdout == c.stderr
  {
    var program := StudioExecutable(appPath);
    var subcommand := if Contains(program, Vinegar) then ["studio", "run"] else [];
    var output := if debug then Inherit else Null;
    LaunchCommand(program, subcommand + [placePath], output, output)
  }

  /** The launch rules: the `studio run` prefix exactly when the
      application path mentions vinegar, the place file as the one
      positional argument and last, and both output streams discarded
      exactly when not debugging. */
  lemma StudioLaunchRules(appPath: string, placePath: string, debug: bool)
    ensures var c := StudioLaunch(appPath, placePath, debug);
      && (Contains(appPath, Vinegar) ==> c.program == Vinegar && c.args == ["studio", "run", placePath])
      && (!Contains(appPath, Vinegar) ==> c.program == appPath && c.args == [placePath])
      && (c.args == ["studio", "run", placePath] <==> Contains(appPath, Vinegar))
      && |c.args| > 0 && c.args[|c.args| - 1] == placePath
      && (c.stdout == Null <==> !debug) && (c.stderr == Null <==> !debug)
  {
  }

  /** `std::process::Command` as far as `run` uses it: a program, an
      argument list that `arg` appends to, and the two output settings. */
  class Command {
    var program: string
    var args: seq<string>
    var stdout: Stdio
    var stderr: Stdio

    constructor (program: string)
      ensures this.program == program && args == []
      ensures stdout == Inherit && stderr == Inherit
    {
      this.program := program;
      args := [];
      stdout, stderr := Inherit, Inherit;
    }

    method Arg(arg: string)
      modifies this`args
      ensures args == old(args) + [arg]
    {
      args := args + [arg];
    }

    method Stdout(cfg: Stdio)
      modifies this`stdout
      ensures stdout == cfg
    {
      stdout := cfg;
    }

    method Stderr(cfg: Stdio)
      modifies this`stderr
      ensures stderr == cfg
    {
      stderr := cfg;
    }

    function Snapshot(): LaunchCommand
      reads this
    {
      LaunchCommand(program, args, stdout, stderr)
    }
  }

  /** Builds the Studio command step by step, as `run` does. */
  method BuildStudioCommand(appPath: string, placePath: string, debug: bool) returns (cmd: Command)
    ensures fresh(cmd)
    ensures cmd.Snapshot() == StudioLaunch(appPath, placePath, debug)
  {
    cmd := new Command(StudioExecutable(appPath));
    if Contains(cmd.program, Vinegar) {
      cmd.Arg("studio");
      cmd.Arg("run");
    }
    cmd.Arg(placePath);
    if !debug {
      cmd.Stdout(Null);
      cmd.Stderr(Null);
    }
  }

  // ---------------------------------------------------------------------
  // The plugin file name
  // ---------------------------------------------------------------------

  predicate IsDigits(s: string) {
    forall k :: 0 <= k < |s| ==> '0' <= s[k] <= '9'
  }

  function DigitChar(d: nat): (c: char)
    requires d < 10
    ensures '0' <= c <= '9'
  {
    (('0' as int) + d) as char
  }

  /** A number written as `{}` writes it: decimal, without leading zeros. */
  function DecimalString(n: nat): (s: string)
    ensures 1 <= |s| && IsDigits(s)
    ensures s[0] == '0' ==> n == 0
    decreases n
  {
    if n < 10 then [DigitChar(n)] else DecimalString(n / 10) + [DigitChar(n % 10)]
  }

  /** The number a string of decimal digits denotes. */
  function DecimalValue(s: string): nat
    requires IsDigits(s)
  {
    if s == [] then 0
    else DecimalValue(s[..|s| - 1]) * 10 + ((s[|s| - 1] as int) - ('0' as int))
  }

  lemma {:induction false} DecimalRoundTrip(n: nat)
    ensures DecimalValue(DecimalString(n)) == n
    decreases n
  {
    if n >= 10 {
      var s := DecimalString(n);
      assert s[..|s| - 1] == DecimalString(n / 10);
      DecimalRoundTrip(n / 10);
    }
  }

  const PluginPrefix := "run_in_roblox-"
  const PluginSuffix := ".rbxmx"

  /** `format!("run_in_roblox-{}.rbxmx", self.port)`. */
  function PluginFileName(port: u16): (name: string)
    ensures |PluginPrefix| + |PluginSuffix| < |name|
    ensures name[..|PluginPrefix|] == PluginPrefix
    ensures name[|name| - |PluginSuffix|..] == PluginSuffix
  {
    PluginPrefix + DecimalString(port as nat) + PluginSuffix
  }

  /** The name is the fixed prefix, the port in decimal and the fixed
      suffix: the port can be read back from the name. */
  lemma PluginFileNameEncodesPort(port: u16)
    ensures var name := PluginFileName(port);
      && |PluginPrefix| + |PluginSuffix| < |name|
      && name[..|PluginPrefix|] == PluginPrefix
      && name[|name| - |PluginSuffix|..] == PluginSuffix
      && IsDigits(name[|PluginPrefix|..|name| - |PluginSuffix|])
      && DecimalValue(name[|PluginPrefix|..|name| - |PluginSuffix|]) == port as nat
  {
    var name := PluginFileName(port);
    assert name[|PluginPrefix|..|name| - |PluginSuffix|] == DecimalString(port as nat);
    DecimalRoundTrip(port as nat);
  }

  /** Sessions on different ports never write the same plugin file. */
  lemma PluginFileNameInjective(p: u16, q: u16)
    ensures PluginFileName(p) == PluginFileName(q) <==> p == q
  {
    PluginFileNameEncodesPort(p);
    PluginFileNameEncodesPort(q);
  }
}
