/**
 The two call sites of the key rewrite and the launch sequence that runs them.

 `ToggleDebugMode` writes the checkbox state to the `debug` key and
 `SwitchBranch` writes the combo's branch, quoted, to the `branch` key; each
 first checks that `altv.toml` exists and, if not, reports an error and writes
 nothing. The file is the list of its lines, or `Missing`. Widget values are
 plain parameters; the error dialogs are the `shown` list of dialog texts.
 */
module Launcher {
  import opened TomlRewrite
  import opened Branches

  const DebugKey := "debug"
  const BranchKey := "branch"

  /** The state of `altv.toml` in the chosen folder. */
  datatype TomlFile = Missing | Present(lines: seq<string>)

  datatype Error = TomlNotFound | ExeNotFound

  /** The text of the error dialog, which names the missing file first. */
  function Message(e: Error): (r: string)
    ensures e.TomlNotFound? ==> StartsWith(r, "altv.toml ")
    ensures e.ExeNotFound? ==> StartsWith(r, "altv.exe ")
  {
    var file := match e case TomlNotFound => "altv.toml " case ExeNotFound => "altv.exe ";
    StartsWithMeansPrefix(file, file, NotFoundText);
    file + NotFoundText
  }

  const NotFoundText := "not found in the specified folder."

  /** The file after one rewrite, and the texts of the error dialogs shown on the way. */
  datatype Step = Step(toml: TomlFile, shown: seq<string>)

  /**
   The file after a launch, the error dialogs shown, and whether the `start`
   command for `altv.exe` was issued.
   */
  datatype LaunchOutcome = LaunchOutcome(toml: TomlFile, shown: seq<string>, startIssued: bool)

  /** The text of a boolean as the host language prints it: `True` or `False`. */
  function BoolText(b: bool): string {
    if b then "True" else "False"
  }

  function LowerChar(c: char): char {
    if 'A' <= c <= 'Z' then (c as int - 'A' as int + 'a' as int) as char else c
  }

  /** Lower-casing of ASCII letters; other characters are kept. */
  function Lower(s: string): (r: string)
    ensures |r| == |s|
    ensures forall i :: 0 <= i < |s| && 'A' <= s[i] <= 'Z' ==> r[i] as int == s[i] as int + 32
    ensures forall i :: 0 <= i < |s| && !('A' <= s[i] <= 'Z') ==> r[i] == s[i]
  {
    seq(|s|, i requires 0 <= i < |s| => LowerChar(s[i]))
  }

  /** The value written for the debug key: the lower-cased printed checkbox state, a lower-case boolean literal. */
  function DebugValue(checked: bool): (r: string)
    ensures r == (if checked then "true" else "false")
  {
    var t := BoolText(checked);
    var r := Lower(t);
    if checked then
      assert r[0] == 't';
      r
    else
      assert r[0] == 'f';
      r
  }

  /** The line that replaces every `debug` line. */
  function DebugLine(checked: bool): (r: string)
    ensures r == "debug = true\n" || r == "debug = false\n"
    ensures checked <==> r == "debug = true\n"
  {
    KeyLine(DebugKey, DebugValue(checked))
  }

  /** The line that replaces every `branch` line: the branch name in double quotes. */
  function BranchLine(b: Branch): (r: string)
    ensures r in ["branch = \"release\"\n", "branch = \"rc\"\n", "branch = \"dev\"\n"]
    ensures r[10..|r| - 2] == Name(b)
  {
    var r := KeyLine(BranchKey, "\"" + Name(b) + "\"");
    assert r == "branch = \"" + Name(b) + "\"\n";
    assert b.Release? ==> r == "branch = \"release\"\n";
    assert b.Rc? ==> r == "branch = \"rc\"\n";
    assert b.Dev? ==> r == "branch = \"dev\"\n";
    r
  }

  /** Rewrites the `debug` key to the checkbox state, or reports a missing file and writes nothing. */
  function ToggleDebugMode(toml: TomlFile, checked: bool): (r: Step)
    ensures toml.Missing? ==> r == Step(Missing, [Message(TomlNotFound)])
    ensures toml.Present? ==> r.shown == [] && r.toml.Present? && |r.toml.lines| == |toml.lines|
    ensures toml.Present? ==> forall i :: 0 <= i < |toml.lines| ==>
      r.toml.lines[i] == (if StartsWith(toml.lines[i], DebugKey) then DebugLine(checked) else toml.lines[i])
  {
    match toml
    case Missing => Step(Missing, [Message(TomlNotFound)])
    case Present(lines) => Step(Present(RewriteKey(lines, DebugKey, DebugValue(checked))), [])
  }

  /** Rewrites the `branch` key to the selected branch, or reports a missing file and writes nothing. */
  function SwitchBranch(toml: TomlFile, branch: Branch): (r: Step)
    ensures toml.Missing? ==> r == Step(Missing, [Message(TomlNotFound)])
    ensures toml.Present? ==> r.shown == [] && r.toml.Present? && |r.toml.lines| == |toml.lines|
    ensures toml.Present? ==> forall i :: 0 <= i < |toml.lines| ==>
      r.toml.lines[i] == (if StartsWith(toml.lines[i], BranchKey) then BranchLine(branch) else toml.lines[i])
  {
    match toml
    case Missing => Step(Missing, [Message(TomlNotFound)])
    case Present(lines) => Step(Present(RewriteKey(lines, BranchKey, "\"" + Name(branch) + "\"")), [])
  }

  /** Neither key is a prefix of the other, so no line is touched by both rewrites. */
  lemma KeysDisjoint()
    ensures !StartsWith(DebugKey, BranchKey) && !StartsWith(BranchKey, DebugKey)
  {
    assert BranchKey[..5][0] != DebugKey[0];
  }

  /**
   Launch: rewrite `debug`, then `branch`, then issue the `start` command for
   `altv.exe` if that file exists. A missing `altv.toml` is reported by each
   rewrite but does not stop the launch.
   */
  function Launch(toml: TomlFile, exeExists: bool, checked: bool, branch: Branch): (r: LaunchOutcome)
    ensures r.startIssued <==> exeExists
    ensures toml.Missing? ==>
      && r.toml == Missing
      && r.shown == [Message(TomlNotFound), Message(TomlNotFound)] + (if exeExists then [] else [Message(ExeNotFound)])
    ensures toml.Present? ==>
      && r.toml.Present? && |r.toml.lines| == |toml.lines|
      && r.shown == (if exeExists then [] else [Message(ExeNotFound)])
    ensures toml.Present? ==> forall i :: 0 <= i < |toml.lines| ==>
      r.toml.lines[i] == (if StartsWith(toml.lines[i], DebugKey) then DebugLine(checked)
                          else if StartsWith(toml.lines[i], BranchKey) then BranchLine(branch)
                          else toml.lines[i])
  {
    var afterDebug := ToggleDebugMode(toml, checked);
    var afterBranch := SwitchBranch(afterDebug.toml, branch);
    var shown := afterDebug.shown + afterBranch.shown;
    KeysDisjoint();
    if exeExists then LaunchOutcome(afterBranch.toml, shown, true)
    else LaunchOutcome(afterBranch.toml, shown + [Message(ExeNotFound)], false)
  }

  /** Running the two rewrites in the other order would write the same file. */
  lemma LaunchOrderIrrelevant(toml: TomlFile, exeExists: bool, checked: bool, branch: Branch)
    ensures Launch(toml, exeExists, checked, branch).toml ==
      ToggleDebugMode(SwitchBranch(toml, branch).toml, checked).toml
  {
    if toml.Present? {
      KeysDisjoint();
      RewriteCommutes(toml.lines, DebugKey, DebugValue(checked), BranchKey, "\"" + Name(branch) + "\"");
    }
  }

  /** Launching again with the same widget state leaves the file as the first launch wrote it. */
  lemma RelaunchKeepsFile(toml: TomlFile, exeExists: bool, checked: bool, branch: Branch)
    ensures var first := Launch(toml, exeExists, checked, branch);
      Launch(first.toml, exeExists, checked, branch).toml == first.toml
  {
    if toml.Present? {
      var dv := DebugValue(checked);
      var bv := "\"" + Name(branch) + "\"";
      var once := RewriteKey(RewriteKey(toml.lines, DebugKey, dv), BranchKey, bv);
      KeysDisjoint();
      RewriteCommutes(RewriteKey(toml.lines, DebugKey, dv), DebugKey, dv, BranchKey, bv);
      RewriteIdempotent(RewriteKey(toml.lines, DebugKey, dv), BranchKey, bv);
      RewriteIdempotent(toml.lines, DebugKey, dv);
      RewriteCommutes(toml.lines, DebugKey, dv, BranchKey, bv);
    }
  }
}
