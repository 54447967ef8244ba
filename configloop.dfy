// The configuration run loop of main() (main.go:228-246): every listed
// configuration script that exists is run in list order; a script error ends
// startup only when a permission backend is present; the names of the scripts
// that were run are recorded.

module ConfigLoop {

  /** The names that exist, in list order. */
  function Existing(names: seq<string>, files: set<string>): (r: seq<string>)
    ensures forall x :: x in r <==> x in names && x in files
    decreases |names|
  {
    if names == [] then []
    else (if names[0] in files then [names[0]] else []) + Existing(names[1..], files)
  }

  /**
   * What the loop does: `executed` are the scripts handed to
   * runConfiguration, in order; `ran` is ranConfigurationFilenames;
   * `fatal` says the loop ended in fatalExit.
   */
  datatype LoopResult = LoopResult(executed: seq<string>, ran: seq<string>, fatal: bool)

  /** A loop prefix that ran `executed` and recorded `ran`, followed by the rest of the loop. */
  function Then(executed: seq<string>, ran: seq<string>, rest: LoopResult): LoopResult {
    LoopResult(executed + rest.executed, ran + rest.ran, rest.fatal)
  }

  /**
   * The loop as a recursive definition. The append to the recorded list comes
   * after the error check, so with no permission backend a failing script is
   * recorded too; with one, fatalExit stops before the append.
   */
  function Pipeline(names: seq<string>, files: set<string>, failing: set<string>, perm: bool): LoopResult
    decreases |names|
  {
    if names == [] then LoopResult([], [], false)
    else
      var f := names[0];
      if f !in files then Pipeline(names[1..], files, failing, perm)
      else if f in failing && perm then LoopResult([f], [], true)
      else Then([f], [f], Pipeline(names[1..], files, failing, perm))
  }

  /** The loop of main.go:229-244, over the oracles for fs.exists and runConfiguration. */
  method RunScripts(names: seq<string>, files: set<string>, failing: set<string>, perm: bool)
    returns (r: LoopResult)
    ensures r == Pipeline(names, files, failing, perm)
    ensures !r.fatal ==> r.ran == Existing(names, files)
    ensures r.fatal ==> perm && |r.executed| == |r.ran| + 1 && r.executed[|r.ran|] in failing
  {
    var executed: seq<string> := [];
    var ran: seq<string> := [];
    for i := 0 to |names|
      invariant RunInv(names, files, failing, perm, i, ran) && executed == ran
    {
      var filename := names[i];
      if filename in files {
        executed := executed + [filename];
        if filename in failing {
          // the error is logged; with a backend it ends startup
          if perm {
            RunStops(names, files, failing, perm, i, ran);
            return LoopResult(executed, ran, true);
          }
          // without a backend the error is logged and the script still counts as run
        }
        RunRecords(names, files, failing, perm, i, ran);
        ran := ran + [filename];
      } else {
        RunSkips(names, files, failing, perm, i, ran);
      }
    }
    RunEnds(names, files, failing, perm, ran);
    r := LoopResult(executed, ran, false);
  }

  /**
   * The loop after i names: `ran` holds the existing scripts among them, all
   * of which ran, and what is left is the loop over the rest.
   */
  ghost predicate RunInv(names: seq<string>, files: set<string>, failing: set<string>, perm: bool, i: nat, ran: seq<string>) {
    i <= |names| && ran == Existing(names[..i], files) &&
    Pipeline(names, files, failing, perm) == Then(ran, ran, Pipeline(names[i..], files, failing, perm))
  }

  lemma RunSkips(names: seq<string>, files: set<string>, failing: set<string>, perm: bool, i: nat, ran: seq<string>)
    requires RunInv(names, files, failing, perm, i, ran) && i < |names| && names[i] !in files
    ensures RunInv(names, files, failing, perm, i + 1, ran)
  {
    assert names[i..][1..] == names[i + 1..];
    assert names[..i + 1] == names[..i] + [names[i]];
    ExistingAppend(names[..i], [names[i]], files);
  }

  lemma RunRecords(names: seq<string>, files: set<string>, failing: set<string>, perm: bool, i: nat, ran: seq<string>)
    requires RunInv(names, files, failing, perm, i, ran) && i < |names| && names[i] in files
    requires !(names[i] in failing && perm)
    ensures RunInv(names, files, failing, perm, i + 1, ran + [names[i]])
  {
    var f := names[i];
    var rest := Pipeline(names[i + 1..], files, failing, perm);
    assert names[i..][1..] == names[i + 1..];
    assert names[..i + 1] == names[..i] + [f];
    ExistingAppend(names[..i], [f], files);
    assert ran + ([f] + rest.executed) == (ran + [f]) + rest.executed;
    assert ran + ([f] + rest.ran) == (ran + [f]) + rest.ran;
  }

  lemma RunStops(names: seq<string>, files: set<string>, failing: set<string>, perm: bool, i: nat, ran: seq<string>)
    requires RunInv(names, files, failing, perm, i, ran) && i < |names|
    requires names[i] in files && names[i] in failing && perm
    ensures Pipeline(names, files, failing, perm) == LoopResult(ran + [names[i]], ran, true)
  {
    assert ran + [] == ran;
  }

  lemma RunEnds(names: seq<string>, files: set<string>, failing: set<string>, perm: bool, ran: seq<string>)
    requires RunInv(names, files, failing, perm, |names|, ran)
    ensures Pipeline(names, files, failing, perm) == LoopResult(ran, ran, false)
    ensures ran == Existing(names, files)
  {
    assert names[..|names|] == names;
    assert names[|names|..] == [];
    assert ran + [] == ran;
  }

  lemma {:induction false} ExistingAppend(a: seq<string>, b: seq<string>, files: set<string>)
    ensures Existing(a + b, files) == Existing(a, files) + Existing(b, files)
    decreases |a|
  {
    if a == [] {
      assert a + b == b;
    } else {
      assert (a + b)[0] == a[0] && (a + b)[1..] == a[1..] + b;
      ExistingAppend(a[1..], b, files);
    }
  }

  /**
   * With no permission backend nothing is fatal: every existing script is
   * run and recorded in list order, including those whose run failed.
   */
  lemma {:induction false} NoBackendRunsEveryExisting(names: seq<string>, files: set<string>, failing: set<string>)
    ensures Pipeline(names, files, failing, false) == LoopResult(Existing(names, files), Existing(names, files), false)
    decreases |names|
  {
    if names != [] {
      NoBackendRunsEveryExisting(names[1..], files, failing);
    }
  }

  /** Some listed script exists and fails. */
  predicate SomeScriptFails(names: seq<string>, files: set<string>, failing: set<string>) {
    exists j :: 0 <= j < |names| && names[j] in files && names[j] in failing
  }

  /** Index of the first existing script that fails, or |names| when there is none. */
  function FirstFailure(names: seq<string>, files: set<string>, failing: set<string>): (k: nat)
    ensures k <= |names|
    ensures forall j :: 0 <= j < k ==> !(names[j] in files && names[j] in failing)
    ensures k < |names| ==> names[k] in files && names[k] in failing
    decreases |names|
  {
    if names == [] then 0
    else if names[0] in files && names[0] in failing then 0
    else 1 + FirstFailure(names[1..], files, failing)
  }

  /**
   * With a permission backend the first failing script is fatal: the scripts
   * before it ran and were recorded, it ran but was not recorded, and no
   * later script runs. Without a failure the run is complete.
   */
  lemma {:induction false} BackendStopsAtFirstFailure(names: seq<string>, files: set<string>, failing: set<string>)
    ensures var k := FirstFailure(names, files, failing);
      var before := Existing(names[..k], files);
      Pipeline(names, files, failing, true) ==
        if k < |names| then LoopResult(before + [names[k]], before, true)
        else LoopResult(before, before, false)
    decreases |names|
  {
    if names != [] {
      var k := FirstFailure(names, files, failing);
      if !(names[0] in files && names[0] in failing) {
        BackendStopsAtFirstFailure(names[1..], files, failing);
        assert names[..k][0] == names[0] && names[..k][1..] == names[1..][..k - 1];
        if k < |names| {
          assert names[k] == names[1..][k - 1];
        }
      }
    }
  }

  /** A script error is fatal only when a backend is present and some existing script fails. */
  lemma FatalIffBackendAndFailure(names: seq<string>, files: set<string>, failing: set<string>, perm: bool)
    ensures Pipeline(names, files, failing, perm).fatal <==>
      perm && SomeScriptFails(names, files, failing)
  {
    if perm {
      BackendStopsAtFirstFailure(names, files, failing);
      var k := FirstFailure(names, files, failing);
      if k < |names| {
        assert names[k] in files && names[k] in failing;
      }
    } else {
      NoBackendRunsEveryExisting(names, files, failing);
    }
  }

  /** A failing middle script with no backend: [A, B, C] with B failing records all three. */
  lemma NoBackendRecordsFailedScript()
    ensures Pipeline(["A", "B", "C"], {"A", "B", "C"}, {"B"}, false).ran == ["A", "B", "C"]
    ensures Pipeline(["A", "B", "C"], {"A", "B", "C"}, {"B"}, true) == LoopResult(["A", "B"], ["A"], true)
  {
  }
}
