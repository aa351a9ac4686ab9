/** Running the control protocol for a few steps: how runs join, and the boot that every example run
    starts with. */
module ControlRuns {
  import opened Wrappers
  import opened Settings
  import opened Errors
  import opened AutoJournals
  import opened SharedState
  import opened ControlSystem
  import opened ControlResults

  lemma ThreeSteps(s: Sys, a: Label, b: Label, c: Label)
    ensures Run(s, [a, b, c]) == Next(Next(Next(s, a), b), c)
  {
    RunOne(s, [a, b], c);
    RunOne(s, [a], b);
    RunOne(s, [], a);
    assert [a, b] + [c] == [a, b, c] && [a] + [b] == [a, b] && [] + [a] == [a];
  }

  lemma LastApart<T>(xs: seq<T>, ys: seq<T>)
    requires ys != []
    ensures var init, l := ys[..|ys| - 1], ys[|ys| - 1];
            ys == init + [l] && xs + ys == (xs + init) + [l]
  {
  }

  lemma {:induction false} RunThen(s: Sys, xs: seq<Label>, ys: seq<Label>)
    ensures Run(s, xs + ys) == Run(Run(s, xs), ys)
  {
    if ys == [] {
      assert xs + ys == xs;
    } else {
      var init, l := ys[..|ys| - 1], ys[|ys| - 1];
      RunThen(s, xs, init);
      LastApart(xs, ys);
      RunOne(s, xs + init, l);
      RunOne(Run(s, xs), init, l);
    }
  }

  const BOOT := [LoadProfile(true), RecoverDecision(true, Usable, true, true, Committed), FinishSetup]

  /** The state after the profile has been handed over. */
  function Booted(c: Config): Sys {
    var b := Init(Some(c), false, 1, 0);
    b.(setup := Done, shared := b.shared.Configure(c, 1, Unknown, 0).0)
  }

  lemma BootGoes(c: Config)
    requires c.Valid()
    ensures Run(Init(Some(c), false, 1, 0), BOOT) == Booted(c)
  {
    var b := Init(Some(c), false, 1, 0);
    ThreeSteps(b, BOOT[0], BOOT[1], BOOT[2]);
    RecoverGoes(b.(setup := LoadedProfile(c)), c);
  }

  lemma RecoverGoes(s: Sys, c: Config)
    requires s.setup == LoadedProfile(c) && c.Valid() && s.disk.auto == Missing && s.writer.Free?
    ensures Next(s, BOOT[1]) == s.(setup := Recovered(c, Unknown, 0))
  {
  }
}
