/** Runs from the fresh orchestrator: every reachable state satisfies the invariant. */
module Runs {
  import opened Options
  import opened Jobs
  import opened Registry
  import opened Protocol
  import opened Invariant

  /** `es` is a possible run of a new orchestrator. */
  predicate Run(cfg: Config, es: seq<Event>) { cfg.Valid() && CanRun(cfg, Init(cfg), es) }

  function Reached(cfg: Config, es: seq<Event>): State { After(cfg, Init(cfg), es) }

  function Front(es: seq<Event>): seq<Event>
    requires es != []
  {
    es[..|es| - 1]
  }

  function Last(es: seq<Event>): Event
    requires es != []
  {
    es[|es| - 1]
  }

  lemma LastStep(cfg: Config, es: seq<Event>)
    requires es != [] && Run(cfg, es)
    ensures Run(cfg, Front(es)) && Enabled(cfg, Reached(cfg, Front(es)), Last(es))
    ensures Reached(cfg, es) == Step(cfg, Reached(cfg, Front(es)), Last(es))
  {
    assert es == Front(es) + [Last(es)];
    RunSplits(cfg, Init(cfg), Front(es), [Last(es)]);
    var s := Reached(cfg, Front(es));
    assert CanRun(cfg, s, [Last(es)]) && [Last(es)][1..] == [];
    assert After(cfg, s, [Last(es)]) == After(cfg, Step(cfg, s, Last(es)), []);
  }

  lemma InitOk(cfg: Config)
    requires cfg.Valid()
    ensures Inv(cfg, Init(cfg))
  {
    assert Busy(Init(cfg).pc) == {};
    assert ActiveKeys(Init(cfg).sh.jobs) == {};
  }

  /** The invariant holds after any events that can follow a state where it holds. */
  lemma {:induction false} AfterKeeps(cfg: Config, s: State, es: seq<Event>)
    requires Inv(cfg, s) && CanRun(cfg, s, es)
    ensures Inv(cfg, After(cfg, s, es))
    decreases |es|
  {
    hide Inv;
    if es != [] {
      StepKeeps(cfg, s, es[0]);
      AfterKeeps(cfg, Step(cfg, s, es[0]), es[1..]);
    }
  }

  lemma Reachable(cfg: Config, es: seq<Event>)
    requires Run(cfg, es)
    ensures Inv(cfg, Reached(cfg, es))
  {
    InitOk(cfg);
    hide Inv;
    AfterKeeps(cfg, Init(cfg), es);
  }
}
