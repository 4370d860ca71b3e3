/** How `ClosingInfo` escalates the termination of a process that outlives its
    connection: a soft kill first, a hard kill 6 s later, and a last hard kill
    8 s after that when the entry is dropped with the process still running. */
module Escalation {
  /** `ClosingInfo::enumState`. */
  datatype Stage = Initial | SoftKill | HardKill

  /** The two ways `Core::Process::Kill(hardKill)` is asked to end a process. */
  datatype Signal = Soft | Hard

  /** What one timer check of `ClosingInfo::Timed` does. */
  datatype Outcome =
    | Closed                                          // process gone: reference released, 0 returned
    | Escalated(stage: Stage, signal: Signal, due: nat)  // signal sent, next check at `due`
    | Stubborn                                        // alive after the hard kill: the ASSERT(false) branch, 0 returned

  /** The position of a stage in the escalation order. */
  function Rank(stage: Stage): nat {
    match stage
    case Initial => 0
    case SoftKill => 1
    case HardKill => 2
  }

  /** Milliseconds to wait after a soft kill before checking again. */
  const SoftKillGrace: nat := 6000

  /** Milliseconds to wait after a hard kill before checking again. */
  const HardKillGrace: nat := 8000

  /** One timer check at `scheduled` of a ClosingInfo in `stage`, for a process
      that is or is not still alive. */
  function Step(stage: Stage, alive: bool, scheduled: nat): Outcome {
    if !alive then Closed
    else match stage
      case Initial => Escalated(SoftKill, Soft, scheduled + SoftKillGrace)
      case SoftKill => Escalated(HardKill, Hard, scheduled + HardKillGrace)
      case HardKill => Stubborn
  }

  /** The value `Timed` hands back to the timer: the next due time, or 0 to drop the entry. */
  function NextDue(o: Outcome): nat {
    if o.Escalated? then o.due else 0
  }

  /** The stage a ClosingInfo is in after the check. */
  function After(stage: Stage, o: Outcome): Stage {
    if o.Escalated? then o.stage else stage
  }

  /** The escalation moves one stage forward per signal, never back, and a
      signal is sent exactly when the process is alive and a stage is left. */
  lemma StepAdvances(stage: Stage, alive: bool, scheduled: nat)
    ensures var o := Step(stage, alive, scheduled);
      && Rank(After(stage, o)) >= Rank(stage)
      && (o.Escalated? <==> alive && stage != HardKill)
      && (o.Escalated? ==> Rank(o.stage) == Rank(stage) + 1 && o.due > scheduled)
      && (o.Escalated? ==> (o.signal == Hard <==> o.stage == HardKill))
      && (o == Closed <==> !alive)
  {
  }

  /** The timer drops the entry (0 is returned) exactly when the process is
      gone or is past its hard kill. */
  lemma DroppedWhenDone(stage: Stage, alive: bool, scheduled: nat)
    ensures NextDue(Step(stage, alive, scheduled)) == 0 <==> !alive || stage == HardKill
  {
  }

  /** The signals one check sends: the escalation signal, or, for a process
      still alive past its hard kill, the hard kill that `~ClosingInfo` sends
      when the timer drops the entry. */
  function Signals(o: Outcome): seq<Signal> {
    match o
    case Closed => []
    case Escalated(_, signal, _) => [signal]
    case Stubborn => [Hard]
  }

  /** The signals sent, with the time each is sent at, when the checks find
      the process alive as `lives` says, the first check being due at `t`.
      A check that returns 0 ends the run: the timer drops the entry. */
  function Run(stage: Stage, lives: seq<bool>, t: nat): seq<(nat, Signal)>
    decreases |lives|
  {
    if lives == [] then []
    else match Step(stage, lives[0], t)
      case Escalated(next, signal, due) => [(t, signal)] + Run(next, lives[1..], due)
      case Stubborn => [(t, Hard)]
      case Closed => []
  }

  /** The signals of a run, without their times. */
  function Kinds(run: seq<(nat, Signal)>): seq<Signal>
    decreases |run|
  {
    if run == [] then [] else [run[0].1] + Kinds(run[1..])
  }

  /** A run is its first check's signals followed, when that check rescheduled
      the entry, by the run from the next stage at the new due time. */
  lemma RunStep(stage: Stage, lives: seq<bool>, t: nat)
    requires lives != []
    ensures var o := Step(stage, lives[0], t);
      Kinds(Run(stage, lives, t)) ==
        Signals(o) + if o.Escalated? then Kinds(Run(o.stage, lives[1..], o.due)) else []
  {
    var o := Step(stage, lives[0], t);
    if o.Escalated? {
      var rest := Run(o.stage, lives[1..], o.due);
      assert ([(t, o.signal)] + rest)[1..] == rest;
    }
  }

  /** Whatever the process does, a fresh ClosingInfo sends at most a soft kill
      at the first check, a hard kill 6 s later, and, when the process outlives
      that too, a last hard kill 8 s after it as the entry is dropped. */
  lemma {:induction false} RunFromInitial(lives: seq<bool>, t: nat)
    ensures Run(Initial, lives, t) <=
      [(t, Soft), (t + SoftKillGrace, Hard), (t + SoftKillGrace + HardKillGrace, Hard)]
  {
    if lives != [] && lives[0] {
      RunFromSoftKill(lives[1..], t + SoftKillGrace);
    }
  }

  /** From SOFTKILL at most the hard kill and the final one on dropping are left. */
  lemma {:induction false} RunFromSoftKill(lives: seq<bool>, t: nat)
    ensures Run(SoftKill, lives, t) <= [(t, Hard), (t + HardKillGrace, Hard)]
  {
    if lives != [] && lives[0] {
      RunFromHardKill(lives[1..], t + HardKillGrace);
    }
  }

  /** Past the hard kill the check that still finds the process alive ends
      the escalation with one last hard kill; nothing follows it. */
  lemma RunFromHardKill(lives: seq<bool>, t: nat)
    ensures Run(HardKill, lives, t) == if lives != [] && lives[0] then [(t, Hard)] else []
  {
  }

  /** A process that ignores every signal gets all three, in order: the soft
      kill, a hard kill 6 s later and a last hard kill 8 s after that. */
  lemma {:induction false} StubbornRun(lives: seq<bool>, t: nat)
    requires |lives| >= 3 && lives[0] && lives[1] && lives[2]
    ensures Run(Initial, lives, t) ==
      [(t, Soft), (t + SoftKillGrace, Hard), (t + SoftKillGrace + HardKillGrace, Hard)]
  {
    RunFromHardKill(lives[2..], t + SoftKillGrace + HardKillGrace);
    assert lives[1..][1..] == lives[2..];
  }

  /** A process that is gone at the first check is never signalled. */
  lemma GoneRun(lives: seq<bool>, t: nat)
    requires lives != [] && !lives[0]
    ensures Run(Initial, lives, t) == []
  {
  }
}
