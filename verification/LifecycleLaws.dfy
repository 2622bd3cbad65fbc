/** What every interleaving of a worker's sections keeps, and where a drained worker ends up. */
module LifecycleLaws {
  import opened Collections
  import opened Domain
  import opened Lifecycle
  import opened PrismRuns

  // ---------- state changes ----------

  /** The state changes open to a worker, beside the wake-up the planner asks for. */
  predicate Allowed(s: Data, d: Data) {
    && (d.state.Offloading? && !s.state.Offloading? ==> s.state in {Ready, Draining} && d.admitted == {})
    && (d.state.Sleeping? && !s.state.Sleeping? ==> s.state.Offloading?)
    && (d.state.Waking? && !s.state.Waking? ==> s.state.Sleeping?)
    && (d.state.Ready? && !s.state.Ready? ==> s.state.Loading? || s.state.Waking?)
    && (d.state.Loading? ==> s.state.Loading?)
    && (s.state.Cold? ==> d == s)
  }

  lemma BeginIsAllowed(l: Life)
    requires LifeInv(l) && l.phase.Entered?
    ensures Allowed(l.data, Apply(l, Begin).data)
  {
  }

  lemma EndIsAllowed(l: Life, ok: bool)
    requires LifeInv(l) && l.phase.Working?
    ensures Allowed(l.data, Apply(l, End(ok)).data)
  {
  }

  /** Every way a section can change a worker's state, for a worker with a proper history. */
  lemma StateChanges(l: Life, step: Section)
    requires LifeInv(l) && Enabled(l, step)
    ensures Allowed(l.data, Apply(l, step).data)
  {
    if step.Begin? {
      BeginIsAllowed(l);
    } else if step.End? {
      EndIsAllowed(l, step.ok);
    } else if step.Release? && l.data.state.Cold? {
      assert l.data.admitted - {step.request} == {};
    }
  }

  /** The worker as the planner's host model sees it. */
  function SlotOf(w: Worker, l: Life): Slot {
    Slot(w.(state := l.data.state, admitted := l.data.admitted), l.offGpu)
  }

  predicate WakeBegins(l: Life, step: Section) {
    step.Begin? && l.phase == Entered(WakeUp) && l.data.state.Sleeping?
  }

  /** The lifecycle refines the host model: all a worker does by itself are moves that model allows. */
  lemma StepIsAHostMove(w: Worker, l: Life, step: Section)
    requires LifeInv(l) && Enabled(l, step)
    ensures WakeBegins(l, step) ==>
              SlotOf(w, Apply(l, step)) == Slot(SlotOf(w, l).worker.(state := Waking), false)
    ensures !WakeBegins(l, step) ==> Moves(SlotOf(w, l), SlotOf(w, Apply(l, step)))
  {
    StateChanges(l, step);
    StepKeepsLifeInv(l, step);
  }

  /** From launch on, whatever sections interleave. */
  lemma {:induction false} LifecycleSafety(steps: seq<Section>)
    requires LifeAfter(Launched, steps).Some?
    ensures var l := LifeAfter(Launched, steps).value;
            && (l.data.admitted != {} ==> l.data.state in {Ready, Draining, Stopping})
            && (l.data.state.Cold? ==> l.data.admitted == {} && l.data.work == 0)
            && (l.data.state in {Offloading, Waking, Stopping} ==> l.phase.Working?)
            && (l.data.state.Sleeping? ==> l.offGpu)
            && (l.data.state.Draining? && l.data.admitted == {} ==> StopAround(l) || Around(l, Offload))
  {
    RunKeepsLifeInv(Launched, steps);
  }

  // ---------- failure is final ----------

  /** Cold, empty and unmarked, as a worker is once its process is gone. */
  predicate Gone(d: Data) {
    d.state.Cold? && d.admitted == {} && d.work == 0 && !d.toSleep
  }

  /** No request gets in, and no task goes on to call the engine. */
  ghost predicate TurnedOff(l: Life) {
    && Gone(l.data)
    && (forall r, tokens :: !Enabled(l, Admit(r, tokens)))
    && (forall task :: !AfterBegins(l.data, task).1)
  }

  /** Whatever it was doing, a worker that fails is gone at once. */
  lemma FailureIsGone(l: Life)
    requires LifeInv(l)
    ensures Gone(Apply(l, Fail).data)
  {
  }

  /** A failed engine call ends the same way, and a stop ends so even without its engine's help. */
  lemma FailedCallIsGone(l: Life, ok: bool)
    requires LifeInv(l) && l.phase.Working? && (ok ==> l.phase.task.Stop?)
    ensures Gone(Apply(l, End(ok)).data)
  {
  }

  lemma GoneStaysGone(l: Life, step: Section)
    requires LifeInv(l) && Gone(l.data) && Enabled(l, step)
    ensures Gone(Apply(l, step).data)
  {
    StateChanges(l, step);
  }

  lemma {:induction false} GoneForGood(l: Life, steps: seq<Section>)
    requires LifeInv(l) && Gone(l.data) && LifeAfter(l, steps).Some?
    ensures TurnedOff(LifeAfter(l, steps).value)
    decreases |steps|
  {
    if steps != [] {
      GoneStaysGone(l, steps[0]);
      StepKeepsLifeInv(l, steps[0]);
      GoneForGood(Apply(l, steps[0]), steps[1..]);
    }
  }

  /** From its failure on, over every interleaving, the worker serves nothing and starts nothing. */
  lemma {:induction false} FailedForGood(l: Life, steps: seq<Section>)
    requires LifeInv(l) && LifeAfter(Apply(l, Fail), steps).Some?
    ensures TurnedOff(LifeAfter(Apply(l, Fail), steps).value)
  {
    FailureIsGone(l);
    StepKeepsLifeInv(l, Fail);
    GoneForGood(Apply(l, Fail), steps);
  }

  /** The same from a failed offload or wake call, and from every stop, on. */
  lemma {:induction false} FailedCallForGood(l: Life, ok: bool, steps: seq<Section>)
    requires LifeInv(l) && l.phase.Working? && (ok ==> l.phase.task.Stop?)
    requires LifeAfter(Apply(l, End(ok)), steps).Some?
    ensures TurnedOff(LifeAfter(Apply(l, End(ok)), steps).value)
  {
    FailedCallIsGone(l, ok);
    StepKeepsLifeInv(l, End(ok));
    GoneForGood(Apply(l, End(ok)), steps);
  }

  // ---------- success moves the worker on ----------

  /** A launched engine that answers turns ready, one put to sleep sleeps off its GPUs, one woken serves again. */
  lemma SuccessMovesOn(l: Life)
    requires LifeInv(l)
    ensures l.data.state.Loading? ==> Apply(l, BecomeReady).data.state.Ready?
    ensures l.data.state.Offloading? ==>
              var after := Apply(l, End(true)); after.data.state.Sleeping? && after.offGpu && after.phase.Free?
    ensures l.data.state.Waking? ==> var after := Apply(l, End(true)); after.data.state.Ready? && after.phase.Free?
    ensures l.data.state.Stopping? ==> Gone(Apply(l, End(true)).data)
  {
  }

  /** Only a ready worker takes a request, and takes it with its tokens; one on its way out takes none. */
  lemma AdmitsExactlyWhenReady(l: Life, r: RequestId, tokens: nat)
    requires LifeInv(l)
    ensures AfterAdmit(l.data, r, tokens).Ok? <==> Enabled(l, Admit(r, tokens))
    ensures AfterAdmit(l.data, r, tokens).Ok? ==>
              var d := AfterAdmit(l.data, r, tokens).value;
              l.data.state.Ready? && d.state.Ready? && r in d.admitted && d.work == l.data.work + tokens
    ensures l.data.state in {Loading, Draining, Offloading, Sleeping, Waking, Stopping, Cold} ==>
              AfterAdmit(l.data, r, tokens).Err?
  {
  }

  /** Put to sleep while it serves, a worker takes no more requests and offloads with its last one. */
  lemma SleepEndsWithOffload(l: Life, r: RequestId, tokens: nat)
    requires LifeInv(l) && l.data.state in {Ready, Draining} && l.data.admitted == {r}
    ensures var slept := Apply(l, Section.Sleep);
            && slept.data.state.Draining? && slept.data.admitted == {r}
            && Line(Apply(slept, Release(r, tokens))) == Line(l) + [Offload]
  {
    var slept := Apply(l, Section.Sleep);
    LineAfter(l, Section.Sleep);
    LineAfter(slept, Release(r, tokens));
    assert Line(l) + [] == Line(l) && {r} - {r} == {};
  }

  /** Put to sleep while idle, a worker asks for its offload at once, and stays marked for it until then. */
  lemma IdleSleepOffloads(l: Life)
    requires LifeInv(l) && l.data.state in {Ready, Draining} && l.data.admitted == {}
    ensures Line(Apply(l, Section.Sleep)) == Line(l) + [Offload] && Apply(l, Section.Sleep).data.toSleep
  {
    LineAfter(l, Section.Sleep);
  }

  // ---------- a request is served until it is released ----------

  /** Neither a release of this request nor a failure, nor a stop that somebody forces. */
  predicate Spares(step: Section, r: RequestId) {
    match step
    case Release(other, _) => other != r
    case Fail => false
    case Ask(task) => task != Stop(true)
    case _ => true
  }

  /** No stop is under way and none can be forced. */
  predicate Unforced(l: Life) {
    && l.data.state !in {Stopping, Cold} && !Around(l, Stop(true))
    && !(l.phase.Working? && l.phase.task.Stop?)
  }

  lemma StaysServed(l: Life, step: Section, r: RequestId)
    requires LifeInv(l) && Unforced(l) && r in l.data.admitted && Enabled(l, step) && Spares(step, r)
    ensures Unforced(Apply(l, step)) && r in Apply(l, step).data.admitted
  {
    LineAfter(l, step);
  }

  /**
   * A worker put to sleep, drained, or told politely to stop still finishes what it serves: an admitted
   * request stays admitted until it is released, whatever else goes on, and the engine is never called
   * meanwhile. Only a failure or a forced stop takes it away.
   */
  lemma {:induction false} ServedUntilReleased(l: Life, steps: seq<Section>, r: RequestId)
    requires LifeInv(l) && Unforced(l) && r in l.data.admitted && LifeAfter(l, steps).Some?
    requires forall step :: step in steps ==> Spares(step, r)
    ensures var after := LifeAfter(l, steps).value;
            r in after.data.admitted && after.data.state in {Ready, RuntimeState.Draining} && !after.phase.Working?
    decreases |steps|
  {
    if steps != [] {
      assert steps[0] in steps && forall step :: step in steps[1..] ==> step in steps;
      StaysServed(l, steps[0], r);
      StepKeepsLifeInv(l, steps[0]);
      ServedUntilReleased(Apply(l, steps[0]), steps[1..], r);
    }
  }

  // ---------- where a drained worker ends up ----------

  /** Nothing runs, nothing waits and nothing is admitted. */
  predicate Quiet(l: Life) {
    l.phase.Free? && l.queue == [] && l.owed == 0 && l.data.admitted == {}
  }

  predicate IsUnprompted(step: Section) {
    step != Section.Sleep && step != Ask(WakeUp)
  }

  /** Steps during which the planner neither sleeps nor wakes the worker; a ready one may still admit. */
  ghost predicate Unprompted(steps: seq<Section>) {
    forall step :: step in steps ==> IsUnprompted(step)
  }

  /** However its sections interleave from here, the worker is cold once it is quiet. */
  ghost predicate SettlesCold(l: Life) {
    forall steps :: Unprompted(steps) && LifeAfter(l, steps).Some? && Quiet(LifeAfter(l, steps).value) ==>
      LifeAfter(l, steps).value.data.state.Cold?
  }

  /** A wake stands in line ahead of every stop. */
  predicate WakeAhead(line: seq<Task>) {
    line != [] && !line[0].Stop? && (line[0].WakeUp? || WakeAhead(line[1..]))
  }

  /** An offload and, behind it, a wake stand in line ahead of every stop. */
  predicate OffloadThenWake(line: seq<Task>) {
    line != [] && !line[0].Stop? && (if line[0].Offload? then WakeAhead(line[1..]) else OffloadThenWake(line[1..]))
  }

  lemma {:induction false} OffloadThenWakeHasWake(line: seq<Task>)
    requires OffloadThenWake(line)
    ensures WakeAhead(line)
  {
    if line[0].WakeUp? {
      OffloadThenWakeHasWake(line[1..]);
    }
  }

  /** Whoever joins the line behind the others brings no wake forward, unless it is one. */
  lemma {:induction false} JoiningBringsNoWake(line: seq<Task>, task: Task)
    requires !task.WakeUp?
    ensures WakeAhead(line + [task]) <==> WakeAhead(line)
    ensures OffloadThenWake(line + [task]) <==> OffloadThenWake(line)
  {
    if line == [] {
      assert !WakeAhead([task][1..]);
    } else {
      assert (line + [task])[1..] == line[1..] + [task];
      JoiningBringsNoWake(line[1..], task);
    }
  }

  lemma AppendedBringsNoWake(l: Life, step: Section)
    requires Enabled(l, step) && step != Ask(WakeUp) && !step.Begin?
    ensures var line := Line(Apply(l, step));
            && (WakeAhead(line) <==> WakeAhead(Line(l)))
            && (OffloadThenWake(line) <==> OffloadThenWake(Line(l)))
  {
    LineAfter(l, step);
    if Appended(l, step) == [] {
      assert Line(l) + [] == Line(l);
    } else {
      JoiningBringsNoWake(Line(l), Appended(l, step)[0]);
    }
  }

  /** A stop is certain to run while nothing is admitted, and no wake gets in before it. */
  predicate IdleStopBound(l: Life) {
    && l.data.admitted == {} && StopAround(l)
    && match l.data.state
       case Draining => !OffloadThenWake(Line(l))
       case Offloading => !WakeAhead(Line(l))
       case Sleeping => !WakeAhead(Line(l))
       case _ => false
  }

  /** Requests are still admitted, but nothing sends the worker to host memory when they are gone. */
  predicate BusyStopBound(l: Life) {
    l.data.state.Draining? && l.data.admitted != {} && !l.data.toSleep && !Around(l, Offload)
  }

  predicate StopBound(l: Life) {
    l.data.state in {Stopping, Cold} || Around(l, Stop(true)) || IdleStopBound(l) || BusyStopBound(l)
  }

  lemma BeginKeepsStopBound(l: Life)
    requires LifeInv(l) && l.phase.Entered? && StopBound(l)
    ensures StopBound(Apply(l, Begin))
  {
    LineAfter(l, Begin);
    if IdleStopBound(l) && l.phase.task.WakeUp? {
      assert !WakeAhead(Line(l)) || l.data.state.Draining?;
    }
  }

  lemma {:induction false} NoOffloadNoDetour(line: seq<Task>)
    requires Offload !in line
    ensures !OffloadThenWake(line)
  {
    if line != [] {
      NoOffloadNoDetour(line[1..]);
    }
  }

  lemma IdleKeepsStopBound(l: Life, step: Section)
    requires LifeInv(l) && Enabled(l, step) && IdleStopBound(l) && IsUnprompted(step) && !step.Begin?
    ensures StopBound(Apply(l, step))
  {
    LineAfter(l, step);
    AppendedBringsNoWake(l, step);
    if OffloadThenWake(Line(l)) {
      OffloadThenWakeHasWake(Line(l));
    }
  }

  lemma BusyKeepsStopBound(l: Life, step: Section)
    requires LifeInv(l) && Enabled(l, step) && BusyStopBound(l) && IsUnprompted(step) && !step.Begin?
    ensures StopBound(Apply(l, step))
  {
    LineAfter(l, step);
    AppendedBringsNoWake(l, step);
    NoOffloadNoDetour(Line(l));
  }

  lemma OthersKeepStopBound(l: Life, step: Section)
    requires LifeInv(l) && Enabled(l, step) && StopBound(l) && IsUnprompted(step) && !step.Begin?
    ensures StopBound(Apply(l, step))
  {
    if IdleStopBound(l) {
      IdleKeepsStopBound(l, step);
    } else if BusyStopBound(l) {
      BusyKeepsStopBound(l, step);
    } else {
      LineAfter(l, step);
    }
  }

  lemma {:induction false} StopBoundSettlesCold(l: Life, steps: seq<Section>)
    requires LifeInv(l) && StopBound(l)
    requires Unprompted(steps) && LifeAfter(l, steps).Some? && Quiet(LifeAfter(l, steps).value)
    ensures LifeAfter(l, steps).value.data.state.Cold?
    decreases |steps|
  {
    if steps != [] {
      assert steps[0] in steps && forall step :: step in steps[1..] ==> step in steps;
      if steps[0].Begin? {
        BeginKeepsStopBound(l);
      } else {
        OthersKeepStopBound(l, steps[0]);
      }
      StepKeepsLifeInv(l, steps[0]);
      StopBoundSettlesCold(Apply(l, steps[0]), steps[1..]);
    }
  }

  // ---------- runs that escape a drain ----------

  ghost predicate Escapes(l: Life, steps: seq<Section>) {
    && Unprompted(steps) && LifeAfter(l, steps).Some?
    && Quiet(LifeAfter(l, steps).value) && !LifeAfter(l, steps).value.data.state.Cold?
  }

  lemma StepFirst(l: Life, step: Section, rest: seq<Section>)
    requires Enabled(l, step) && IsUnprompted(step) && Escapes(Apply(l, step), rest)
    ensures Escapes(l, [step] + rest)
  {
    LifeAfterOne(l, step, rest);
  }

  /** Nothing is admitted and no stop is around. */
  predicate Unstopped(l: Life) {
    l.data.admitted == {} && !StopAround(l)
  }

  /** Polite stops find the worker busy, and it is ready or bound for host memory. */
  predicate BusyAway(l: Life) {
    && l.data.admitted != {} && !l.phase.Working?
    && (l.data.state.Ready? || (l.data.state.Draining? && (l.data.toSleep || Around(l, Offload))))
  }

  /** Nothing is admitted, and a wake will have the worker ready before any stop runs. */
  predicate WakesFirst(l: Life) {
    && l.data.admitted == {}
    && match l.data.state
       case Draining => OffloadThenWake(Line(l))
       case Offloading => WakeAhead(Line(l)) && l.phase == Working(Offload)
       case Sleeping => WakeAhead(Line(l)) && !l.phase.Working?
       case Waking => l.phase == Working(WakeUp)
       case _ => false
  }

  /** How much is left to do for the transition lock. */
  function Backlog(l: Life): nat {
    4 * l.owed + 3 * |l.queue| + (match l.phase case Free => 0 case Entered(_) => 2 case Working(_) => 1)
  }

  predicate LockIdle(l: Life) {
    l.phase.Free? && l.queue == [] && l.owed == 0
  }

  /** The lock's next section, its engine call successful; owed stops join the line last. */
  function NextLockStep(l: Life): (step: Section)
    requires !LockIdle(l)
    ensures Enabled(l, step) && IsUnprompted(step) && Backlog(Apply(l, step)) < Backlog(l)
  {
    if l.phase.Entered? then Begin
    else if l.phase.Working? then End(true)
    else if l.queue != [] then TakeLock
    else AskOwed
  }

  lemma UnstoppedStep(l: Life)
    requires Unforced(l) && Unstopped(l) && !LockIdle(l)
    ensures Unforced(Apply(l, NextLockStep(l))) && Unstopped(Apply(l, NextLockStep(l)))
  {
    LineAfter(l, NextLockStep(l));
  }

  lemma {:induction false} UnstoppedEscapes(l: Life) returns (steps: seq<Section>)
    requires Unforced(l) && Unstopped(l)
    ensures Escapes(l, steps)
    decreases Backlog(l)
  {
    if LockIdle(l) {
      return [];
    }
    UnstoppedStep(l);
    var rest := UnstoppedEscapes(Apply(l, NextLockStep(l)));
    StepFirst(l, NextLockStep(l), rest);
    steps := [NextLockStep(l)] + rest;
  }

  lemma BusyStep(l: Life)
    requires Unforced(l) && BusyAway(l) && !LockIdle(l)
    ensures var after := Apply(l, NextLockStep(l));
            Unforced(after) && BusyAway(after) && after.data.admitted == l.data.admitted
  {
    LineAfter(l, NextLockStep(l));
  }

  /** The last request leaves a ready worker ready, and sends one bound for host memory there. */
  lemma BusyRelease(l: Life, r: RequestId)
    requires Unforced(l) && BusyAway(l) && LockIdle(l) && r in l.data.admitted
    ensures var after := Apply(l, Release(r, 0));
            && Unforced(after) && |after.data.admitted| < |l.data.admitted|
            && (if after.data.admitted == {} then Unstopped(after) else BusyAway(after))
  {
    LineAfter(l, Release(r, 0));
  }

  lemma {:induction false} BusyEscapes(l: Life) returns (steps: seq<Section>)
    requires Unforced(l) && BusyAway(l)
    ensures Escapes(l, steps)
    decreases |l.data.admitted|, Backlog(l)
  {
    var step, rest;
    if !LockIdle(l) {
      step := NextLockStep(l);
      BusyStep(l);
      rest := BusyEscapes(Apply(l, step));
    } else {
      var r :| r in l.data.admitted;
      step := Release(r, 0);
      BusyRelease(l, r);
      if Apply(l, step).data.admitted == {} {
        rest := UnstoppedEscapes(Apply(l, step));
      } else {
        rest := BusyEscapes(Apply(l, step));
      }
    }
    StepFirst(l, step, rest);
    steps := [step] + rest;
  }

  predicate ReadyAgain(l: Life) {
    Unforced(l) && l.data.state.Ready? && l.phase.Free?
  }

  lemma WakesFirstStep(l: Life)
    requires Unforced(l) && WakesFirst(l)
    ensures !LockIdle(l)
    ensures var after := Apply(l, NextLockStep(l)); ReadyAgain(after) || (Unforced(after) && WakesFirst(after))
  {
    LineAfter(l, NextLockStep(l));
    assert Line(l) + [] == Line(l);
  }

  /** Awake again, the worker admits a request before the polite stops behind the wake run. */
  lemma ReadyAgainEscapes(l: Life) returns (steps: seq<Section>)
    requires ReadyAgain(l)
    ensures Escapes(l, steps)
  {
    var busy := Apply(l, Admit("", 0));
    LineAfter(l, Admit("", 0));
    assert "" in busy.data.admitted;
    var rest := BusyEscapes(busy);
    StepFirst(l, Admit("", 0), rest);
    steps := [Admit("", 0)] + rest;
  }

  lemma {:induction false} WakesFirstEscapes(l: Life) returns (steps: seq<Section>)
    requires Unforced(l) && WakesFirst(l)
    ensures Escapes(l, steps)
    decreases Backlog(l)
  {
    WakesFirstStep(l);
    var after := Apply(l, NextLockStep(l));
    var rest;
    if ReadyAgain(after) {
      rest := ReadyAgainEscapes(after);
    } else {
      rest := WakesFirstEscapes(after);
    }
    StepFirst(l, NextLockStep(l), rest);
    steps := [NextLockStep(l)] + rest;
  }

  // ---------- the exact condition ----------

  /** What `drain` can rely on, read off the worker and its transition lock before the call. */
  predicate DrainWillStop(l: Life) {
    || l.data.state in {Stopping, Cold}
    || Around(l, Stop(true))
    || (if l.data.admitted == {} then !OffloadThenWake(Line(l)) && (l.data.state.Draining? ==> StopAround(l))
        else !Around(l, Offload) && (l.data.state.Draining? ==> !l.data.toSleep))
  }

  lemma DrainBindsToStop(l: Life)
    requires LifeInv(l)
    ensures StopBound(Apply(l, Section.Drain)) <==> DrainWillStop(l)
  {
    LineAfter(l, Section.Drain);
    assert Line(l) + [] == Line(l);
  }

  /**
   * Draining a worker guarantees that it turns cold exactly when nothing sends it to host memory or
   * wakes it ahead of a stop. For a busy worker that is an earlier sleep request or an offload in
   * line; for an idle one an offload with a wake behind it, or an offload when no stop is around.
   */
  lemma DrainEndsColdExactlyWhen(l: Life)
    requires LifeInv(l)
    ensures SettlesCold(Apply(l, Section.Drain)) <==> DrainWillStop(l)
  {
    var drained := Apply(l, Section.Drain);
    StepKeepsLifeInv(l, Section.Drain);
    DrainBindsToStop(l);
    if DrainWillStop(l) {
      forall steps | Unprompted(steps) && LifeAfter(drained, steps).Some? && Quiet(LifeAfter(drained, steps).value)
        ensures LifeAfter(drained, steps).value.data.state.Cold?
      {
        StopBoundSettlesCold(drained, steps);
      }
    } else {
      var steps := UnboundEscapes(drained);
      assert Escapes(drained, steps);
    }
  }

  lemma UnboundEscapes(l: Life) returns (steps: seq<Section>)
    requires LifeInv(l) && l.data.state.Draining? && !StopBound(l)
    ensures Escapes(l, steps)
  {
    if l.data.admitted != {} {
      steps := BusyEscapes(l);
    } else if StopAround(l) {
      steps := WakesFirstEscapes(l);
    } else {
      steps := UnstoppedEscapes(l);
    }
  }

  // ---------- three histories ----------

  ghost predicate EndsIn(l: Life, steps: seq<Section>, state: RuntimeState) {
    && Unprompted(steps) && LifeAfter(l, steps).Some?
    && Quiet(LifeAfter(l, steps).value) && LifeAfter(l, steps).value.data.state == state
  }

  lemma StepThen(l: Life, step: Section, rest: seq<Section>, state: RuntimeState)
    requires Enabled(l, step) && IsUnprompted(step) && EndsIn(Apply(l, step), rest, state)
    ensures EndsIn(l, [step] + rest, state)
  {
    LifeAfterOne(l, step, rest);
  }

  /** With only an offload in line, a drained idle worker falls asleep for good. */
  lemma OffloadFallsAsleep(l: Life) returns (steps: seq<Section>)
    requires l.data.state.Draining? && l.data.admitted == {} && l.phase.Free? && l.queue == [Offload] && l.owed == 0
    ensures EndsIn(l, steps, Sleeping)
  {
    var entered := Apply(l, TakeLock);
    var begun := Apply(entered, Begin);
    StepThen(begun, End(true), [], Sleeping);
    StepThen(entered, Begin, [End(true)] + [], Sleeping);
    StepThen(l, TakeLock, [Begin] + ([End(true)] + []), Sleeping);
    steps := [TakeLock] + ([Begin] + ([End(true)] + []));
  }

  /** The last request of a worker marked for sleep sends it there. */
  lemma MarkedFallsAsleep(l: Life, r: RequestId, tokens: nat) returns (steps: seq<Section>)
    requires l.data.state.Draining? && l.data.admitted == {r} && l.data.toSleep
    requires l.phase.Free? && l.queue == [] && l.owed == 0
    ensures EndsIn(l, steps, Sleeping)
  {
    assert l.data.admitted - {r} == {};
    steps := OffloadFallsAsleep(Apply(l, Release(r, tokens)));
    StepThen(l, Release(r, tokens), steps, Sleeping);
    steps := [Release(r, tokens)] + steps;
  }

  /** A busy worker is put to sleep, then drained: the last request sends it to host memory. */
  lemma DrainedButAsleep(r: RequestId, tokens: nat) returns (steps: seq<Section>)
    ensures var busy := Apply(Apply(Apply(Launched, BecomeReady), Admit(r, tokens)), Section.Sleep);
            EndsIn(Apply(busy, Section.Drain), steps, Sleeping) && !SettlesCold(Apply(busy, Section.Drain))
  {
    var busy := Apply(Apply(Apply(Launched, BecomeReady), Admit(r, tokens)), Section.Sleep);
    assert r in busy.data.admitted;
    steps := MarkedFallsAsleep(Apply(busy, Section.Drain), r, tokens);
  }

  /** An idle worker is put to sleep and still admits a request: the offload overrules the drain. */
  lemma DrainedByOffload(r: RequestId, tokens: nat) returns (steps: seq<Section>)
    ensures var late := Apply(Apply(Apply(Launched, BecomeReady), Section.Sleep), Admit(r, tokens));
            EndsIn(Apply(late, Section.Drain), steps, Sleeping) && !SettlesCold(Apply(late, Section.Drain))
  {
    var late := Apply(Apply(Apply(Launched, BecomeReady), Section.Sleep), Admit(r, tokens));
    assert r in late.data.admitted;
    var drained := Apply(late, Section.Drain);
    var entered := Apply(drained, TakeLock);
    steps := MarkedFallsAsleep(Apply(entered, Begin), r, tokens);
    StepThen(entered, Begin, steps, Sleeping);
    StepThen(drained, TakeLock, [Begin] + steps, Sleeping);
    steps := [TakeLock] + ([Begin] + steps);
  }

  /** The sleeping worker that two sleep requests and a wake have left behind. */
  function TwiceSleptThenWoken(): Life {
    var ready := Apply(Launched, BecomeReady);
    var asked := Apply(Apply(ready, Section.Sleep), Section.Sleep);
    var begun := Apply(Apply(asked, TakeLock), Begin);
    Apply(Apply(begun, End(true)), Ask(WakeUp))
  }

  /** Drained in its sleep, a worker with an offload and a wake in line may still return to service. */
  lemma DrainedButReady()
    ensures var l := TwiceSleptThenWoken();
            && l.data.state.Sleeping? && LifeInv(l) && Line(l) == [Offload, WakeUp]
            && !SettlesCold(Apply(l, Section.Drain))
  {
    var l := TwiceSleptThenWoken();
    assert [Offload, Offload][1..] == [Offload] && [Offload, WakeUp][1..] == [WakeUp];
    DrainEndsColdExactlyWhen(l);
  }
}
