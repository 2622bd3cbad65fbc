/**
 * One worker's life, one atomic step per section under the supervisor's state lock. Tasks that
 * hold the worker's transition lock interleave freely with every other section.
 */
module Lifecycle {
  import opened Collections
  import opened Domain

  type RequestId = string

  /** What the supervisor keeps about one worker. */
  datatype Data = Data(state: RuntimeState, admitted: set<RequestId>, work: int, toSleep: bool)

  // ---------- the sections ----------

  /** The health check succeeded. */
  function AfterReady(d: Data): Data {
    if d.state.Loading? then d.(state := Ready) else d
  }

  function AfterFail(d: Data): Data {
    if d.state.Cold? then d else Data(Cold, {}, 0, false)
  }

  function AfterAdmit(d: Data, r: RequestId, tokens: nat): Result<Data, ()> {
    if !d.state.Ready? then Err(()) else Ok(d.(admitted := d.admitted + {r}, work := d.work + tokens))
  }

  function AfterRelease(d: Data, r: RequestId, tokens: nat): Data {
    d.(admitted := d.admitted - {r}, work := Max(0, d.work - tokens))
  }

  /** What a section leaves to do once the state lock is free again. */
  datatype Task = Offload | WakeUp | Stop(force: bool)

  /** A draining worker whose last request left goes to host memory or stops. */
  function ReleaseTask(d: Data): Option<Task> {
    if !d.state.Draining? || d.admitted != {} then None
    else Some(if d.toSleep then Offload else Stop(false))
  }

  predicate Sleepable(state: RuntimeState) {
    state.Ready? || state.Draining?
  }

  function AfterSleep(d: Data): Data {
    if !Sleepable(d.state) then d
    else if d.admitted == {} then d.(toSleep := true)
    else d.(toSleep := true, state := Draining)
  }

  function SleepTask(d: Data): Option<Task> {
    if Sleepable(d.state) && d.admitted == {} then Some(Offload) else None
  }

  function AfterDrain(d: Data): Data {
    if d.state in {Draining, Stopping, Cold} then d else d.(state := Draining, toSleep := false)
  }

  function DrainTask(d: Data): Option<Task> {
    if d.state in {Draining, Stopping, Cold} || d.admitted != {} then None else Some(Stop(false))
  }

  /** The first section under the transition lock; `true` when the engine is to be called. */
  function AfterOffloadBegins(d: Data): (Data, bool) {
    if d.state in {Cold, Sleeping, Stopping} then (d, false)
    else if d.admitted != {} then (d.(state := Draining, toSleep := true), false)
    else (d.(state := Offloading, toSleep := false), true)
  }

  function AfterOffloadDone(d: Data): Data {
    if d.state.Offloading? then d.(state := Sleeping) else d
  }

  function AfterWakeBegins(d: Data): (Data, bool) {
    if d.state.Sleeping? then (d.(state := Waking), true) else (d, false)
  }

  function AfterWakeDone(d: Data): Data {
    if d.state.Waking? then d.(state := Ready) else d
  }

  function AfterStopBegins(d: Data, force: bool): (Data, bool) {
    if d.state.Cold? || (d.admitted != {} && !force) then (d, false)
    else (d.(state := Stopping), true)
  }

  function AfterStopDone(d: Data): Data {
    Data(Cold, {}, 0, false)
  }

  function AfterBegins(d: Data, task: Task): (Data, bool) {
    match task
    case Offload => AfterOffloadBegins(d)
    case WakeUp => AfterWakeBegins(d)
    case Stop(force) => AfterStopBegins(d, force)
  }

  /** The last section: a failed engine call fails the worker, and stopping cannot fail. */
  function AfterEnds(d: Data, task: Task, ok: bool): Data {
    match task
    case Offload => if ok then AfterOffloadDone(d) else AfterFail(d)
    case WakeUp => if ok then AfterWakeDone(d) else AfterFail(d)
    case Stop(_) => AfterStopDone(d)
  }

  // ---------- the machine ----------

  /** Who holds the transition lock, and whether its first section has run. */
  datatype Phase = Free | Entered(task: Task) | Working(task: Task)

  /**
   * `offGpu` is where the weights really are. `queue` are the tasks that wait for the transition
   * lock, which serves them in order. A drain writes records before it asks for its stop: `owed`
   * counts the stops that have yet to join the queue; all other tasks join it within their section.
   */
  datatype Life = Life(data: Data, offGpu: bool, phase: Phase, queue: seq<Task>, owed: nat)

  const Launched := Life(Data(Loading, {}, 0, false), false, Free, [], 0)

  datatype Section =
    | BecomeReady
    | Fail
    | Admit(request: RequestId, tokens: nat)
    | Release(request: RequestId, tokens: nat)
    | Sleep
    | Drain
    | Ask(task: Task)
    | AskOwed
    | TakeLock
    | Begin
    | End(ok: bool)

  predicate Enabled(l: Life, step: Section) {
    match step
    case Admit(_, _) => l.data.state.Ready?
    case Ask(task) => !task.Offload?
    case AskOwed => l.owed > 0
    case TakeLock => l.phase.Free? && l.queue != []
    case Begin => l.phase.Entered?
    case End(_) => l.phase.Working?
    case _ => true
  }

  function Spawned(task: Option<Task>): seq<Task> {
    if task.Some? then [task.value] else []
  }

  function Apply(l: Life, step: Section): Life
    requires Enabled(l, step)
  {
    match step
    case BecomeReady => l.(data := AfterReady(l.data))
    case Fail => l.(data := AfterFail(l.data))
    case Admit(r, tokens) => l.(data := AfterAdmit(l.data, r, tokens).value)
    case Release(r, tokens) =>
      var d := AfterRelease(l.data, r, tokens);
      l.(data := d, queue := l.queue + Spawned(ReleaseTask(d)))
    case Sleep => l.(data := AfterSleep(l.data), queue := l.queue + Spawned(SleepTask(l.data)))
    case Drain => l.(data := AfterDrain(l.data), owed := l.owed + |Spawned(DrainTask(l.data))|)
    case Ask(task) => l.(queue := l.queue + [task])
    case AskOwed => l.(queue := l.queue + [Stop(false)], owed := l.owed - 1)
    case TakeLock => l.(phase := Entered(l.queue[0]), queue := l.queue[1..])
    case Begin =>
      var (d, goesOn) := AfterBegins(l.data, l.phase.task);
      Life(d, l.offGpu && !(goesOn && l.phase.task.WakeUp?),
           if goesOn then Working(l.phase.task) else Free, l.queue, l.owed)
    case End(ok) =>
      Life(AfterEnds(l.data, l.phase.task, ok), l.offGpu || (ok && l.phase.task.Offload?), Free, l.queue, l.owed)
  }

  /** The life after these steps, or `None` when one of them is not possible. */
  function LifeAfter(l: Life, steps: seq<Section>): Option<Life>
    decreases |steps|
  {
    if steps == [] then Some(l)
    else if !Enabled(l, steps[0]) then None
    else LifeAfter(Apply(l, steps[0]), steps[1..])
  }

  lemma {:induction false} LifeAfterOne(l: Life, step: Section, rest: seq<Section>)
    requires Enabled(l, step)
    ensures LifeAfter(l, [step] + rest) == LifeAfter(Apply(l, step), rest)
  {
    assert ([step] + rest)[1..] == rest;
  }

  // ---------- the line for the transition lock ----------

  /** The tasks whose first section is still to come, in the order in which it will run. */
  function Line(l: Life): seq<Task> {
    if l.phase.Entered? then [l.phase.task] + l.queue else l.queue
  }

  /** The task waits for the transition lock or has just taken it. */
  predicate Around(l: Life, task: Task) {
    task in Line(l)
  }

  predicate StopAround(l: Life) {
    l.owed > 0 || Around(l, Stop(false)) || Around(l, Stop(true))
  }

  /** What a section appends to the line; the lock's own sections append nothing. */
  function Appended(l: Life, step: Section): seq<Task>
    requires Enabled(l, step)
  {
    match step
    case Release(r, tokens) => Spawned(ReleaseTask(AfterRelease(l.data, r, tokens)))
    case Sleep => Spawned(SleepTask(l.data))
    case Ask(task) => [task]
    case AskOwed => [Stop(false)]
    case _ => []
  }

  /** Only the beginning of a task shortens the line, by that task. */
  lemma LineAfter(l: Life, step: Section)
    requires Enabled(l, step)
    ensures Line(Apply(l, step)) == if step.Begin? then Line(l)[1..] else Line(l) + Appended(l, step)
    ensures step.Begin? ==> Line(l) == [l.phase.task] + l.queue
  {
    if step.TakeLock? {
      assert [l.queue[0]] + l.queue[1..] == l.queue;
    } else if step.Begin? {
      assert Line(l)[1..] == l.queue;
    } else if l.phase.Entered? && !step.End? {
      assert [l.phase.task] + (l.queue + Appended(l, step)) == [l.phase.task] + l.queue + Appended(l, step);
    }
  }

  // ---------- the invariant ----------

  /** Requests are admitted only where they may finish, and a cold worker carries nothing. */
  predicate AdmittedOnlyWhileServing(d: Data) {
    && (d.admitted != {} ==> d.state in {Ready, Draining, Stopping})
    && (d.state.Cold? ==> d.admitted == {} && d.work == 0 && !d.toSleep)
    && (d.state.Loading? ==> !d.toSleep)
    && d.work >= 0
  }

  /** A transitional state is owned by the task that works under the transition lock. */
  predicate TransitionsAreLocked(l: Life) {
    && (l.data.state.Offloading? ==> l.phase == Working(Offload))
    && (l.data.state.Waking? ==> l.phase == Working(WakeUp))
    && (l.data.state.Stopping? ==> l.phase.Working? && l.phase.task.Stop?)
    && (l.phase == Working(Offload) ==> l.data.state in {Offloading, Draining, Cold})
    && (l.phase == Working(WakeUp) ==> l.data.state in {Waking, Draining, Cold})
    && (l.phase.Working? && l.phase.task.Stop? ==> l.data.state in {Stopping, Cold})
    && (l.phase.Working? && !l.phase.task.Stop? ==> l.data.admitted == {})
  }

  /** A drained worker is never forgotten, and an engine that still loads is never offloaded. */
  predicate NeverForgotten(l: Life) {
    && (l.data.state.Draining? && l.data.admitted == {} ==> StopAround(l) || Around(l, Offload))
    && (l.data.state.Draining? && l.phase.Working? ==> StopAround(l))
    && (l.data.state.Loading? ==> !Around(l, Offload))
    && (l.data.state.Sleeping? ==> l.offGpu)
  }

  predicate LifeInv(l: Life) {
    AdmittedOnlyWhileServing(l.data) && TransitionsAreLocked(l) && NeverForgotten(l)
  }

  lemma StepKeepsAdmitted(l: Life, step: Section)
    requires LifeInv(l) && Enabled(l, step)
    ensures AdmittedOnlyWhileServing(Apply(l, step).data)
  {
  }

  lemma StepKeepsLocked(l: Life, step: Section)
    requires LifeInv(l) && Enabled(l, step)
    ensures TransitionsAreLocked(Apply(l, step))
  {
  }

  lemma LoadingIsNotOffloaded(l: Life, step: Section)
    requires LifeInv(l) && Enabled(l, step) && Apply(l, step).data.state.Loading?
    ensures !Around(Apply(l, step), Offload)
  {
    LineAfter(l, step);
  }

  lemma BeginKeepsRemembered(l: Life)
    requires LifeInv(l) && Enabled(l, Begin)
    ensures NeverForgotten(Apply(l, Begin))
  {
    LineAfter(l, Begin);
  }

  /** Becoming drained asks for a stop or an offload, and what is asked for is not lost. */
  lemma DrainedIsRemembered(l: Life, step: Section)
    requires LifeInv(l) && Enabled(l, step) && !step.Begin? && Apply(l, step).data.state.Draining?
    ensures var after := Apply(l, step);
            && (after.data.admitted == {} ==> StopAround(after) || Around(after, Offload))
            && (after.phase.Working? ==> StopAround(after))
  {
    LineAfter(l, step);
  }

  lemma OthersKeepRemembered(l: Life, step: Section)
    requires LifeInv(l) && Enabled(l, step) && !step.Begin?
    ensures NeverForgotten(Apply(l, step))
  {
    if Apply(l, step).data.state.Draining? {
      DrainedIsRemembered(l, step);
    } else if Apply(l, step).data.state.Loading? {
      LoadingIsNotOffloaded(l, step);
    }
  }

  lemma StepKeepsRemembered(l: Life, step: Section)
    requires LifeInv(l) && Enabled(l, step)
    ensures NeverForgotten(Apply(l, step))
  {
    if step.Begin? {
      BeginKeepsRemembered(l);
    } else {
      OthersKeepRemembered(l, step);
    }
  }

  lemma StepKeepsLifeInv(l: Life, step: Section)
    requires LifeInv(l) && Enabled(l, step)
    ensures LifeInv(Apply(l, step))
  {
    StepKeepsAdmitted(l, step);
    StepKeepsLocked(l, step);
    StepKeepsRemembered(l, step);
  }

  /** Whatever sections interleave, a launched worker always satisfies the lifecycle invariant. */
  lemma {:induction false} RunKeepsLifeInv(l: Life, steps: seq<Section>)
    requires LifeInv(l) && LifeAfter(l, steps).Some?
    ensures LifeInv(LifeAfter(l, steps).value)
    decreases |steps|
  {
    if steps != [] {
      StepKeepsLifeInv(l, steps[0]);
      RunKeepsLifeInv(Apply(l, steps[0]), steps[1..]);
    }
  }
}
