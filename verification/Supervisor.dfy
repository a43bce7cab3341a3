/** The supervisor of the xray process (xray_supervisor.go): callers that do not
    overlap, the supervise goroutine interleaving freely with them, and a child
    process that may exit at any time. Each move is one critical section, one
    channel operation or one thing the operating system does. */
module Supervisor {

  datatype Process = ProcStopped | ProcFailed | ProcRunning | ProcRestarting

  datatype ProcessEvent = Started | Crashed | Restarted | Stopped

  /** Where the calling goroutine is: between calls, blocked on the done channel
      (to start again, or only to stop), before the first start, before the go
      statement. */
  datatype Caller = Idle | Waiting(restart: bool) | Launching | Spawning

  /** Where the supervise goroutine is. */
  datatype Worker =
    | NoWorker | Reading | Watching | Terminating | Exited | Crashing | Recording(crashed: bool)
    | BackingOff | Relaunching | Announcing | Finishing

  /** generation 0 has no channels yet. stopRequested and closed say whether the
      generation's stop and done channels are closed. live, trace, waits, restarts,
      began and past are history: the children that are alive; the generation's
      events, backoffs and restarts; whether its first start succeeded; the traces
      of earlier generations. */
  datatype State = State(
    generation: nat, stopRequested: bool, closed: bool, process: Process, pid: nat, cmd: nat,
    caller: Caller, worker: Worker, backoff: nat, nextPid: nat,
    live: set<nat>, trace: seq<ProcessEvent>, waits: seq<nat>, restarts: nat, began: bool,
    past: seq<seq<ProcessEvent>>)

  const BACKOFF_INIT: nat := 1
  const BACKOFF_MAX: nat := 30

  const NewSupervisor: State := State(
    0, false, false, ProcStopped, 0, 0, Idle, NoWorker, BACKOFF_INIT, 1, {}, [], [], 0, false, [])

  // ---- moves ----

  datatype Move =
    | CallPrepareStart | CallStop | WaitEnds | Launch(ok: bool) | Spawn
    | ReadsCommand | SeesStop | ChildStops | SeesExit | ChecksStop | RecordsCrash | SeesStopInBackoff
    | TimerFires | Relaunch(ok: bool) | Announces | RecordsStop | ClosesDone
    | ChildExits

  /** The channels of a new generation. */
  function Renewed(s: State): State {
    s.(generation := s.generation + 1, stopRequested := false, closed := false, caller := Launching,
       trace := [], waits := [], restarts := 0, began := false, past := s.past + [s.trace])
  }

  /** exec.Cmd.Start succeeded. */
  function ProcessStarted(s: State): State {
    s.(cmd := s.nextPid, pid := s.nextPid, process := ProcRunning, nextPid := s.nextPid + 1,
       live := s.live + {s.nextPid}, trace := s.trace + [Started])
  }

  function ProcessNotStarted(s: State): State {
    s.(process := ProcFailed, pid := 0)
  }

  predicate Enabled(s: State, m: Move) {
    match m
    case CallPrepareStart => s.caller.Idle?
    case CallStop => s.caller.Idle?
    case WaitEnds => s.caller.Waiting? && s.closed
    case Launch(_) => s.caller.Launching?
    case Spawn => s.caller.Spawning?
    case ReadsCommand => s.worker.Reading?
    case SeesStop => s.worker.Watching? && s.stopRequested
    case ChildStops => s.worker.Terminating?
    case SeesExit => s.worker.Watching? && s.cmd !in s.live
    case ChecksStop => s.worker.Exited?
    case RecordsCrash => s.worker.Crashing?
    case SeesStopInBackoff => s.worker.BackingOff? && s.stopRequested
    case TimerFires => s.worker.BackingOff?
    case Relaunch(_) => s.worker.Relaunching?
    case Announces => s.worker.Announcing?
    case RecordsStop => s.worker.Recording?
    case ClosesDone => s.worker.Finishing?
    case ChildExits => true
  }

  function Doubled(backoff: nat): nat {
    if backoff * 2 > BACKOFF_MAX then BACKOFF_MAX else backoff * 2
  }

  function Step(s: State, m: Move): State {
    if !Enabled(s, m) then s
    else
      match m
      case CallPrepareStart =>
        if s.generation > 0 && !s.stopRequested then s.(stopRequested := true, caller := Waiting(true)) else Renewed(s)
      case CallStop =>
        if s.generation == 0 then s else s.(stopRequested := true, caller := Waiting(false))
      case WaitEnds => if s.caller.restart then Renewed(s) else s.(caller := Idle)
      case Launch(ok) =>
        if ok then ProcessStarted(s).(caller := Spawning, began := true) else ProcessNotStarted(s).(caller := Idle)
      case Spawn => s.(caller := Idle, worker := Reading, backoff := BACKOFF_INIT)
      case ReadsCommand => s.(worker := Watching)
      case SeesStop => s.(worker := Terminating)
      case ChildStops => s.(worker := Recording(false), live := s.live - {s.cmd})
      case SeesExit => s.(worker := Exited)
      case ChecksStop => s.(worker := if s.stopRequested then Recording(false) else Crashing)
      case RecordsCrash =>
        s.(worker := BackingOff, process := ProcRestarting, pid := 0, trace := s.trace + [Crashed],
           waits := s.waits + [s.backoff])
      case SeesStopInBackoff => s.(worker := Recording(true))
      case TimerFires => s.(worker := Relaunching)
      case Relaunch(ok) =>
        if ok then ProcessStarted(s).(worker := Announcing) else ProcessNotStarted(s).(worker := Finishing)
      case Announces =>
        s.(worker := Reading, trace := s.trace + [Restarted], backoff := Doubled(s.backoff), restarts := s.restarts + 1)
      case RecordsStop => s.(worker := Finishing, process := ProcStopped, pid := 0, trace := s.trace + [Stopped])
      case ClosesDone => s.(worker := NoWorker, closed := true)
      case ChildExits => s.(live := {})
  }

  function Run(s: State, moves: seq<Move>): State {
    if moves == [] then s else Step(Run(s, moves[..|moves| - 1]), moves[|moves| - 1])
  }

  // ---- traces ----

  /** k crashes, each followed by a restart. */
  function Cycles(k: nat): seq<ProcessEvent> {
    if k == 0 then [] else Cycles(k - 1) + [Crashed, Started, Restarted]
  }

  /** A generation from its first start on: k full cycles and then rest. */
  predicate Traced(trace: seq<ProcessEvent>, k: nat, rest: seq<ProcessEvent>) {
    trace == [Started] + Cycles(k) + rest
  }

  /** How a generation can end. */
  predicate Ending(rest: seq<ProcessEvent>) {
    rest == [Stopped] || rest == [Crashed, Stopped] || rest == [Crashed]
  }

  ghost predicate Complete(trace: seq<ProcessEvent>) {
    exists k: nat, rest :: Ending(rest) && Traced(trace, k, rest)
  }

  /** A prefix of a complete trace. */
  ghost predicate InGrammar(trace: seq<ProcessEvent>) {
    exists more :: Complete(trace + more)
  }

  function Pow2(k: nat): nat {
    if k == 0 then 1 else 2 * Pow2(k - 1)
  }

  /** The k-th backoff in seconds. */
  function BackoffAt(k: nat): nat {
    if Pow2(k) > BACKOFF_MAX then BACKOFF_MAX else Pow2(k)
  }

  predicate WaitsDouble(waits: seq<nat>) {
    forall k :: 0 <= k < |waits| ==> waits[k] == BackoffAt(k)
  }

  // ---- the invariant ----

  predicate ChildrenOk(s: State) {
    && s.live <= {s.cmd} && s.cmd < s.nextPid && (s.pid != 0 ==> s.pid == s.cmd)
    && (s.pid != 0 <==> s.process.ProcRunning?)
  }

  /** The worker's place, the process state and the rest of the trace go together. */
  predicate WorkerOk(s: State) {
    && (match s.worker
        case NoWorker => true
        case Recording(crashed) => (s.process.ProcRunning? <==> !crashed) && s.live == {}
        case BackingOff => s.process.ProcRestarting? && s.live == {}
        case Relaunching => s.process.ProcRestarting? && s.live == {}
        case Finishing => !s.process.ProcRunning? && s.live == {}
        case Exited => s.process.ProcRunning? && s.live == {}
        case Crashing => s.process.ProcRunning? && s.live == {}
        case _ => s.process.ProcRunning?)
    && (!s.worker.NoWorker? ==> s.generation > 0 && s.began && !s.closed && (s.caller.Idle? || s.caller.Waiting?))
    && (s.worker.Terminating? ==> s.stopRequested)
  }

  function RestAt(worker: Worker): seq<ProcessEvent> {
    match worker
    case Recording(crashed) => if crashed then [Crashed] else []
    case BackingOff => [Crashed]
    case Relaunching => [Crashed]
    case Announcing => [Crashed, Started]
    case _ => []
  }

  ghost predicate TraceOk(s: State) {
    && (if s.worker.NoWorker? || s.worker.Finishing? then
          if s.caller.Spawning? then s.trace == [Started]
          else if s.began then Complete(s.trace)
          else s.trace == []
        else Traced(s.trace, s.restarts, RestAt(s.worker)))
    && forall i :: 0 <= i < |s.past| ==> s.past[i] == [] || Complete(s.past[i])
  }

  predicate BackoffOk(s: State) {
    && WaitsDouble(s.waits)
    && (s.worker.Finishing? || s.worker.NoWorker? ||
        (s.backoff == BackoffAt(s.restarts)
         && |s.waits| == s.restarts + if RestAt(s.worker) == [] then 0 else 1))
    && ((s.caller.Spawning? || s.caller.Launching?) ==> s.waits == [] && s.restarts == 0)
  }

  predicate CallerOk(s: State) {
    && (s.caller.Waiting? ==> s.stopRequested && s.generation > 0)
    && (s.caller.Idle? && s.stopRequested ==> s.closed)
    && (s.caller.Launching? ==> !s.began && !s.closed && !s.stopRequested && s.worker.NoWorker? && s.generation > 0)
    && (s.caller.Spawning? ==>
          s.began && !s.closed && !s.stopRequested && s.worker.NoWorker? && s.process.ProcRunning? && s.generation > 0)
    && (s.closed ==> s.worker.NoWorker? && s.began)
    && (s.generation == 0 ==> s.caller.Idle? && !s.began && !s.stopRequested && s.worker.NoWorker?)
    && (s.worker.NoWorker? && !s.caller.Spawning? ==>
          s.live == {} && !s.process.ProcRunning? && (s.began ==> s.closed))
  }

  ghost predicate Inv(s: State) {
    ChildrenOk(s) && WorkerOk(s) && TraceOk(s) && BackoffOk(s) && CallerOk(s)
  }

  lemma NewIsOk()
    ensures Inv(NewSupervisor)
  {
  }

  lemma StepKeepsChildren(s: State, m: Move)
    requires ChildrenOk(s) && WorkerOk(s) && CallerOk(s)
    ensures ChildrenOk(Step(s, m)) && WorkerOk(Step(s, m)) && CallerOk(Step(s, m))
  {
    StepKeepsLive(s, m);
    StepKeepsWorker(s, m);
    StepKeepsCaller(s, m);
  }

  lemma StepKeepsLive(s: State, m: Move)
    requires ChildrenOk(s) && WorkerOk(s) && CallerOk(s)
    ensures ChildrenOk(Step(s, m))
  {
  }

  lemma StepKeepsWorker(s: State, m: Move)
    requires ChildrenOk(s) && WorkerOk(s) && CallerOk(s)
    ensures WorkerOk(Step(s, m))
  {
  }

  lemma StepKeepsCaller(s: State, m: Move)
    requires ChildrenOk(s) && WorkerOk(s) && CallerOk(s)
    ensures CallerOk(Step(s, m))
  {
  }

  lemma NextBackoff(k: nat)
    ensures Doubled(BackoffAt(k)) == BackoffAt(k + 1)
  {
    if k >= 5 { Pow2AtLeast(k); }
  }

  lemma {:induction false} Pow2AtLeast(k: nat)
    requires k >= 5
    ensures Pow2(k) >= 32
  {
    if k > 5 { Pow2AtLeast(k - 1); } else { assert Pow2(5) == 2 * Pow2(4) == 4 * Pow2(3) == 8 * Pow2(2) == 16 * Pow2(1) == 32; }
  }

  lemma StepKeepsBackoff(s: State, m: Move)
    requires BackoffOk(s) && WorkerOk(s) && CallerOk(s)
    ensures BackoffOk(Step(s, m))
  {
    if m.Announces? { NextBackoff(s.restarts); }
  }

  lemma EndingIsComplete(trace: seq<ProcessEvent>, k: nat, rest: seq<ProcessEvent>)
    requires Traced(trace, k, rest) && Ending(rest)
    ensures Complete(trace)
  {
  }

  lemma CycleCloses(trace: seq<ProcessEvent>, k: nat)
    requires Traced(trace, k, [Crashed, Started])
    ensures Traced(trace + [Restarted], k + 1, [])
  {
    assert trace + [Restarted] == [Started] + (Cycles(k) + [Crashed, Started, Restarted]) + [];
  }

  lemma TraceGrows(trace: seq<ProcessEvent>, k: nat, rest: seq<ProcessEvent>, e: ProcessEvent)
    requires Traced(trace, k, rest)
    ensures Traced(trace + [e], k, rest + [e])
  {
    assert trace + [e] == [Started] + Cycles(k) + (rest + [e]);
  }

  lemma StepKeepsTrace(s: State, m: Move)
    requires WorkerOk(s) && TraceOk(s) && CallerOk(s) && BackoffOk(s)
    ensures TraceOk(Step(s, m))
  {
    if m.Spawn? {
      NoCycles();
    } else if m.RecordsCrash? {
      if Enabled(s, m) { TraceGrows(s.trace, s.restarts, [], Crashed); }
      assert [] + [Crashed] == [Crashed];
    } else if m.Relaunch? {
      if Enabled(s, m) { RelaunchTrace(s.trace, s.restarts); }
    } else if m.Announces? {
      if Enabled(s, m) { CycleCloses(s.trace, s.restarts); }
    } else if m.RecordsStop? {
      if Enabled(s, m) { StopTrace(s.trace, s.restarts, s.worker.crashed); }
    }
  }

  lemma NoCycles()
    ensures Traced([Started], 0, [])
  {
    assert [Started] == [Started] + Cycles(0) + [];
  }

  lemma RelaunchTrace(trace: seq<ProcessEvent>, k: nat)
    requires Traced(trace, k, [Crashed])
    ensures Traced(trace + [Started], k, [Crashed, Started]) && Complete(trace)
  {
    TraceGrows(trace, k, [Crashed], Started);
    assert [Crashed] + [Started] == [Crashed, Started];
    EndingIsComplete(trace, k, [Crashed]);
  }

  lemma StopTrace(trace: seq<ProcessEvent>, k: nat, crashed: bool)
    requires Traced(trace, k, if crashed then [Crashed] else [])
    ensures Complete(trace + [Stopped])
  {
    var rest := if crashed then [Crashed] else [];
    TraceGrows(trace, k, rest, Stopped);
    assert rest + [Stopped] == if crashed then [Crashed, Stopped] else [Stopped];
    EndingIsComplete(trace + [Stopped], k, rest + [Stopped]);
  }

  lemma StepKeepsInv(s: State, m: Move)
    requires Inv(s)
    ensures Inv(Step(s, m))
  {
    StepKeepsChildren(s, m);
    StepKeepsBackoff(s, m);
    StepKeepsTrace(s, m);
  }

  lemma {:induction false} RunKeepsInv(s: State, moves: seq<Move>)
    requires Inv(s)
    ensures Inv(Run(s, moves))
  {
    if moves != [] {
      RunKeepsInv(s, moves[..|moves| - 1]);
      StepKeepsInv(Run(s, moves[..|moves| - 1]), moves[|moves| - 1]);
    }
  }

  // ---- safety ----

  /** At most one child is alive, it is the one last started, and whenever the lock
      is free there is a pid exactly when the state is running. */
  lemma AtMostOneChild(moves: seq<Move>)
    ensures
      var s := Run(NewSupervisor, moves);
      && |s.live| <= 1 && (forall p :: p in s.live ==> p == s.cmd)
      && (s.pid != 0 <==> s.process.ProcRunning?)
  {
    NewIsOk();
    RunKeepsInv(NewSupervisor, moves);
    AtMostOne(Run(NewSupervisor, moves).live, Run(NewSupervisor, moves).cmd);
  }

  lemma AtMostOne(live: set<nat>, cmd: nat)
    requires live <= {cmd}
    ensures |live| <= 1
  {
    if live != {} { assert live == {cmd}; }
  }

  lemma WithEnding(trace: seq<ProcessEvent>, k: nat, rest: seq<ProcessEvent>, more: seq<ProcessEvent>)
    requires Traced(trace, k, rest) && Ending(rest + more)
    ensures InGrammar(trace)
  {
    assert trace + more == [Started] + Cycles(k) + (rest + more);
    EndingIsComplete(trace + more, k, rest + more);
  }

  lemma TraceIsInGrammar(s: State)
    requires Inv(s)
    ensures s.trace == [] || InGrammar(s.trace)
  {
    if s.worker.NoWorker? || s.worker.Finishing? {
      if s.caller.Spawning? {
        assert Traced(s.trace, 0, []) by { assert [Started] == [Started] + Cycles(0) + []; }
        assert [] + [Stopped] == [Stopped];
        WithEnding(s.trace, 0, [], [Stopped]);
      } else if s.began {
        assert s.trace + [] == s.trace;
      }
    } else if s.worker.Announcing? {
      CycleCloses(s.trace, s.restarts);
      assert [] + [Stopped] == [Stopped];
      WithEnding(s.trace + [Restarted], s.restarts + 1, [], [Stopped]);
      PrefixIsInGrammar(s.trace, [Restarted]);
    } else {
      assert RestAt(s.worker) + [Stopped] == [Stopped] || RestAt(s.worker) + [Stopped] == [Crashed, Stopped];
      WithEnding(s.trace, s.restarts, RestAt(s.worker), [Stopped]);
    }
  }

  lemma PrefixIsInGrammar(trace: seq<ProcessEvent>, more: seq<ProcessEvent>)
    requires InGrammar(trace + more)
    ensures InGrammar(trace)
  {
    var rest :| Complete((trace + more) + rest);
    assert trace + (more + rest) == (trace + more) + rest;
  }

  /** Every generation's events are a prefix of Started (Crashed Started Restarted)*
      followed by Stopped, by Crashed Stopped or by Crashed; its k-th backoff is
      min(2^k, 30) seconds. */
  lemma TracesAreInGrammar(moves: seq<Move>)
    ensures
      var s := Run(NewSupervisor, moves);
      && (s.trace == [] || InGrammar(s.trace))
      && (forall i :: 0 <= i < |s.past| ==> s.past[i] == [] || Complete(s.past[i]))
      && (forall k :: 0 <= k < |s.waits| ==> s.waits[k] == BackoffAt(k))
  {
    NewIsOk();
    RunKeepsInv(NewSupervisor, moves);
    TraceIsInGrammar(Run(NewSupervisor, moves));
  }

  // ---- when a waiting caller returns ----

  predicate OfWorker(m: Move) {
    !m.CallPrepareStart? && !m.CallStop? && !m.WaitEnds? && !m.Launch? && !m.Spawn? && !m.ChildExits?
  }

  /** How far the worker is from closing done, once stop is requested. */
  function Distance(worker: Worker): nat {
    match worker
    case Crashing => 9
    case BackingOff => 8
    case Relaunching => 7
    case Announcing => 6
    case Reading => 5
    case Watching => 4
    case Exited => 3
    case Terminating => 3
    case Recording(_) => 2
    case Finishing => 1
    case NoWorker => 0
  }

  /** A move the worker can make once stop is requested. */
  function WorkerMove(worker: Worker): Move {
    match worker
    case Reading => ReadsCommand
    case Watching => SeesStop
    case Terminating => ChildStops
    case Exited => ChecksStop
    case Crashing => RecordsCrash
    case Recording(_) => RecordsStop
    case BackingOff => TimerFires
    case Relaunching => Relaunch(true)
    case Announcing => Announces
    case _ => ClosesDone
  }

  /** With a stop requested every move of the worker brings it closer to the end,
      and until done is closed it has a move to make. */
  lemma StopDrivesWorker(s: State)
    requires Inv(s) && s.stopRequested && !s.worker.NoWorker?
    ensures OfWorker(WorkerMove(s.worker)) && Enabled(s, WorkerMove(s.worker))
    ensures forall m :: OfWorker(m) && Enabled(s, m) ==> Distance(Step(s, m).worker) < Distance(s.worker)
    ensures forall m :: OfWorker(m) && Enabled(s, m) && Step(s, m).worker.NoWorker? ==> Step(s, m).closed
  {
  }

  /** No first start, no worker: done will never be closed. */
  predicate Stuck(s: State) {
    s.caller.Waiting? && !s.began && !s.closed && s.worker.NoWorker?
  }

  lemma {:induction false} StuckForever(s: State, moves: seq<Move>)
    requires Stuck(s)
    ensures Stuck(Run(s, moves))
  {
    if moves != [] {
      StuckForever(s, moves[..|moves| - 1]);
      StuckStays(Run(s, moves[..|moves| - 1]), moves[|moves| - 1]);
    }
  }

  lemma StuckStays(s: State, m: Move)
    requires Stuck(s)
    ensures Stuck(Step(s, m))
  {
  }

  /** The worker's moves in some order until it is done. */
  lemma WaitingCanEnd(s: State) returns (moves: seq<Move>)
    requires Inv(s) && s.caller.Waiting? && (s.began || s.closed)
    ensures |moves| <= Distance(s.worker) && (forall i :: 0 <= i < |moves| ==> OfWorker(moves[i]))
    ensures Enabled(Run(s, moves), WaitEnds)
    decreases Distance(s.worker)
  {
    if s.worker.NoWorker? {
      moves := [];
    } else {
      var m := WorkerMove(s.worker);
      WorkerMoves(s);
      StepKeepsInv(s, m);
      var rest := WaitingCanEnd(Step(s, m));
      moves := [m] + rest;
      RunOfCons(s, m, rest);
    }
  }

  lemma WorkerMoves(s: State)
    requires Inv(s) && s.caller.Waiting? && !s.worker.NoWorker?
    ensures
      var m := WorkerMove(s.worker);
      && OfWorker(m) && Distance(Step(s, m).worker) < Distance(s.worker)
      && Step(s, m).caller == s.caller && (Step(s, m).began || Step(s, m).closed)
  {
    StopDrivesWorker(s);
  }

  lemma {:induction false} RunOfCons(s: State, m: Move, rest: seq<Move>)
    ensures Run(s, [m] + rest) == Run(Step(s, m), rest)
  {
    if rest == [] {
      assert [m] + rest == [m] && [m][..0] == [];
      assert Run(s, [m]) == Step(Run(s, []), m);
    } else {
      var moves := [m] + rest;
      assert moves[..|moves| - 1] == [m] + rest[..|rest| - 1];
      RunOfCons(s, m, rest[..|rest| - 1]);
    }
  }

  /** Some continuation lets the waiting caller go on. */
  ghost predicate CanReturn(s: State) {
    exists more: seq<Move> :: Run(s, more).caller.Waiting? && Run(s, more).closed
  }

  /** Stop, or a PrepareStart that has to wait, can return if and only if the first
      start of the generation succeeded: otherwise it is blocked for good. */
  lemma WaitReturnsIff(moves: seq<Move>)
    requires Run(NewSupervisor, moves).caller.Waiting?
    ensures CanReturn(Run(NewSupervisor, moves)) <==> Run(NewSupervisor, moves).began
  {
    var s := Run(NewSupervisor, moves);
    NewIsOk();
    RunKeepsInv(NewSupervisor, moves);
    if s.began {
      var more := WaitingCanEnd(s);
      assert Run(s, more).caller.Waiting? && Run(s, more).closed;
    } else {
      forall more: seq<Move> ensures !Run(s, more).closed { StuckForever(s, more); }
    }
  }

  lemma RunOfThree(s: State, a: Move, b: Move, c: Move)
    ensures Run(s, [a, b, c]) == Step(Step(Step(s, a), b), c)
  {
    assert [a, b, c][..2] == [a, b] && [a, b][..1] == [a] && [a][..0] == [];
    assert Run(s, [a]) == Step(Run(s, []), a);
    assert Run(s, [a, b]) == Step(Run(s, [a]), b);
  }

  /** The shortest run after which Stop does not return, and neither does another
      PrepareStart: the first start fails. */
  lemma FailedStartBlocks()
    ensures
      var stopping := Run(NewSupervisor, [CallPrepareStart, Launch(false), CallStop]);
      stopping.caller == Waiting(false) && !CanReturn(stopping)
    ensures
      var starting := Run(NewSupervisor, [CallPrepareStart, Launch(false), CallPrepareStart]);
      starting.caller == Waiting(true) && !CanReturn(starting)
  {
    RunOfThree(NewSupervisor, CallPrepareStart, Launch(false), CallStop);
    RunOfThree(NewSupervisor, CallPrepareStart, Launch(false), CallPrepareStart);
    WaitReturnsIff([CallPrepareStart, Launch(false), CallStop]);
    WaitReturnsIff([CallPrepareStart, Launch(false), CallPrepareStart]);
  }

  // ---- the object ----

  /** The supervisor's fields and its critical sections. backoff is the supervise
      goroutine's local; the ghost fields say where the goroutines are. */
  class XraySupervisor {
    var generation: nat
    var stopRequested: bool
    var closed: bool
    var process: Process
    var pid: nat
    var cmd: nat
    var backoff: nat
    ghost var caller: Caller
    ghost var worker: Worker
    ghost var nextPid: nat
    ghost var live: set<nat>
    ghost var trace: seq<ProcessEvent>
    ghost var waits: seq<nat>
    ghost var restarts: nat
    ghost var began: bool
    ghost var past: seq<seq<ProcessEvent>>

    ghost function Now(): State
      reads this
    {
      State(generation, stopRequested, closed, process, pid, cmd, caller, worker, backoff, nextPid,
            live, trace, waits, restarts, began, past)
    }

    constructor ()
      ensures Now() == NewSupervisor
    {
      generation, stopRequested, closed, process, pid, cmd := 0, false, false, ProcStopped, 0, 0;
      backoff := BACKOFF_INIT;
      caller, worker, nextPid, live, trace := Idle, NoWorker, 1, {}, [];
      waits, restarts, began, past := [], 0, false, [];
    }

    method MakeChannels()
      modifies this
      ensures generation == old(generation) + 1 && !stopRequested && !closed && caller == Launching
      ensures trace == [] && waits == [] && restarts == 0 && !began && past == old(past) + [old(trace)]
      ensures process == old(process) && pid == old(pid) && cmd == old(cmd) && worker == old(worker)
      ensures backoff == old(backoff) && nextPid == old(nextPid) && live == old(live)
    {
      ghost var finished := past + [trace];
      past := finished;
      trace := [];
      waits := [];
      restarts := 0;
      began := false;
      caller := Launching;
      generation := generation + 1;
      stopRequested := false;
      closed := false;
    }

    /** PrepareStart up to its wait, or to its first start when there is none. */
    method PrepareStart() returns (wait: bool)
      requires caller.Idle?
      modifies this
      ensures Now() == Step(old(Now()), CallPrepareStart) && (wait <==> caller.Waiting?)
    {
      if generation > 0 && !stopRequested {
        stopRequested := true;
        caller := Waiting(true);
        return true;
      }
      MakeChannels();
      return false;
    }

    method Stop() returns (wait: bool)
      requires caller.Idle?
      modifies this
      ensures Now() == Step(old(Now()), CallStop) && (wait <==> caller.Waiting?)
    {
      if generation > 0 && !stopRequested {
        stopRequested := true;
      }
      wait := generation > 0;
      if wait {
        caller := Waiting(false);
      }
    }

    /** After <-done: PrepareStart goes on, Stop returns. */
    method AfterDone(restart: bool)
      requires caller == Waiting(restart) && closed
      modifies this
      ensures Now() == Step(old(Now()), WaitEnds)
    {
      if restart {
        MakeChannels();
      } else {
        caller := Idle;
      }
    }

    /** startProcess: child is the new process, or none could be started. */
    method StartProcess(started: bool, child: nat)
      requires child == nextPid
      modifies this
      ensures Now() == if started then ProcessStarted(old(Now())) else ProcessNotStarted(old(Now()))
    {
      if !started {
        process := ProcFailed;
        pid := 0;
        return;
      }
      cmd := child;
      pid := child;
      process := ProcRunning;
      nextPid, live, trace := nextPid + 1, live + {child}, trace + [Started];
    }

    method FirstStart(started: bool, child: nat)
      requires caller.Launching? && child == nextPid
      modifies this
      ensures Now() == Step(old(Now()), Launch(started))
    {
      StartProcess(started, child);
      caller := if started then Spawning else Idle;
      began := began || started;
    }

    method RecordCrashed()
      requires worker.Crashing?
      modifies this
      ensures Now() == Step(old(Now()), RecordsCrash)
    {
      process := ProcRestarting;
      pid := 0;
      worker, trace, waits := BackingOff, trace + [Crashed], waits + [backoff];
    }

    method StartAgain(started: bool, child: nat)
      requires worker.Relaunching? && child == nextPid
      modifies this
      ensures Now() == Step(old(Now()), Relaunch(started))
    {
      StartProcess(started, child);
      worker := if started then Announcing else Finishing;
    }

    method RecordRestarted()
      requires worker.Announcing?
      modifies this
      ensures Now() == Step(old(Now()), Announces)
    {
      backoff := backoff * 2;
      if backoff > BACKOFF_MAX {
        backoff := BACKOFF_MAX;
      }
      worker, trace, restarts := Reading, trace + [Restarted], restarts + 1;
    }

    method RecordStopped()
      requires worker.Recording?
      modifies this
      ensures Now() == Step(old(Now()), RecordsStop)
    {
      process := ProcStopped;
      pid := 0;
      worker, trace := Finishing, trace + [Stopped];
    }

    method CloseDone()
      requires worker.Finishing?
      modifies this
      ensures Now() == Step(old(Now()), ClosesDone)
    {
      closed := true;
      worker := NoWorker;
    }
  }
}
