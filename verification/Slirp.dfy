// The slirp4netns helper: the main goroutine, the reader of the ready pipe, the waiter of
// Teardown and the process itself, in every interleaving with both timeouts.

module Slirp {
  import opened Wrappers

  /** Where the main goroutine stands in Setup, then in Teardown. */
  datatype Main =
    | Selecting        // waitReady: receive a result, or time out
    | Killing | ReapingFailed | ClosingFailed | ReturnedErr
    | ReturnedOk
    | Draining         // Teardown: receive from done, or time out
    | DrainingAgain    // after SIGKILL
    | ClosingOk | TornDown

  datatype Proc = Alive | Zombie | Reaped

  /** A goroutine: blocked on its call, about to send, or finished. */
  datatype Helper = NotStarted | Blocked | Sending | Finished

  datatype State = State(
    main: Main, proc: Proc, doomed: bool,
    reader: Helper, gotByte: bool, ready: Option<bool>,  // the reader's result and its channel of capacity 1
    waiter: Helper, done: bool,                          // whether the done channel of capacity 1 is full
    byte: bool, wrote: bool, writer: bool, readEnd: bool)

  datatype Action =
    | ProcWrites | ProcClosesFd | ProcExits | ProcDies
    | ReaderReads | ReaderSends
    | Receives | TimesOut | Kills | Reaps | CloseFails
    | BeginsTeardown | WaiterWaits | WaiterSends | ReceivesDone | TimesOutAgain | CloseOk

  /** Right after c.Start succeeded and the parent closed its copy of the write end. */
  const INIT := State(Selecting, Alive, false, Blocked, false, None, NotStarted, false, false, false, true, true)

  /** What one action does; None when it is not possible. */
  function Step(s: State, a: Action): Option<State> {
    match a
    case ProcWrites => if s.proc == Alive && s.writer && !s.wrote then Some(s.(byte := true, wrote := true)) else None
    case ProcClosesFd => if s.proc == Alive && s.writer then Some(s.(writer := false)) else None
    case ProcExits => if s.proc == Alive then Some(s.(proc := Zombie, writer := false)) else None
    case ProcDies => if s.proc == Alive && s.doomed then Some(s.(proc := Zombie, writer := false)) else None
    case ReaderReads =>
      if s.reader == Blocked && (!s.readEnd || s.byte || !s.writer) then
        Some(s.(reader := Sending, gotByte := s.readEnd && s.byte, byte := false))
      else None
    case ReaderSends =>
      if s.reader == Sending && s.ready == None then Some(s.(reader := Finished, ready := Some(s.gotByte))) else None
    case Receives =>
      if s.main == Selecting && s.ready.Some?
          then Some(s.(main := if s.ready.value then ReturnedOk else Killing, ready := None))
      else None
    case TimesOut => if s.main == Selecting then Some(s.(main := Killing)) else None
    case Kills => if s.main == Killing then Some(s.(main := ReapingFailed, doomed := true)) else None
    case Reaps => if s.main == ReapingFailed && s.proc == Zombie
      then Some(s.(main := ClosingFailed, proc := Reaped)) else None
    case CloseFails => if s.main == ClosingFailed then Some(s.(main := ReturnedErr, readEnd := false)) else None
    case BeginsTeardown => if s.main == ReturnedOk then Some(s.(main := Draining, waiter := Blocked)) else None
    case WaiterWaits => if s.waiter == Blocked && s.proc == Zombie
      then Some(s.(waiter := Sending, proc := Reaped)) else None
    case WaiterSends => if s.waiter == Sending && !s.done then Some(s.(waiter := Finished, done := true)) else None
    case ReceivesDone =>
      if (s.main == Draining || s.main == DrainingAgain) && s.done
          then Some(s.(main := ClosingOk, done := false)) else None
    case TimesOutAgain => if s.main == Draining then Some(s.(main := DrainingAgain, doomed := true)) else None
    case CloseOk => if s.main == ClosingOk then Some(s.(main := TornDown, readEnd := false)) else None
  }

  function Run(s: State, acts: seq<Action>): Option<State>
    decreases |acts|
  {
    if acts == [] then Some(s)
    else
      match Step(s, acts[0])
      case None => None
      case Some(s') => Run(s', acts[1..])
  }

  ghost predicate Inv(s: State) {
    && (s.reader != NotStarted)
    && (s.reader == Blocked || s.reader == Sending ==> s.ready == None)
    && (s.ready.Some? ==> s.reader == Finished && s.ready.value == s.gotByte)
    && (s.gotByte || s.byte ==> s.wrote)
    && (s.proc != Alive ==> !s.writer)
    && (s.main.Selecting? ==> s.proc != Reaped && s.readEnd && (s.reader == Finished ==> s.ready.Some?))
    && (s.main.Killing? || s.main.ReapingFailed? ==> s.proc != Reaped)
    && (s.main.ReapingFailed? || s.main.DrainingAgain? ==> s.doomed)
    && (s.main.ClosingFailed? || s.main.ReturnedErr? ==> s.proc == Reaped)
    && (s.main.ReturnedErr? || s.main.TornDown? ==> !s.readEnd)
    && (s.main.ReturnedOk? || s.main.Draining? || s.main.DrainingAgain? || s.main.ClosingOk? || s.main.TornDown? ==>
          s.reader == Finished && s.gotByte)
    && (s.main.ReturnedOk? ==> s.proc != Reaped)
    && (s.waiter.NotStarted? <==> !(s.main.Draining? || s.main.DrainingAgain? || s.main.ClosingOk? || s.main.TornDown?))
    && (s.waiter.NotStarted? || s.waiter.Blocked? || s.waiter.Sending? ==> !s.done)
    && (s.waiter.Blocked? ==> s.proc != Reaped)
    && (s.waiter.Sending? || s.waiter.Finished? ==> s.proc == Reaped)
    && (s.main.Draining? || s.main.DrainingAgain? ==> (s.waiter.Finished? ==> s.done))
    && (s.main.ClosingOk? || s.main.TornDown? ==> s.waiter.Finished? && !s.done)
  }

  lemma ProcKeeps(s: State, a: Action)
    requires Inv(s) && Step(s, a).Some? && (a.ProcWrites? || a.ProcClosesFd? || a.ProcExits? || a.ProcDies?)
    ensures Inv(Step(s, a).value)
  {
  }

  lemma ReaderKeeps(s: State, a: Action)
    requires Inv(s) && Step(s, a).Some? && (a.ReaderReads? || a.ReaderSends?)
    ensures Inv(Step(s, a).value)
  {
  }

  lemma SetupKeeps(s: State, a: Action)
    requires Inv(s) && Step(s, a).Some? && (a.Receives? || a.TimesOut? || a.Kills? || a.Reaps? || a.CloseFails?)
    ensures Inv(Step(s, a).value)
  {
  }

  lemma WaiterKeeps(s: State, a: Action)
    requires Inv(s) && Step(s, a).Some? && (a.WaiterWaits? || a.WaiterSends?)
    ensures Inv(Step(s, a).value)
  {
  }

  lemma TeardownKeeps(s: State, a: Action)
    requires Inv(s) && Step(s, a).Some? && (a.BeginsTeardown? || a.ReceivesDone? || a.TimesOutAgain? || a.CloseOk?)
    ensures Inv(Step(s, a).value)
  {
  }

  lemma {:induction false} StepKeeps(s: State, a: Action)
    requires Inv(s) && Step(s, a).Some?
    ensures Inv(Step(s, a).value)
  {
    hide Inv, Step;
    match a
    case ProcWrites | ProcClosesFd | ProcExits | ProcDies => ProcKeeps(s, a);
    case ReaderReads | ReaderSends => ReaderKeeps(s, a);
    case Receives | TimesOut | Kills | Reaps | CloseFails => SetupKeeps(s, a);
    case WaiterWaits | WaiterSends => WaiterKeeps(s, a);
    case BeginsTeardown | ReceivesDone | TimesOutAgain | CloseOk => TeardownKeeps(s, a);
  }

  lemma {:induction false} RunKeeps(s: State, acts: seq<Action>, s': State)
    requires Inv(s) && Run(s, acts) == Some(s')
    ensures Inv(s')
    decreases |acts|
  {
    if acts != [] {
      StepKeeps(s, acts[0]);
      RunKeeps(Step(s, acts[0]).value, acts[1..], s');
    }
  }

  /** A failed Setup leaves the process reaped and its reader able to finish on its own. */
  lemma FailedSetupLeavesNothing(acts: seq<Action>, s: State)
    requires Run(INIT, acts) == Some(s) && s.main == ReturnedErr
    ensures s.proc == Reaped && !s.readEnd
    ensures s.reader == Blocked ==> Step(s, ReaderReads).Some?
    ensures s.reader == Sending ==> Step(s, ReaderSends).Some?
  {
    RunKeeps(INIT, acts, s);
  }

  /** A successful Setup means slirp4netns wrote its byte, and the reader is already gone. */
  lemma SetupMeansReady(acts: seq<Action>, s: State)
    requires Run(INIT, acts) == Some(s) && s.main == ReturnedOk
    ensures s.wrote && s.reader == Finished && s.proc != Reaped
  {
    RunKeeps(INIT, acts, s);
  }

  /** The ready byte, read before the timeout, makes Setup succeed: no other receive does. */
  lemma {:induction false} ReceiveDecides(acts: seq<Action>, s: State)
    requires Run(INIT, acts) == Some(s) && s.main == Selecting && s.reader == Finished
    ensures Step(s, Receives).Some?
    ensures Step(s, Receives).value.main == if s.gotByte then ReturnedOk else Killing
  {
    RunKeeps(INIT, acts, s);
  }

  /** What the helper writes, or its end without a word, is what the reader gets, as long as Setup waits. */
  lemma {:induction false} WrittenIsRead(acts: seq<Action>, s: State)
    requires Run(INIT, acts) == Some(s) && s.main == Selecting && s.reader == Blocked
    requires s.wrote || !s.writer
    ensures Step(s, ReaderReads).Some? && Step(s, ReaderReads).value.gotByte == s.wrote
    ensures Run(s, [ReaderReads, ReaderSends, Receives]).Some?
    ensures Run(s, [ReaderReads, ReaderSends, Receives]).value.main ==
      if s.wrote then ReturnedOk else Killing
  {
    RunKeeps(INIT, acts, s);
    if s.wrote {
      WaitingForByte(acts, s);
    }
    var read := Step(s, ReaderReads).value;
    var sent := Step(read, ReaderSends).value;
    var got := Step(sent, Receives).value;
    assert [ReaderReads, ReaderSends, Receives][1..] == [ReaderSends, Receives];
    assert [ReaderSends, Receives][1..] == [Receives] && [Receives][1..] == [];
    assert Run(got, []) == Some(got);
    assert Run(sent, [Receives]) == Some(got);
    assert Run(read, [ReaderSends, Receives]) == Some(got);
  }

  /** A failure needs the timeout or a read that ends without the byte; a kill needs a failure or Teardown's timeout. */
  ghost predicate Reasons(timedOut: bool, timedOutAgain: bool, s: State) {
    && (s.main.Killing? || s.main.ReapingFailed? || s.main.ClosingFailed? || s.main.ReturnedErr? ==>
          timedOut || (s.reader == Finished && !s.gotByte))
    && (s.main.Selecting? || s.main.Killing? || s.main.ReturnedOk? || s.main.Draining? ==> !s.doomed)
    && ((s.main.ClosingOk? || s.main.TornDown?) && s.doomed ==> timedOutAgain)
    && (s.main.DrainingAgain? ==> timedOutAgain)
  }

  lemma ProcReasons(timedOut: bool, timedOutAgain: bool, s: State, a: Action)
    requires Inv(s) && Reasons(timedOut, timedOutAgain, s) && Step(s, a).Some?
    requires a.ProcWrites? || a.ProcClosesFd? || a.ProcExits? || a.ProcDies?
    ensures Reasons(timedOut || a == TimesOut, timedOutAgain || a == TimesOutAgain, Step(s, a).value)
  {
  }

  lemma ReaderReasons(timedOut: bool, timedOutAgain: bool, s: State, a: Action)
    requires Inv(s) && Reasons(timedOut, timedOutAgain, s) && Step(s, a).Some?
    requires a.ReaderReads? || a.ReaderSends?
    ensures Reasons(timedOut || a == TimesOut, timedOutAgain || a == TimesOutAgain, Step(s, a).value)
  {
  }

  lemma SetupReasons(timedOut: bool, timedOutAgain: bool, s: State, a: Action)
    requires Inv(s) && Reasons(timedOut, timedOutAgain, s) && Step(s, a).Some?
    requires a.Receives? || a.TimesOut? || a.Kills? || a.Reaps? || a.CloseFails?
    ensures Reasons(timedOut || a == TimesOut, timedOutAgain || a == TimesOutAgain, Step(s, a).value)
  {
  }

  lemma WaiterReasons(timedOut: bool, timedOutAgain: bool, s: State, a: Action)
    requires Inv(s) && Reasons(timedOut, timedOutAgain, s) && Step(s, a).Some?
    requires a.WaiterWaits? || a.WaiterSends?
    ensures Reasons(timedOut || a == TimesOut, timedOutAgain || a == TimesOutAgain, Step(s, a).value)
  {
  }

  lemma TeardownReasons(timedOut: bool, timedOutAgain: bool, s: State, a: Action)
    requires Inv(s) && Reasons(timedOut, timedOutAgain, s) && Step(s, a).Some?
    requires a.BeginsTeardown? || a.ReceivesDone? || a.TimesOutAgain? || a.CloseOk?
    ensures Reasons(timedOut || a == TimesOut, timedOutAgain || a == TimesOutAgain, Step(s, a).value)
  {
  }

  lemma ReasonsKept(timedOut: bool, timedOutAgain: bool, s: State, a: Action)
    requires Inv(s) && Reasons(timedOut, timedOutAgain, s) && Step(s, a).Some?
    ensures Reasons(timedOut || a == TimesOut, timedOutAgain || a == TimesOutAgain, Step(s, a).value)
  {
    hide Inv, Step, Reasons;
    match a
    case ProcWrites | ProcClosesFd | ProcExits | ProcDies => ProcReasons(timedOut, timedOutAgain, s, a);
    case ReaderReads | ReaderSends => ReaderReasons(timedOut, timedOutAgain, s, a);
    case Receives | TimesOut | Kills | Reaps | CloseFails => SetupReasons(timedOut, timedOutAgain, s, a);
    case WaiterWaits | WaiterSends => WaiterReasons(timedOut, timedOutAgain, s, a);
    case BeginsTeardown | ReceivesDone | TimesOutAgain | CloseOk => TeardownReasons(timedOut, timedOutAgain, s, a);
  }

  lemma {:induction false} RunReasons(timedOut: bool, timedOutAgain: bool, s: State, acts: seq<Action>, end: State)
    requires Inv(s) && Reasons(timedOut, timedOutAgain, s) && Run(s, acts) == Some(end)
    ensures Reasons(timedOut || TimesOut in acts, timedOutAgain || TimesOutAgain in acts, end)
    decreases |acts|
  {
    hide Reasons, Step, Inv;
    if acts != [] {
      ReasonsKept(timedOut, timedOutAgain, s, acts[0]);
      StepKeeps(s, acts[0]);
      RunReasons(timedOut || acts[0] == TimesOut, timedOutAgain || acts[0] == TimesOutAgain,
                 Step(s, acts[0]).value, acts[1..], end);
      assert acts == [acts[0]] + acts[1..];
    }
  }

  /** Setup fails only by its timeout or a pipe closed without the byte, and Teardown kills only after its own. */
  lemma {:induction false} KilledForAReason(acts: seq<Action>, s: State)
    requires Run(INIT, acts) == Some(s)
    ensures s.main == ReturnedErr ==> TimesOut in acts || !s.gotByte
    ensures s.main == TornDown && s.doomed ==> TimesOutAgain in acts
  {
    RunReasons(false, false, INIT, acts, s);
  }

  /** A helper that has ended lets Teardown return at once, killed or not. */
  lemma {:induction false} TeardownEnds(acts: seq<Action>, s: State)
    requires Run(INIT, acts) == Some(s) && (s.main == Draining || s.main == DrainingAgain) && s.proc == Zombie
    ensures Run(s, [WaiterWaits, WaiterSends, ReceivesDone, CloseOk]).Some?
    ensures Run(s, [WaiterWaits, WaiterSends, ReceivesDone, CloseOk]).value == s.(main := TornDown, proc := Reaped,
      waiter := Finished, readEnd := false)
  {
    RunKeeps(INIT, acts, s);
    TeardownSteps(s);
    hide Run, Step;
    var waited := s.(waiter := Sending, proc := Reaped);
    var sent := waited.(waiter := Finished, done := true);
    var got := sent.(main := ClosingOk, done := false);
    var end := got.(main := TornDown, readEnd := false);
    RunNone(end);
    RunThen(got, CloseOk, [], end);
    RunThen(sent, ReceivesDone, [CloseOk], end);
    RunThen(waited, WaiterSends, [ReceivesDone, CloseOk], end);
    RunThen(s, WaiterWaits, [WaiterSends, ReceivesDone, CloseOk], end);
    assert [WaiterWaits] + [WaiterSends, ReceivesDone, CloseOk] == [WaiterWaits, WaiterSends, ReceivesDone, CloseOk];
    assert [WaiterSends] + [ReceivesDone, CloseOk] == [WaiterSends, ReceivesDone, CloseOk];
    assert [ReceivesDone] + [CloseOk] == [ReceivesDone, CloseOk] && [CloseOk] + [] == [CloseOk];
  }

  lemma RunNone(s: State)
    ensures Run(s, []) == Some(s)
  {
  }

  lemma RunThen(s: State, a: Action, rest: seq<Action>, end: State)
    requires Step(s, a).Some? && Run(Step(s, a).value, rest) == Some(end)
    ensures Run(s, [a] + rest) == Some(end)
  {
    assert ([a] + rest)[1..] == rest;
  }

  lemma TeardownSteps(s: State)
    requires Inv(s) && (s.main == Draining || s.main == DrainingAgain) && s.proc == Zombie
    ensures var waited := s.(waiter := Sending, proc := Reaped);
            var sent := waited.(waiter := Finished, done := true);
            var got := sent.(main := ClosingOk, done := false);
            && Step(s, WaiterWaits) == Some(waited) && Step(waited, WaiterSends) == Some(sent)
            && Step(sent, ReceivesDone) == Some(got)
            && Step(got, CloseOk) == Some(got.(main := TornDown, readEnd := false))
  {
    WaiterReady(s);
    hide Inv;
  }

  lemma WaiterReady(s: State)
    requires Inv(s) && (s.main == Draining || s.main == DrainingAgain) && s.proc == Zombie
    ensures s.waiter == Blocked && !s.done
  {
  }

  /** Until it is read, the byte is in the pipe. */
  ghost predicate Pending(s: State) { s.reader == Blocked && s.wrote ==> s.byte }

  lemma PendingKept(s: State, a: Action)
    requires Pending(s) && s.reader != NotStarted && Step(s, a).Some?
    ensures Pending(Step(s, a).value)
  {
  }

  lemma {:induction false} RunPending(s: State, acts: seq<Action>, end: State)
    requires Inv(s) && Pending(s) && Run(s, acts) == Some(end)
    ensures Pending(end)
    decreases |acts|
  {
    hide Pending, Step, Inv;
    if acts != [] {
      ReaderStarted(s);
      PendingKept(s, acts[0]);
      StepKeeps(s, acts[0]);
      RunPending(Step(s, acts[0]).value, acts[1..], end);
    }
  }

  lemma ReaderStarted(s: State)
    requires Inv(s)
    ensures s.reader != NotStarted
  {
  }

  lemma WaitingForByte(acts: seq<Action>, s: State)
    requires Run(INIT, acts) == Some(s) && s.reader == Blocked && s.wrote
    ensures s.byte
  {
    RunPending(INIT, acts, s);
  }

  /** Teardown returns only when the process is reaped, its waiter finished and the pipe closed. */
  lemma TeardownReaps(acts: seq<Action>, s: State)
    requires Run(INIT, acts) == Some(s) && s.main == TornDown
    ensures s.proc == Reaped && s.waiter == Finished && s.reader == Finished && !s.readEnd
  {
    RunKeeps(INIT, acts, s);
  }

  /** Neither goroutine is ever blocked on its channel send, whoever has stopped listening. */
  lemma SendsNeverBlock(acts: seq<Action>, s: State)
    requires Run(INIT, acts) == Some(s)
    ensures s.reader == Sending ==> Step(s, ReaderSends).Some?
    ensures s.waiter == Sending ==> Step(s, WaiterSends).Some?
  {
    RunKeeps(INIT, acts, s);
  }

  // ---- progress

  function MainRank(m: Main): nat {
    match m
    case Selecting => 9 case Killing => 8 case ReapingFailed => 7 case ClosingFailed => 6 case ReturnedErr => 0
    case ReturnedOk => 5 case Draining => 4 case DrainingAgain => 3 case ClosingOk => 2 case TornDown => 0
  }

  function HelperRank(h: Helper): nat {
    match h case NotStarted => 3 case Blocked => 2 case Sending => 1 case Finished => 0
  }

  function Measure(s: State): nat {
    MainRank(s.main) + HelperRank(s.reader) + HelperRank(s.waiter)
    + (match s.proc case Alive => 2 case Zombie => 1 case Reaped => 0)
    + (if s.wrote then 0 else 1) + (if s.writer then 1 else 0)
  }

  lemma ProcDecreases(s: State, a: Action)
    requires Inv(s) && Step(s, a).Some? && (a.ProcWrites? || a.ProcClosesFd? || a.ProcExits? || a.ProcDies?)
    ensures Measure(Step(s, a).value) < Measure(s)
  {
  }

  lemma ReaderDecreases(s: State, a: Action)
    requires Inv(s) && Step(s, a).Some? && (a.ReaderReads? || a.ReaderSends?)
    ensures Measure(Step(s, a).value) < Measure(s)
  {
  }

  lemma SetupDecreases(s: State, a: Action)
    requires Inv(s) && Step(s, a).Some? && (a.Receives? || a.TimesOut? || a.Kills? || a.Reaps? || a.CloseFails?)
    ensures Measure(Step(s, a).value) < Measure(s)
  {
  }

  lemma WaiterDecreases(s: State, a: Action)
    requires Inv(s) && Step(s, a).Some? && (a.WaiterWaits? || a.WaiterSends?)
    ensures Measure(Step(s, a).value) < Measure(s)
  {
  }

  lemma TeardownDecreases(s: State, a: Action)
    requires Inv(s) && Step(s, a).Some? && (a.BeginsTeardown? || a.ReceivesDone? || a.TimesOutAgain? || a.CloseOk?)
    ensures Measure(Step(s, a).value) < Measure(s)
  {
  }

  lemma {:induction false} StepDecreases(s: State, a: Action)
    requires Inv(s) && Step(s, a).Some?
    ensures Measure(Step(s, a).value) < Measure(s)
  {
    hide Inv, Step, Measure;
    match a
    case ProcWrites | ProcClosesFd | ProcExits | ProcDies => ProcDecreases(s, a);
    case ReaderReads | ReaderSends => ReaderDecreases(s, a);
    case Receives | TimesOut | Kills | Reaps | CloseFails => SetupDecreases(s, a);
    case WaiterWaits | WaiterSends => WaiterDecreases(s, a);
    case BeginsTeardown | ReceivesDone | TimesOutAgain | CloseOk => TeardownDecreases(s, a);
  }

  /** Every action uses up a finite budget: no interleaving goes on for ever. */
  lemma {:induction false} RunsAreBounded(s: State, acts: seq<Action>, s': State)
    requires Inv(s) && Run(s, acts) == Some(s')
    ensures |acts| + Measure(s') <= Measure(s)
    decreases |acts|
  {
    if acts != [] {
      StepKeeps(s, acts[0]);
      StepDecreases(s, acts[0]);
      RunsAreBounded(Step(s, acts[0]).value, acts[1..], s');
    }
  }

  /** What can always happen next without the process choosing to cooperate (timeouts fire, SIGKILL kills). */
  function Next(s: State): Action {
    match s.main
    case Selecting => TimesOut
    case Killing => Kills
    case ReapingFailed => if s.proc == Alive then ProcDies else Reaps
    case ClosingFailed => CloseFails
    case ReturnedOk => BeginsTeardown
    case Draining => TimesOutAgain
    case DrainingAgain =>
      if s.done then ReceivesDone
      else if s.waiter == Sending then WaiterSends
      else if s.proc == Alive then ProcDies
      else WaiterWaits
    case ClosingOk => CloseOk
    case _ => if s.reader == Blocked then ReaderReads else ReaderSends
  }

  /** Setup and Teardown are never stuck, and after them no goroutine is left hanging. */
  lemma NeverStuck(acts: seq<Action>, s: State)
    requires Run(INIT, acts) == Some(s)
    requires !(s.main == ReturnedErr || s.main == TornDown) || s.reader != Finished
    ensures Step(s, Next(s)).Some?
  {
    RunKeeps(INIT, acts, s);
    CanMove(s);
  }

  lemma CanMove(s: State)
    requires Inv(s)
    requires !(s.main == ReturnedErr || s.main == TornDown) || s.reader != Finished
    ensures Step(s, Next(s)).Some?
  {
  }
}
