/**
 * The handle that host threads share: under its lock they start a worker, send it commands, and take it away to stop
 * it.
 */
module Clipboard {
  import opened Protocol
  import opened Requests
  import X11

  type Command = X11.Command

  /** A worker that is not running has dropped its end of the channel. */
  datatype Worker = Running | Exited | Failed | Panicked

  /** How far a runtime is: in use; taken out of the handle by a `stop`; sent its Stop; joined. */
  datatype Stage = InUse | Taken | Asked | Joined

  /** A worker and its channel: the commands still in it, and those that the worker has received. */
  datatype Runtime = Runtime(queue: seq<Command>, received: seq<Command>, worker: Worker, stage: Stage)
  {
    function Contents(): seq<Command> { received + queue }
  }

  /** All runtimes there ever were, and the one that the handle holds. */
  datatype State = State(current: Option<nat>, runtimes: seq<Runtime>)

  /** The atomic steps of the threads. `stop` is three of them, because it lets go of the lock after the first. */
  datatype Action =
    | Start(spawned: bool)
    | Send(command: Command)
    | Take
    | AskToStop(r: nat)
    | Join(r: nat)
    | Receive(r: nat)
    | Break(r: nat, panics: bool)

  function Initial(): State { State(None, []) }

  /** The end of a channel at which commands go in: they are refused once the worker has dropped the other end. */
  function Pushed(runtime: Runtime, command: Command): Runtime {
    if runtime.worker.Running? then runtime.(queue := runtime.queue + [command]) else runtime
  }

  predicate CurrentIsThere(s: State) { s.current.Some? ==> s.current.value < |s.runtimes| }

  function StartResult(s: State, spawned: bool): Status {
    if s.current.Some? then AlreadyStarted else if spawned then Ok else PlatformError
  }

  function SendResult(s: State): Status
    requires CurrentIsThere(s)
  {
    if s.current.None? then NotStarted
    else if s.runtimes[s.current.value].worker.Running? then Ok
    else PlatformError
  }

  function JoinResult(runtime: Runtime): Status {
    if runtime.worker.Panicked? then PlatformError else Ok
  }

  function Received(runtime: Runtime): Runtime
    requires runtime.queue != []
  {
    runtime.(queue := runtime.queue[1..], received := runtime.received + [runtime.queue[0]],
             worker := if runtime.queue[0].Stop? then Exited else runtime.worker)
  }

  predicate Possible(s: State, action: Action) {
    match action
    case Start(_) => true
    case Send(command) => !command.Stop?
    case Take => true
    case AskToStop(r) => r < |s.runtimes| && s.runtimes[r].stage.Taken?
    case Join(r) => r < |s.runtimes| && s.runtimes[r].stage.Asked? && !s.runtimes[r].worker.Running?
    case Receive(r) => r < |s.runtimes| && s.runtimes[r].worker.Running? && s.runtimes[r].queue != []
    case Break(r, _) => r < |s.runtimes| && s.runtimes[r].worker.Running?
  }

  function Act(s: State, action: Action): State
    requires CurrentIsThere(s) && Possible(s, action)
  {
    match action
    case Start(spawned) =>
      if StartResult(s, spawned) == Ok then
        State(Some(|s.runtimes|), s.runtimes + [Runtime([], [], Running, InUse)])
      else s
    case Send(command) =>
      if s.current.None? then s
      else s.(runtimes := s.runtimes[s.current.value := Pushed(s.runtimes[s.current.value], command)])
    case Take =>
      if s.current.None? then s
      else State(None, s.runtimes[s.current.value := s.runtimes[s.current.value].(stage := Taken)])
    case AskToStop(r) => s.(runtimes := s.runtimes[r := Pushed(s.runtimes[r], X11.Stop).(stage := Asked)])
    case Join(r) => s.(runtimes := s.runtimes[r := s.runtimes[r].(stage := Joined)])
    case Receive(r) => s.(runtimes := s.runtimes[r := Received(s.runtimes[r])])
    case Break(r, panics) =>
      s.(runtimes := s.runtimes[r := s.runtimes[r].(worker := if panics then Panicked else Failed)])
  }

  // ---------------------------------------------------------------- the object

  /** The handle itself; each method is what one thread does between taking the lock, or the like, and letting it go. */
  class Handle {
    var runtime: Option<nat>
    var runtimes: seq<Runtime>

    ghost function View(): State
      reads this
    {
      State(runtime, runtimes)
    }

    ghost predicate Valid()
      reads this
    {
      CurrentIsThere(View())
    }

    constructor ()
      ensures Valid() && View() == Initial()
    {
      runtime, runtimes := None, [];
    }

    method Start(spawned: bool) returns (status: Status)
      requires Valid()
      modifies this
      ensures Valid() && View() == Act(old(View()), Action.Start(spawned))
      ensures status == StartResult(old(View()), spawned)
    {
      if runtime.Some? {
        return AlreadyStarted;
      }
      if !spawned {
        return PlatformError;
      }
      runtime, runtimes := Some(|runtimes|), runtimes + [Runtime([], [], Running, InUse)];
      return Ok;
    }

    method Send(command: Command) returns (status: Status)
      requires Valid() && !command.Stop?
      modifies this
      ensures Valid() && View() == Act(old(View()), Action.Send(command)) && status == SendResult(old(View()))
    {
      if runtime.None? {
        return NotStarted;
      }
      status := PushTo(runtime.value, command);
    }

    /** Put a command into a channel, if the other end is still there. */
    method PushTo(r: nat, command: Command) returns (status: Status)
      requires Valid() && r < |runtimes|
      modifies `runtimes
      ensures runtimes == old(runtimes)[r := Pushed(old(runtimes)[r], command)]
      ensures status == if old(runtimes)[r].worker.Running? then Ok else PlatformError
    {
      if !runtimes[r].worker.Running? {
        return PlatformError;
      }
      runtimes := runtimes[r := runtimes[r].(queue := runtimes[r].queue + [command])];
      return Ok;
    }

    /** The first part of `stop`, under the lock: what it takes is this thread's alone from then on. */
    method Take() returns (taken: Option<nat>)
      requires Valid()
      modifies this
      ensures Valid() && View() == Act(old(View()), Action.Take) && taken == old(View()).current
    {
      taken := runtime;
      runtime := None;
      if taken.Some? {
        runtimes := runtimes[taken.value := runtimes[taken.value].(stage := Taken)];
      }
    }

    /** The second part of `stop`, without the lock; a worker that has gone already is not asked. */
    method AskToStop(r: nat)
      requires Valid() && Possible(View(), Action.AskToStop(r))
      modifies this
      ensures Valid() && View() == Act(old(View()), Action.AskToStop(r))
    {
      var ignored := PushTo(r, X11.Stop);
      runtimes := runtimes[r := runtimes[r].(stage := Asked)];
    }

    /** The last part of `stop`, when the worker has ended. */
    method Join(r: nat) returns (status: Status)
      requires Valid() && Possible(View(), Action.Join(r))
      modifies this
      ensures Valid() && View() == Act(old(View()), Action.Join(r)) && status == JoinResult(old(View()).runtimes[r])
    {
      status := if runtimes[r].worker.Panicked? then PlatformError else Ok;
      runtimes := runtimes[r := runtimes[r].(stage := Joined)];
    }

    /** The worker takes the next command out of its channel, and after a Stop no more. */
    method Receive(r: nat) returns (command: Command)
      requires Valid() && Possible(View(), Action.Receive(r))
      modifies this
      ensures Valid() && View() == Act(old(View()), Action.Receive(r)) && command == old(View()).runtimes[r].queue[0]
    {
      var runtime' := runtimes[r];
      command := runtime'.queue[0];
      runtimes := runtimes[
        r := Runtime(runtime'.queue[1..], runtime'.received + [command],
                     if command.Stop? then Exited else Running, runtime'.stage)];
    }
  }

  // ---------------------------------------------------------------- interleavings

  function Run(actions: seq<Action>): (s: State)
    requires PossibleRun(actions)
    ensures CurrentIsThere(s)
    decreases |actions|, 1
  {
    if actions == [] then Initial() else Act(Run(actions[..|actions| - 1]), actions[|actions| - 1])
  }

  /** Any interleaving of the steps of any number of threads. */
  predicate PossibleRun(actions: seq<Action>)
    decreases |actions|, 0
  {
    actions == [] ||
    (var n := |actions| - 1; PossibleRun(actions[..n]) && Possible(Run(actions[..n]), actions[n]))
  }

  /** The commands whose `send` returned Ok while the handle held runtime `r`, in the order of the lock. */
  function Accepted(actions: seq<Action>, r: nat): seq<Command>
    requires PossibleRun(actions)
  {
    if actions == [] then [] else
      var n := |actions| - 1;
      var s := Run(actions[..n]);
      Accepted(actions[..n], r) + Gained(s, actions[n], r)
  }

  /** The command that a step adds to those accepted for runtime `r`. */
  function Gained(s: State, action: Action, r: nat): seq<Command>
    requires CurrentIsThere(s)
  {
    if action.Send? && s.current == Some(r) && SendResult(s) == Ok then [action.command] else []
  }

  /** What holds of a runtime that got the commands `accepted`. */
  ghost predicate RuntimeInv(runtime: Runtime, held: bool, accepted: seq<Command>) {
    && (held <==> runtime.stage.InUse?)
    && (forall i | 0 <= i < |accepted| :: !accepted[i].Stop?)
    && (if (runtime.stage.Asked? || runtime.stage.Joined?) && X11.Stop in runtime.Contents() then
          runtime.Contents() == accepted + [X11.Stop]
        else
          runtime.Contents() == accepted)
    && (runtime.stage.Asked? && runtime.worker.Running? ==> X11.Stop in runtime.queue)
    && (runtime.worker.Exited? <==> X11.Stop in runtime.received)
    && (runtime.stage.Joined? ==> !runtime.worker.Running?)
  }

  lemma StopNotIn(commands: seq<Command>)
    requires forall i | 0 <= i < |commands| :: !commands[i].Stop?
    ensures X11.Stop !in commands
  {
  }

  lemma ReceivedKeeps(runtime: Runtime, held: bool, accepted: seq<Command>)
    requires RuntimeInv(runtime, held, accepted) && runtime.worker.Running? && runtime.queue != []
    ensures RuntimeInv(Received(runtime), held, accepted) && Received(runtime).Contents() == runtime.Contents()
  {
    var after := Received(runtime);
    assert runtime.queue == [runtime.queue[0]] + runtime.queue[1..];
    assert after.Contents() == runtime.Contents();
    assert X11.Stop in after.received <==> X11.Stop in runtime.received || runtime.queue[0].Stop?;
    assert X11.Stop in runtime.queue <==> runtime.queue[0].Stop? || X11.Stop in after.queue;
  }

  lemma PushedKeeps(runtime: Runtime, accepted: seq<Command>, command: Command)
    requires RuntimeInv(runtime, true, accepted) && !command.Stop?
    ensures RuntimeInv(Pushed(runtime, command), true,
                      if runtime.worker.Running? then accepted + [command] else accepted)
  {
    StopNotIn(accepted);
    if runtime.worker.Running? {
      var after := Pushed(runtime, command);
      assert after.Contents() == runtime.Contents() + [command];
      assert runtime.Contents() == accepted;
      StopNotIn(accepted + [command]);
    }
  }

  lemma AskedKeeps(runtime: Runtime, accepted: seq<Command>)
    requires RuntimeInv(runtime, false, accepted) && runtime.stage.Taken?
    ensures RuntimeInv(Pushed(runtime, X11.Stop).(stage := Asked), false, accepted)
  {
    StopNotIn(accepted);
    var after := Pushed(runtime, X11.Stop).(stage := Asked);
    if runtime.worker.Running? {
      assert after.Contents() == runtime.Contents() + [X11.Stop];
    }
  }

  ghost predicate Inv(s: State, actions: seq<Action>)
    requires PossibleRun(actions)
  {
    forall r: nat | r < |s.runtimes| :: RuntimeInv(s.runtimes[r], s.current == Some(r), Accepted(actions, r))
  }

  lemma {:induction false} NothingBeforeStart(actions: seq<Action>, r: nat)
    requires PossibleRun(actions) && |Run(actions).runtimes| <= r
    ensures Accepted(actions, r) == []
  {
    if actions != [] {
      NothingBeforeStart(actions[..|actions| - 1], r);
    }
  }

  /** In every interleaving, each channel holds exactly what was accepted for it, and at most one Stop, at its end. */
  lemma {:induction false} EveryRunKeepsInv(actions: seq<Action>)
    requires PossibleRun(actions)
    ensures Inv(Run(actions), actions)
  {
    if actions != [] {
      var n := |actions| - 1;
      EveryRunKeepsInv(actions[..n]);
      forall r: nat | r < |Run(actions).runtimes|
        ensures RuntimeInv(Run(actions).runtimes[r], Run(actions).current == Some(r), Accepted(actions, r))
      {
        StepKeepsInv(actions, r);
      }
    }
  }

  lemma StepKeepsInv(actions: seq<Action>, r: nat)
    requires PossibleRun(actions) && actions != [] && r < |Run(actions).runtimes|
    requires Inv(Run(actions[..|actions| - 1]), actions[..|actions| - 1])
    ensures RuntimeInv(Run(actions).runtimes[r], Run(actions).current == Some(r), Accepted(actions, r))
  {
    var s, action := Run(actions[..|actions| - 1]), actions[|actions| - 1];
    var accepted := Accepted(actions[..|actions| - 1], r);
    assert Run(actions) == Act(s, action) && Accepted(actions, r) == accepted + Gained(s, action, r);
    if |s.runtimes| <= r {
      NothingBeforeStart(actions[..|actions| - 1], r);
      StartedRuntime(s, action, r);
    } else {
      assert RuntimeInv(s.runtimes[r], s.current == Some(r), accepted);
      ActKeepsRuntime(s, action, r, accepted);
    }
  }

  lemma StartedRuntime(s: State, action: Action, r: nat)
    requires CurrentIsThere(s) && Possible(s, action) && |s.runtimes| <= r < |Act(s, action).runtimes|
    ensures Gained(s, action, r) == []
    ensures RuntimeInv(Act(s, action).runtimes[r], Act(s, action).current == Some(r), [])
  {
    assert X11.Stop !in Runtime([], [], Running, InUse).Contents();
  }

  lemma ActKeepsRuntime(s: State, action: Action, r: nat, accepted: seq<Command>)
    requires CurrentIsThere(s) && Possible(s, action) && r < |s.runtimes|
    requires RuntimeInv(s.runtimes[r], s.current == Some(r), accepted)
    ensures RuntimeInv(Act(s, action).runtimes[r], Act(s, action).current == Some(r), accepted + Gained(s, action, r))
  {
    assert accepted + [] == accepted;
    match action
    case Send(command) => if s.current == Some(r) { PushedKeeps(s.runtimes[r], accepted, command); }
    case AskToStop(q) => if q == r { AskedKeeps(s.runtimes[r], accepted); }
    case Receive(q) => if q == r { ReceivedKeeps(s.runtimes[r], s.current == Some(r), accepted); }
    case _ =>
  }

  // ---------------------------------------------------------------- what the host is promised

  /** A Stop is the last command that ever goes into a channel, and there is only one. */
  lemma StopIsLast(actions: seq<Action>, r: nat, i: nat)
    requires PossibleRun(actions) && r < |Run(actions).runtimes|
    requires var contents := Run(actions).runtimes[r].Contents(); i < |contents| && contents[i].Stop?
    ensures i == |Run(actions).runtimes[r].Contents()| - 1
    ensures !Run(actions).runtimes[r].stage.InUse? && !Run(actions).runtimes[r].stage.Taken?
  {
    EveryRunKeepsInv(actions);
    var runtime := Run(actions).runtimes[r];
    assert X11.Stop in runtime.Contents();
    assert RuntimeInv(runtime, Run(actions).current == Some(r), Accepted(actions, r));
  }

  /** A worker receives the accepted commands in the order of the lock, each once, and nothing else but a Stop. */
  lemma ReceivedInLockOrder(actions: seq<Action>, r: nat)
    requires PossibleRun(actions) && r < |Run(actions).runtimes|
    ensures Run(actions).runtimes[r].received <= Accepted(actions, r) + [X11.Stop]
  {
    EveryRunKeepsInv(actions);
    var runtime := Run(actions).runtimes[r];
    assert RuntimeInv(runtime, Run(actions).current == Some(r), Accepted(actions, r));
    assert runtime.received <= runtime.Contents();
  }

  /** From the calls alone: a worker was started and has not been taken away since. */
  predicate IsHeld(actions: seq<Action>) {
    actions != [] &&
    (var before := actions[..|actions| - 1];
     match actions[|actions| - 1]
     case Start(spawned) => IsHeld(before) || spawned
     case Take => false
     case _ => IsHeld(before))
  }

  /** How many workers were started. */
  function Started(actions: seq<Action>): nat {
    if actions == [] then 0 else
      var n := |actions| - 1;
      Started(actions[..n]) + if actions[n] == Action.Start(true) && !IsHeld(actions[..n]) then 1 else 0
  }

  lemma {:induction false} HeldInRun(actions: seq<Action>)
    requires PossibleRun(actions)
    ensures |Run(actions).runtimes| == Started(actions)
    ensures IsHeld(actions) ==> Started(actions) > 0
    ensures Run(actions).current == if IsHeld(actions) then Some(Started(actions) - 1) else None
  {
    if actions != [] {
      HeldInRun(actions[..|actions| - 1]);
    }
  }

  /** How a worker can have broken off; it does so at most once. */
  lemma {:induction false} BrokenInRun(actions: seq<Action>, r: nat)
    requires PossibleRun(actions)
    ensures r < |Run(actions).runtimes| ==>
              var worker := Run(actions).runtimes[r].worker;
              && (worker.Panicked? <==> Action.Break(r, true) in actions)
              && (worker.Failed? <==> Action.Break(r, false) in actions)
    ensures r >= |Run(actions).runtimes| ==> Action.Break(r, true) !in actions && Action.Break(r, false) !in actions
  {
    if actions != [] {
      var n := |actions| - 1;
      BrokenInRun(actions[..n], r);
      assert actions == actions[..n] + [actions[n]];
    }
  }

  /**
   * What each call returns follows from the calls before it and from what happened to the workers: a start is refused
   * while a worker is held, a send fails if there is none or if it has broken off, and a join if it panicked.
   */
  lemma StatusesSayWhy(actions: seq<Action>, spawned: bool, r: nat)
    requires PossibleRun(actions)
    ensures var s, last := Run(actions), SatSub(Started(actions), 1);
            && StartResult(s, spawned)
            == (if IsHeld(actions) then AlreadyStarted else if spawned then Ok else PlatformError)
            && SendResult(s)
            == (if !IsHeld(actions) then NotStarted
                else if Action.Break(last, true) in actions || Action.Break(last, false) in actions then PlatformError
                else Ok)
            && (r < |s.runtimes| ==>
                  JoinResult(s.runtimes[r]) == if Action.Break(r, true) in actions then PlatformError else Ok)
  {
    HeldInRun(actions);
    BrokenInRun(actions, r);
    if IsHeld(actions) {
      HeldHasNotExited(actions, Started(actions) - 1);
      BrokenInRun(actions, Started(actions) - 1);
    }
  }

  /** A worker that the handle holds can have broken off, but has not been stopped. */
  lemma HeldHasNotExited(actions: seq<Action>, r: nat)
    requires PossibleRun(actions) && Run(actions).current == Some(r)
    ensures !Run(actions).runtimes[r].worker.Exited?
  {
    EveryRunKeepsInv(actions);
    assert RuntimeInv(Run(actions).runtimes[r], true, Accepted(actions, r));
    assert X11.Stop !in Run(actions).runtimes[r].Contents() by {
      StopNotIn(Accepted(actions, r));
    }
  }

  /** When a `stop` is about to return and the worker has not failed, it has received every accepted command. */
  lemma NothingAcceptedIsLost(actions: seq<Action>, r: nat)
    requires PossibleRun(actions) && Possible(Run(actions), Join(r))
    requires !Run(actions).runtimes[r].worker.Failed? && !Run(actions).runtimes[r].worker.Panicked?
    ensures Run(actions).runtimes[r].received == Accepted(actions, r) + [X11.Stop]
            && Run(actions).runtimes[r].queue == []
    ensures JoinResult(Run(actions).runtimes[r]) == Ok
  {
    EveryRunKeepsInv(actions);
    var runtime, accepted := Run(actions).runtimes[r], Accepted(actions, r);
    assert RuntimeInv(runtime, Run(actions).current == Some(r), accepted);
    var i :| 0 <= i < |runtime.received| && runtime.received[i] == X11.Stop;
    assert runtime.Contents()[i] == X11.Stop;
    StopIsLast(actions, r, i);
    assert runtime.received + [] == runtime.received;
  }

  /**
   * Then the worker's event loop, in whatever turns it found those commands, has brought exactly the accepted ones to
   * the engine: what is taken is what `X11.X11State.EventLoop` takes.
   */
  lemma EngineGetsAllAccepted(actions: seq<Action>, r: nat, turns: seq<X11.Turn>, taken: seq<Command>)
    requires PossibleRun(actions) && Possible(Run(actions), Join(r))
    requires !Run(actions).runtimes[r].worker.Failed? && !Run(actions).runtimes[r].worker.Panicked?
    requires X11.Queued(turns) == Run(actions).runtimes[r].received
    requires X11.IsTaken(taken, turns, true)
    ensures taken == Accepted(actions, r)
  {
    NothingAcceptedIsLost(actions, r);
    var received := X11.Queued(turns);
    assert received[|taken|] == (taken + [X11.Stop])[|taken|] == X11.Stop;
    assert Run(actions).runtimes[r].Contents()[|taken|] == X11.Stop;
    StopIsLast(actions, r, |taken|);
    assert taken == received[..|taken|] == Accepted(actions, r);
  }

  // ---------------------------------------------------------------- how long a stop takes

  /** How many of the further actions are steps of worker `r`. */
  function Receipts(more: seq<Action>, r: nat): nat {
    if more == [] then 0
    else Receipts(more[..|more| - 1], r) + if more[|more| - 1] == Receive(r) then 1 else 0
  }

  /** The worker has been asked to stop and has not failed; it has ended once nothing is queued. */
  ghost predicate Stopping(actions: seq<Action>, r: nat)
    requires PossibleRun(actions)
  {
    r < |Run(actions).runtimes|
    && var runtime := Run(actions).runtimes[r];
       && (runtime.stage.Asked? || runtime.stage.Joined?)
       && (runtime.worker.Running? || runtime.worker.Exited?)
       && (runtime.worker.Exited? <==> runtime.queue == [])
  }

  /** An end is reached with the Stop, which is last, so nothing can be left in the queue. */
  lemma ExitedIsEmpty(actions: seq<Action>, r: nat)
    requires PossibleRun(actions) && r < |Run(actions).runtimes|
    requires var runtime := Run(actions).runtimes[r];
             && (runtime.stage.Asked? || runtime.stage.Joined?) && (runtime.worker.Running? || runtime.worker.Exited?)
    ensures Stopping(actions, r)
  {
    EveryRunKeepsInv(actions);
    var runtime := Run(actions).runtimes[r];
    assert RuntimeInv(runtime, Run(actions).current == Some(r), Accepted(actions, r));
    if runtime.worker.Exited? {
      var i :| 0 <= i < |runtime.received| && runtime.received[i] == X11.Stop;
      assert runtime.Contents()[i] == X11.Stop;
      StopIsLast(actions, r, i);
    }
  }

  lemma StopGoesOn(s: State, action: Action, r: nat)
    requires CurrentIsThere(s) && Possible(s, action) && r < |s.runtimes| && s.current != Some(r)
    requires s.runtimes[r].stage.Asked? || s.runtimes[r].stage.Joined?
    requires s.runtimes[r].worker.Running? || s.runtimes[r].worker.Exited?
    requires !(action.Break? && action.r == r)
    ensures var before, after := s.runtimes[r], Act(s, action).runtimes[r];
            && (after.stage.Asked? || after.stage.Joined?) && (after.worker.Running? || after.worker.Exited?)
            && |after.queue| + (if action == Receive(r) then 1 else 0) == |before.queue|
            && Gained(s, action, r) == []
  {
  }

  lemma StoppingStep(actions: seq<Action>, r: nat)
    requires PossibleRun(actions) && actions != [] && Stopping(actions[..|actions| - 1], r)
    requires var action := actions[|actions| - 1]; !(action.Break? && action.r == r)
    ensures Stopping(actions, r)
    ensures |Run(actions).runtimes[r].queue| + (if actions[|actions| - 1] == Receive(r) then 1 else 0)
         == |Run(actions[..|actions| - 1]).runtimes[r].queue|
    ensures Accepted(actions, r) == Accepted(actions[..|actions| - 1], r)
  {
    var s := Run(actions[..|actions| - 1]);
    EveryRunKeepsInv(actions[..|actions| - 1]);
    assert RuntimeInv(s.runtimes[r], s.current == Some(r), Accepted(actions[..|actions| - 1], r));
    StopGoesOn(s, actions[|actions| - 1], r);
    ExitedIsEmpty(actions, r);
  }

  /**
   * Once a worker is asked to stop, whatever other threads do, its queue only shrinks: it has ended exactly when it
   * has received as many commands as were queued, if it does not fail before.
   */
  lemma {:induction false} StopTakesWhatIsQueued(actions: seq<Action>, more: seq<Action>, r: nat)
    requires PossibleRun(actions) && PossibleRun(actions + more) && Stopping(actions, r)
    requires forall k | 0 <= k < |more| :: !(more[k].Break? && more[k].r == r)
    ensures Stopping(actions + more, r)
    ensures var before, after := Run(actions).runtimes[r], Run(actions + more).runtimes[r];
            && |after.queue| + Receipts(more, r) == |before.queue|
            && (after.worker.Exited? <==> Receipts(more, r) == |before.queue|)
            && Accepted(actions + more, r) == Accepted(actions, r)
    decreases |more|
  {
    if more == [] {
      assert actions + more == actions;
    } else {
      var n := |more| - 1;
      AppendLast(actions, more);
      StopTakesWhatIsQueued(actions, more[..n], r);
      StoppingStep(actions + more, r);
    }
  }
}
