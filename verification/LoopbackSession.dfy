/**
 * The engine as an object next to the X server that it talks to: the event loop, with its events taken from the
 * server's queue and its properties read from the server, plays the moves that the theorems about transfers speak of.
 */
module LoopbackSession {
  import opened Protocol
  import opened Requests
  import opened Engine
  import opened Loopback
  import opened Traces
  import opened LoopbackLaws
  import opened LoopbackTheorems
  import opened LoopbackOrigin
  import Ownership
  import X11

  type Command = X11.Command

  // ---------------------------------------------------------------- what the engine says

  /** The outputs logged from position `n` on. */
  function Said(log: seq<Logged>, n: nat): seq<Output>
    requires n <= |log|
  {
    seq(|log| - n, i requires 0 <= i < |log| - n => log[n + i].output)
  }

  /** A step logs the outputs that it causes. */
  lemma StepSays(cfg: Config, e: Engine, input: Input)
    ensures e.log <= Step(cfg, e, input).log && Said(Step(cfg, e, input).log, |e.log|) == OutputsOf(cfg, e, input)
  {
    var aim := Aim(cfg, e, input);
    var id := if aim.Some? then aim.value.0 else 0;
    assert Step(cfg, e, input).log == e.log + Tag(id, OutputsOf(cfg, e, input));
  }

  lemma SaidInParts(log: seq<Logged>, later: seq<Logged>, n: nat)
    requires n <= |log| && log <= later
    ensures Said(later, n) == Said(log, n) + Said(later, |log|)
  {
  }

  lemma {:induction false} ServeInParts(cfg: Config, s: Server, a: seq<Output>, b: seq<Output>)
    ensures ServeAll(cfg, s, a + b) == ServeAll(cfg, ServeAll(cfg, s, a), b)
    decreases |b|
  {
    if b == [] {
      assert a + b == a;
    } else {
      AppendLast(a, b);
      ServeInParts(cfg, s, a, b[..|b| - 1]);
    }
  }

  /** The server has carried out everything that the engine said since its log was `n` long. */
  ghost predicate CaughtUp(cfg: Config, w: World, before: Server, n: nat) {
    n <= |w.engine.log| && w.server == ServeAll(cfg, before, Said(w.engine.log, n))
  }

  lemma FeedCatchesUp(cfg: Config, w: World, input: Input, v: World)
    requires v.engine == Step(cfg, w.engine, input) && CaughtUp(cfg, v, w.server, |w.engine.log|)
    ensures v == Feed(cfg, w, input)
  {
    StepSays(cfg, w.engine, input);
  }

  /** Inputs of the clock, each as a move. */
  function Moves(inputs: seq<Input>): seq<Move> {
    seq(|inputs|, i requires 0 <= i < |inputs| => Host(inputs[i]))
  }

  lemma MovesSnoc(inputs: seq<Input>)
    requires inputs != []
    ensures Moves(inputs) == Moves(inputs[..|inputs| - 1]) + [Host(inputs[|inputs| - 1])]
  {
  }

  /** A run of such inputs, with the server catching up afterwards, is a play. */
  lemma {:induction false} RunOfClockIsPlay(cfg: Config, w: World, inputs: seq<Input>)
    requires PossibleRun(cfg, w.engine, inputs)
    requires forall i | 0 <= i < |inputs| :: inputs[i].Tick? || inputs[i].ExpireRequest?
    ensures var e := Run(cfg, w.engine, inputs);
            && w.engine.log <= e.log && PossiblePlay(cfg, w, Moves(inputs))
            && Play(cfg, w, Moves(inputs)) == World(e, ServeAll(cfg, w.server, Said(e.log, |w.engine.log|)))
  {
    if inputs == [] {
      assert Said(w.engine.log, |w.engine.log|) == [];
    } else {
      var n := |inputs| - 1;
      RunOfClockIsPlay(cfg, w, inputs[..n]);
      MovesSnoc(inputs);
      PlaySnoc(cfg, w, Moves(inputs[..n]), Host(inputs[n]));
      ClockIsFed(cfg, w, Run(cfg, w.engine, inputs[..n]), inputs[n]);
    }
  }

  /** One more input, after the server has caught up with the others. */
  lemma ClockIsFed(cfg: Config, w: World, e: Engine, input: Input)
    requires w.engine.log <= e.log && (input.Tick? || input.ExpireRequest?) && Possible(cfg, e, input)
    ensures var n, e' := |w.engine.log|, Step(cfg, e, input);
            var v := World(e, ServeAll(cfg, w.server, Said(e.log, n)));
            && w.engine.log <= e'.log && PossibleMove(cfg, v, Host(input))
            && Next(cfg, v, Host(input)) == World(e', ServeAll(cfg, w.server, Said(e'.log, n)))
  {
    StepSays(cfg, e, input);
    SaidInParts(e.log, Step(cfg, e, input).log, |w.engine.log|);
    ServeInParts(cfg, w.server, Said(e.log, |w.engine.log|), OutputsOf(cfg, e, input));
  }

  // ---------------------------------------------------------------- the session

  /** The command, with the server's answer to the round trips that it causes if those succeed. */
  function WithAnswer(s: Server, command: Command): Command {
    match command
    case Clear(_) => X11.Clear(s.owner)
    case AskForTargets(Owner(_)) => X11.AskForTargets(Owner(s.owner))
    case AskForData(name, maxBytes, Owner(_)) => X11.AskForData(name, maxBytes, Owner(s.owner))
    case _ => command
  }

  /** A command with the server's answer is a move that can be made. */
  lemma CommandIsMove(cfg: Config, w: World, command: Command, input: Input)
    requires !command.Stop? && X11.CommandOf(input) == Some(WithAnswer(w.server, command))
    requires Possible(cfg, w.engine, input)
    ensures PossibleMove(cfg, w, Host(input))
  {
  }

  /** What happens while the loop polls for events: others act on the server, and the loop takes its events. */
  datatype Happening =
    | Heard(event: XEvent)
    | TakenBy(window: Window)
    | Polled(verdict: Status)

  datatype SessionTurn = SessionTurn(commands: seq<Command>, happenings: seq<Happening>, elapsed: nat)

  // ---------------------------------------------------------------- what a turn comes to in the world

  /** The move carries the command, with the server's answer to the round trips that it causes. */
  predicate Carries(w: World, move: Move, command: Command) {
    move.Host? && X11.CommandOf(move.input) == Some(WithAnswer(w.server, command))
  }

  predicate IsTold(cfg: Config, w: World, command: Command, moves: seq<Move>, i: nat)
    requires i < |moves|
  {
    Carries(Play(cfg, w, moves[..i]), moves[i], command)
  }

  /** One move for each command, in order, up to a Stop. */
  ghost predicate AreTold(cfg: Config, w: World, commands: seq<Command>, moves: seq<Move>) {
    && |moves| <= |commands|
    && (forall i | 0 <= i < |moves| :: !commands[i].Stop? && IsTold(cfg, w, commands[i], moves, i))
    && (|moves| < |commands| ==> commands[|moves|].Stop?)
  }

  /** What happens is what the move does; a poll delivers the event at the head of the queue, if there is one. */
  predicate IsHappening(w: World, happening: Happening, moves: seq<Move>) {
    match happening
    case Heard(event) => moves == [Foreign(event)]
    case TakenBy(window) => moves == [Taken(window)]
    case Polled(verdict) =>
      if w.server.queue == [] then moves == []
      else |moves| == 1 && moves[0].Deliver? && moves[0].verdict == verdict
  }

  /** All of it, in order. */
  ghost predicate HaveHappened(cfg: Config, w: World, happenings: seq<Happening>, moves: seq<Move>) {
    if happenings == [] then moves == [] else
      exists k | 0 <= k <= |moves| ::
        && HaveHappened(cfg, w, happenings[..|happenings| - 1], moves[..k])
        && IsHappening(Play(cfg, w, moves[..k]), happenings[|happenings| - 1], moves[k..])
  }

  lemma OneMoreHappened(cfg: Config, w: World, happenings: seq<Happening>, i: nat, moves: seq<Move>, more: seq<Move>)
    requires i < |happenings| && HaveHappened(cfg, w, happenings[..i], moves)
    requires IsHappening(Play(cfg, w, moves), happenings[i], more)
    ensures HaveHappened(cfg, w, happenings[..i + 1], moves + more)
  {
    TakeOneMore(happenings, i);
    assert happenings[..i + 1][..i] == happenings[..i];
    assert (moves + more)[..|moves|] == moves && (moves + more)[|moves|..] == more;
  }

  /** Time passes, and requests expire until none is overdue. */
  ghost predicate IsSwept(cfg: Config, w: World, elapsed: nat, moves: seq<Move>) {
    && moves != [] && moves[0] == Host(Tick(w.engine.clock + elapsed))
    && (forall i | 1 <= i < |moves| :: moves[i].Host? && moves[i].input.ExpireRequest?)
    && var e := Play(cfg, w, moves).engine; forall id | id in e.pending :: e.clock < e.pending[id].Deadline()
  }

  /** A whole turn: all commands, then all that happens, then the sweep. */
  ghost predicate IsTurn(cfg: Config, w: World, turn: SessionTurn, moves: seq<Move>) {
    exists a, b | 0 <= a <= b <= |moves| :: IsTurnAt(cfg, w, turn, moves, a, b)
  }

  ghost predicate IsTurnAt(cfg: Config, w: World, turn: SessionTurn, moves: seq<Move>, a: int, b: int)
    requires 0 <= a <= b <= |moves|
  {
    && a == |turn.commands| && AreTold(cfg, w, turn.commands, moves[..a])
    && HaveHappened(cfg, Play(cfg, w, moves[..a]), turn.happenings, moves[a..b])
    && IsSwept(cfg, Play(cfg, w, moves[..b]), turn.elapsed, moves[b..])
  }

  lemma TurnInParts(cfg: Config, w: World, turn: SessionTurn, told: seq<Move>, polled: seq<Move>, swept: seq<Move>)
    requires AreTold(cfg, w, turn.commands, told) && |told| == |turn.commands|
    requires HaveHappened(cfg, Play(cfg, w, told), turn.happenings, polled)
    requires IsSwept(cfg, Play(cfg, w, told + polled), turn.elapsed, swept)
    ensures IsTurn(cfg, w, turn, told + polled + swept)
  {
    var whole := told + polled + swept;
    var a, b := |told|, |told + polled|;
    assert whole[..a] == told && whole[a..b] == polled && whole[..b] == told + polled && whole[b..] == swept;
    assert IsTurnAt(cfg, w, turn, whole, a, b);
  }

  /** Some whole turns, one after the other. */
  ghost predicate AreTurns(cfg: Config, w: World, turns: seq<SessionTurn>, moves: seq<Move>) {
    if turns == [] then moves == [] else
      exists k | 0 <= k <= |moves| ::
        && AreTurns(cfg, w, turns[..|turns| - 1], moves[..k])
        && IsTurn(cfg, Play(cfg, w, moves[..k]), turns[|turns| - 1], moves[k..])
  }

  lemma OneMoreTurn(cfg: Config, w: World, turns: seq<SessionTurn>, i: nat, moves: seq<Move>, more: seq<Move>)
    requires i < |turns| && AreTurns(cfg, w, turns[..i], moves) && IsTurn(cfg, Play(cfg, w, moves), turns[i], more)
    ensures AreTurns(cfg, w, turns[..i + 1], moves + more)
  {
    TakeOneMore(turns, i);
    assert turns[..i + 1][..i] == turns[..i];
    assert (moves + more)[..|moves|] == moves && (moves + more)[|moves|..] == more;
  }

  /** Whole turns, and then, if the loop stopped, the commands before the Stop and the final clear. */
  ghost predicate IsLoop(cfg: Config, w: World, turns: seq<SessionTurn>, moves: seq<Move>, stopped: bool) {
    if !stopped then AreTurns(cfg, w, turns, moves) else
      exists i, k | 0 <= i < |turns| && 0 <= k < |moves| :: StopsAt(cfg, w, turns, moves, i, k)
  }

  ghost predicate StopsAt(cfg: Config, w: World, turns: seq<SessionTurn>, moves: seq<Move>, i: int, k: int)
    requires 0 <= i < |turns| && 0 <= k < |moves|
  {
    var n := |moves| - 1;
    && AreTurns(cfg, w, turns[..i], moves[..k])
    && AreTold(cfg, Play(cfg, w, moves[..k]), turns[i].commands, moves[k..n]) && n - k < |turns[i].commands|
    && Carries(Play(cfg, w, moves[..n]), moves[n], X11.Clear(0))
  }

  lemma LoopStops(cfg: Config, w: World, turns: seq<SessionTurn>, i: nat, moves: seq<Move>, told: seq<Move>, last: Move)
    requires i < |turns| && AreTurns(cfg, w, turns[..i], moves)
    requires AreTold(cfg, Play(cfg, w, moves), turns[i].commands, told) && |told| < |turns[i].commands|
    requires Carries(Play(cfg, w, moves + told), last, X11.Clear(0))
    ensures IsLoop(cfg, w, turns, moves + told + [last], true)
  {
    var whole, k, n := moves + told + [last], |moves|, |moves + told|;
    assert whole[..k] == moves && whole[k..n] == told && whole[..n] == moves + told;
    assert StopsAt(cfg, w, turns, whole, i, k);
  }

  class Session {
    const engine: X11.X11State
    var server: Server

    ghost function View(): World
      reads this, engine
    {
      World(engine.View(), server)
    }

    ghost predicate Valid()
      reads engine
    {
      engine.Valid()
    }

    constructor (cfg: Config, now: nat)
      ensures Valid() && fresh(engine) && engine.cfg == cfg && View() == Origin(now)
    {
      engine := new X11.X11State(cfg, now);
      server := Server(map[], [], 0);
    }

    /** The server carries out what the engine has said since its log was `n` long. */
    method CatchUp(n: nat)
      requires n <= |engine.log|
      modifies this
      ensures CaughtUp(engine.cfg, View(), old(server), n)
    {
      server := ServeAll(engine.cfg, server, Said(engine.log, n));
    }

    method Do(command: Command) returns (ghost move: Move)
      requires Valid() && !command.Stop?
      modifies this, engine
      ensures Valid() && PossibleMove(engine.cfg, old(View()), move)
      ensures View() == Next(engine.cfg, old(View()), move)
      ensures move.Host? && X11.CommandOf(move.input) == Some(WithAnswer(old(server), command))
    {
      var n := |engine.log|;
      ghost var input := engine.Handle(WithAnswer(server, command));
      move := Host(input);
      CommandIsMove(engine.cfg, old(View()), command, input);
      StepSays(engine.cfg, old(View()).engine, input);
      CatchUp(n);
      FeedCatchesUp(engine.cfg, old(View()), input, View());
    }

    /** One more command after a play. */
    method DoAfter(command: Command, ghost start: World, ghost moves: seq<Move>) returns (ghost more: seq<Move>)
      requires Valid() && !command.Stop?
      requires PossiblePlay(engine.cfg, start, moves) && View() == Play(engine.cfg, start, moves)
      modifies this, engine
      ensures Valid() && PossiblePlay(engine.cfg, start, more) && View() == Play(engine.cfg, start, more)
      ensures |more| == |moves| + 1 && more[..|moves|] == moves && Carries(old(View()), more[|moves|], command)
    {
      ghost var before := View();
      ghost var move := Do(command);
      OneMoreMove(engine.cfg, start, moves, before, move, View());
      more := moves + [move];
    }

    /** The event at the head of the queue, with the property that the server then holds. */
    method Deliver(verdict: Status) returns (ghost move: Move)
      requires Valid() && server.queue != []
      modifies this, engine
      ensures Valid() && move.Deliver? && move.verdict == verdict && PossibleMove(engine.cfg, old(View()), move)
      ensures View() == Next(engine.cfg, old(View()), move)
    {
      var n, event := |engine.log|, server.queue[0];
      ghost var popped := Popped(View());
      server := server.(queue := server.queue[1..]);
      ghost var input := engine.HandleEvent(EventOf(server, event, verdict));
      move := DeliveryOf(input, verdict);
      StepSays(engine.cfg, popped.engine, input);
      CatchUp(n);
      FeedCatchesUp(engine.cfg, popped, input, View());
      InputIsDelivered(engine.cfg, old(View()), verdict, input);
    }

    method Happen(happening: Happening) returns (ghost moves: seq<Move>)
      requires Valid()
      modifies this, engine
      ensures Valid() && PossiblePlay(engine.cfg, old(View()), moves)
      ensures View() == Play(engine.cfg, old(View()), moves) && IsHappening(old(View()), happening, moves)
    {
      moves := [];
      match happening
      case Heard(event) =>
        server := server.(queue := server.queue + [event]);
        moves := [Foreign(event)];
        PlaySnoc(engine.cfg, old(View()), [], Foreign(event));
      case TakenBy(window) =>
        server := OwnedBy(engine.cfg, server, window);
        moves := [Taken(window)];
        PlaySnoc(engine.cfg, old(View()), [], Taken(window));
      case Polled(verdict) =>
        if server.queue != [] {
          ghost var move := Deliver(verdict);
          moves := [move];
          PlaySnoc(engine.cfg, old(View()), [], move);
        }
    }

    method Sweep(elapsed: nat) returns (ghost moves: seq<Move>)
      requires Valid()
      modifies this, engine
      ensures Valid() && PossiblePlay(engine.cfg, old(View()), moves)
      ensures View() == Play(engine.cfg, old(View()), moves) && IsSwept(engine.cfg, old(View()), elapsed, moves)
    {
      var n := |engine.log|;
      ghost var inputs := engine.SweepAfter(elapsed);
      RunOfClockIsPlay(engine.cfg, old(View()), inputs);
      SweepIsSeen(engine.cfg, old(View()), elapsed, inputs);
      CatchUp(n);
      moves := Moves(inputs);
    }

    /** The queued commands, up to a Stop. */
    method DrainCommands(commands: seq<X11.Command>) returns (stopped: bool, ghost moves: seq<Move>)
      requires Valid()
      modifies this, engine
      ensures Valid() && PossiblePlay(engine.cfg, old(View()), moves)
      ensures View() == Play(engine.cfg, old(View()), moves) && AreTold(engine.cfg, old(View()), commands, moves)
      ensures stopped <==> |moves| < |commands|
    {
      moves := [];
      for i := 0 to |commands|
        invariant Valid() && PossiblePlay(engine.cfg, old(View()), moves)
        invariant View() == Play(engine.cfg, old(View()), moves)
        invariant |moves| == i && AreTold(engine.cfg, old(View()), commands[..i], moves)
      {
        if commands[i].Stop? {
          StoppedWhere(engine.cfg, old(View()), commands, i, moves);
          return true, moves;
        }
        ghost var before := moves;
        moves := DoAfter(commands[i], old(View()), moves);
        OneMoreTold(engine.cfg, old(View()), commands, i, before, moves);
      }
      stopped := false;
      assert commands[..|commands|] == commands;
    }

    /** The events that are polled, and what else happens meanwhile. */
    method PollEvents(happenings: seq<Happening>) returns (ghost moves: seq<Move>)
      requires Valid()
      modifies this, engine
      ensures Valid() && PossiblePlay(engine.cfg, old(View()), moves)
      ensures View() == Play(engine.cfg, old(View()), moves)
      ensures HaveHappened(engine.cfg, old(View()), happenings, moves)
    {
      moves := [];
      for i := 0 to |happenings|
        invariant Valid() && PossiblePlay(engine.cfg, old(View()), moves)
        invariant View() == Play(engine.cfg, old(View()), moves)
        invariant HaveHappened(engine.cfg, old(View()), happenings[..i], moves)
      {
        ghost var more := Happen(happenings[i]);
        OneMoreHappened(engine.cfg, old(View()), happenings, i, moves, more);
        PlayJoins(engine.cfg, old(View()), moves, more);
        moves := moves + more;
      }
      assert happenings[..|happenings|] == happenings;
    }

    /** Commands up to a Stop, then events and whatever else happens, then deadlines. */
    method TakeTurn(turn: SessionTurn) returns (stopped: bool, ghost moves: seq<Move>)
      requires Valid()
      modifies this, engine
      ensures Valid() && PossiblePlay(engine.cfg, old(View()), moves)
      ensures View() == Play(engine.cfg, old(View()), moves)
      ensures if stopped then AreTold(engine.cfg, old(View()), turn.commands, moves) && |moves| < |turn.commands|
              else IsTurn(engine.cfg, old(View()), turn, moves)
    {
      stopped, moves := DrainCommands(turn.commands);
      if !stopped {
        ghost var polled := PollEvents(turn.happenings);
        PlayJoins(engine.cfg, old(View()), moves, polled);
        ghost var swept := Sweep(turn.elapsed);
        PlayJoins(engine.cfg, old(View()), moves + polled, swept);
        TurnInParts(engine.cfg, old(View()), turn, moves, polled, swept);
        moves := moves + polled + swept;
      }
    }

    /** The event loop against the server is a play of the world, made of what the turns find and of nothing else. */
    method EventLoop(turns: seq<SessionTurn>) returns (stopped: bool, ghost moves: seq<Move>)
      requires Valid()
      modifies this, engine
      ensures Valid() && PossiblePlay(engine.cfg, old(View()), moves)
      ensures View() == Play(engine.cfg, old(View()), moves)
      ensures IsLoop(engine.cfg, old(View()), turns, moves, stopped)
      ensures stopped && engine.cfg.window != 0 ==> server.owner != engine.cfg.window
      ensures stopped ==> engine.published == map[] && engine.pending == map[]
    {
      moves := [];
      for i := 0 to |turns|
        invariant Valid() && PossiblePlay(engine.cfg, old(View()), moves)
        invariant View() == Play(engine.cfg, old(View()), moves)
        invariant AreTurns(engine.cfg, old(View()), turns[..i], moves)
      {
        ghost var more;
        stopped, more := TakeTurn(turns[i]);
        PlayJoins(engine.cfg, old(View()), moves, more);
        if stopped {
          ghost var last := Finish(old(View()), moves + more);
          LoopStops(engine.cfg, old(View()), turns, i, moves, more, last);
          moves := moves + more + [last];
          return;
        }
        OneMoreTurn(engine.cfg, old(View()), turns, i, moves, more);
        moves := moves + more;
      }
      stopped := false;
      assert turns[..|turns|] == turns;
    }

    /** After a Stop the selection is given up and both tables are emptied. */
    method Finish(ghost start: World, ghost moves: seq<Move>) returns (ghost last: Move)
      requires Valid() && PossiblePlay(engine.cfg, start, moves) && View() == Play(engine.cfg, start, moves)
      modifies this, engine
      ensures Valid() && PossiblePlay(engine.cfg, start, moves + [last])
      ensures View() == Play(engine.cfg, start, moves + [last]) && Carries(old(View()), last, X11.Clear(0))
      ensures engine.cfg.window != 0 ==> server.owner != engine.cfg.window
      ensures engine.published == map[] && engine.pending == map[]
    {
      ghost var before := View();
      last := Do(X11.Clear(server.owner));
      ClearEnds(engine.cfg, before, last);
      OneMoreMove(engine.cfg, start, moves, before, last, View());
    }
  }

  lemma SweepIsSeen(cfg: Config, w: World, elapsed: nat, inputs: seq<Input>)
    requires X11.IsSweep(cfg, w.engine, elapsed, inputs)
    requires Play(cfg, w, Moves(inputs)).engine == Run(cfg, w.engine, inputs)
    ensures IsSwept(cfg, w, elapsed, Moves(inputs))
  {
    forall i | 1 <= i < |Moves(inputs)| ensures Moves(inputs)[i].Host? && Moves(inputs)[i].input.ExpireRequest? {
      assert inputs[i].ExpireRequest?;
    }
  }

  lemma OneMoreTold(cfg: Config, w: World, commands: seq<Command>, i: nat, moves: seq<Move>, more: seq<Move>)
    requires i < |commands| && |moves| == i && AreTold(cfg, w, commands[..i], moves) && !commands[i].Stop?
    requires |more| == i + 1 && more[..i] == moves && Carries(Play(cfg, w, moves), more[i], commands[i])
    ensures AreTold(cfg, w, commands[..i + 1], more)
  {
    var some := commands[..i + 1];
    forall j: nat | j < |more| ensures !some[j].Stop? && IsTold(cfg, w, some[j], more, j) {
      assert more[..i][..j] == more[..j];
      if j < i {
        assert !commands[..i][j].Stop? && IsTold(cfg, w, commands[..i][j], moves, j);
      }
    }
  }

  lemma StoppedWhere(cfg: Config, w: World, commands: seq<Command>, i: nat, moves: seq<Move>)
    requires i < |commands| && |moves| == i && AreTold(cfg, w, commands[..i], moves) && commands[i].Stop?
    ensures AreTold(cfg, w, commands, moves)
  {
    forall j: nat | j < |moves| ensures !commands[j].Stop? && IsTold(cfg, w, commands[j], moves, j) {
      assert !commands[..i][j].Stop? && IsTold(cfg, w, commands[..i][j], moves, j);
    }
  }

  lemma OneMoreMove(cfg: Config, start: World, moves: seq<Move>, w: World, move: Move, v: World)
    requires PossiblePlay(cfg, start, moves) && w == Play(cfg, start, moves)
    requires PossibleMove(cfg, w, move) && v == Next(cfg, w, move)
    ensures PossiblePlay(cfg, start, moves + [move]) && v == Play(cfg, start, moves + [move])
  {
    PlaySnoc(cfg, start, moves, move);
  }

  /** After a clear neither table holds anything, and the selection is not ours. */
  lemma ClearEnds(cfg: Config, w: World, move: Move)
    requires move.Host? && X11.CommandOf(move.input) == Some(X11.Clear(w.server.owner))
    ensures var v := Next(cfg, w, move);
            && (cfg.window != 0 ==> v.server.owner != cfg.window)
            && v.engine.published == map[] && v.engine.pending == map[]
  {
    assert move == Host(ClearSelection(w.server.owner));
    Ownership.MoveAndOwner(cfg, w, move);
  }

  /** The delivery, as the tables happened to be walked. */
  function DeliveryOf(input: Input, verdict: Status): Move {
    Loopback.Deliver(if input.SelectionNotify? || input.PropertyNotify? then input.choice else None,
                     verdict, if input.SelectionRequest? then input.listing else [])
  }

  lemma InputIsDelivered(cfg: Config, w: World, verdict: Status, input: Input)
    requires w.server.queue != [] && Possible(cfg, w.engine, input)
    requires X11.Means(EventOf(w.server, w.server.queue[0], verdict), input)
    ensures PossibleMove(cfg, w, DeliveryOf(input, verdict))
    ensures Next(cfg, w, DeliveryOf(input, verdict)) == Feed(cfg, Popped(w), input)
  {
  }

  function EventOf(s: Server, event: XEvent, verdict: Status): X11.Event {
    match event
    case Asked(req) => X11.SelectionRequested(req, verdict)
    case Told(note) => X11.SelectionNotified(note, Lookup(s.slots, note.property))
    case Changed(window, atom, deleted) => X11.PropertyNotified(window, atom, deleted, Lookup(s.slots, atom))
    case OwnershipLost => X11.SelectionCleared
  }

  // ---------------------------------------------------------------- the link to the theorems

  /** A play is civil if other clients keep off the property, lengths are lengths, and the ids do not run out. */
  lemma {:induction false} PlaysAreCivil(cfg: Config, p: Atom, w: World, moves: seq<Move>)
    requires PossiblePlay(cfg, w, moves) && EngineLaws.IdsInv(w.engine) && Play(cfg, w, moves).engine.nextId < U64_MAX
    requires forall i | 0 <= i < |moves| :: Civil(cfg, p, moves[i])
    ensures CivilRun(cfg, p, w, moves) && EngineLaws.IdsInv(Play(cfg, w, moves).engine)
  {
    if moves != [] {
      var n := |moves| - 1;
      var v := Play(cfg, w, moves[..n]);
      IdsInPlay(cfg, w, moves[..n]);
      NextIdGrows(cfg, v, moves[n]);
      PlaysAreCivil(cfg, p, w, moves[..n]);
      IdsInPlay(cfg, w, moves);
    }
  }

  lemma {:induction false} IdsInPlay(cfg: Config, w: World, moves: seq<Move>)
    requires PossiblePlay(cfg, w, moves) && EngineLaws.IdsInv(w.engine)
    ensures EngineLaws.IdsInv(Play(cfg, w, moves).engine)
  {
    if moves != [] {
      var n := |moves| - 1;
      var v := Play(cfg, w, moves[..n]);
      IdsInPlay(cfg, w, moves[..n]);
      MoveRunsEngine(cfg, v, moves[n]);
      if InputOf(v, moves[n]) != [] {
        EngineLaws.IdsKept(cfg, v.engine, InputOf(v, moves[n])[0]);
      }
    }
  }

  /** So a session whose loop has played an errand, with nothing left on its way, has logged exactly the result. */
  lemma ErrandInSession(cfg: Config, s: Errand, w: World)
    requires s.Sensible(cfg) && s.Served(cfg)
    requires PossiblePlay(cfg, Origin(s.now), s.ToHost(cfg) + s.AtLast(cfg))
    requires w == Play(cfg, Origin(s.now), s.ToHost(cfg) + s.AtLast(cfg)) && w.engine.nextId < U64_MAX
    requires forall move | move in s.ToHost(cfg) + s.AtLast(cfg) :: Civil(cfg, s.Link(cfg).p, move)
    requires SmoothRun(cfg, s.Link(cfg), s.AtHost(cfg), s.AtLast(cfg))
    requires Completes(cfg, s.Link(cfg), Play(cfg, s.AtHost(cfg), s.before), s.Completion(cfg), s.data)
    requires Flight(cfg, s.Link(cfg).p, w.server.queue) == []
    ensures Results(Trace(w.engine.log, s.Link(cfg).receiver))
         == [if |s.data| <= s.Limit(cfg) then Data(s.name, Ok, s.data) else Data(s.name, Unsupported, [])]
  {
    PlaysAreCivil(cfg, s.Link(cfg).p, Origin(s.now), s.ToHost(cfg) + s.AtLast(cfg));
    ErrandDeliversData(cfg, s);
  }
}
