/** The selection's owner in the world: who takes it, who gives it up, and what the host is told when it is lost. */
module Ownership {
  import opened Protocol
  import opened Requests
  import opened Engine
  import opened Loopback
  import opened RequestLaws

  /** Nothing about the selection's owner. */
  predicate Neutral(outputs: seq<Output>) {
    forall i | 0 <= i < |outputs| :: !outputs[i].SetOwner? && !outputs[i].OwnerLost?
  }

  /** No request has a say in who owns the selection. */
  lemma RequestsAreNeutral(cfg: Config, id: nat, entry: Option<PendingRequest>, stimulus: Stimulus, now: nat)
    ensures Neutral(React(cfg, id, entry, stimulus, now).outputs)
  {
    OutputsBelong(cfg, id, entry, stimulus, now);
  }

  // ---------------------------------------------------------------- counting

  /** The losses that are queued and not yet delivered. */
  function Queued(queue: seq<XEvent>): nat {
    if queue == [] then 0 else Queued(queue[1..]) + if queue[0].OwnershipLost? then 1 else 0
  }

  lemma {:induction false} QueuedSnoc(queue: seq<XEvent>, event: XEvent)
    ensures Queued(queue + [event]) == Queued(queue) + if event.OwnershipLost? then 1 else 0
  {
    if queue == [] {
      assert queue + [event] == [event];
    } else {
      QueuedSnoc(queue[1..], event);
      assert (queue + [event])[1..] == queue[1..] + [event];
    }
  }

  /** The times that the host was told of a loss. */
  function TimesTold(log: seq<Logged>): nat {
    if log == [] then 0
    else TimesTold(log[..|log| - 1]) + if log[|log| - 1].output.OwnerLost? then 1 else 0
  }

  lemma {:induction false} NeutralTellsNothing(log: seq<Logged>, id: nat, outputs: seq<Output>)
    requires Neutral(outputs)
    ensures TimesTold(log + Tag(id, outputs)) == TimesTold(log)
  {
    if outputs == [] {
      assert log + Tag(id, outputs) == log;
    } else {
      var n := |outputs| - 1;
      NeutralTellsNothing(log, id, outputs[..n]);
      var whole := log + Tag(id, outputs);
      assert whole[..|whole| - 1] == log + Tag(id, outputs[..n]);
    }
  }

  lemma {:induction false} NeutralLeavesOwner(cfg: Config, s: Server, outputs: seq<Output>)
    requires Neutral(outputs)
    ensures var s' := ServeAll(cfg, s, outputs); s'.owner == s.owner && Queued(s'.queue) == Queued(s.queue)
  {
    if outputs != [] {
      var n := |outputs| - 1;
      NeutralLeavesOwner(cfg, s, outputs[..n]);
      OneLeavesOwner(cfg, ServeAll(cfg, s, outputs[..n]), outputs[n]);
    }
  }

  lemma OneLeavesOwner(cfg: Config, s: Server, o: Output)
    requires !o.SetOwner?
    ensures var s' := Serve(cfg, s, o); s'.owner == s.owner && Queued(s'.queue) == Queued(s.queue)
  {
    var s' := Serve(cfg, s, o);
    if s'.queue != s.queue {
      var last := s'.queue[|s'.queue| - 1];
      assert s'.queue == s.queue + [last];
      QueuedSnoc(s.queue, last);
    }
  }

  // ---------------------------------------------------------------- one move

  /** Who owns the selection after a move; only publishing, clearing and other clients change that. */
  function OwnerAfter(cfg: Config, w: World, move: Move): Window {
    match move
    case Host(PublishTargets(_)) => cfg.window
    case Host(ClearSelection(owner)) => if owner == cfg.window then 0 else w.server.owner
    case Taken(window) => window
    case _ => w.server.owner
  }

  /** The move takes the selection away from us, or another client says that it did. */
  predicate LosesOwnership(cfg: Config, w: World, move: Move) {
    || (w.server.owner == cfg.window && OwnerAfter(cfg, w, move) != cfg.window)
    || move == Foreign(OwnershipLost)
  }

  /** The losses that the host was told of or is yet to be told of. */
  function Known(w: World): nat { TimesTold(w.engine.log) + Queued(w.server.queue) }

  /** The request, if any, that the outputs of an input are logged for. */
  function LoggedFor(cfg: Config, e: Engine, input: Input): nat {
    if Aim(cfg, e, input).Some? then Aim(cfg, e, input).value.0 else 0
  }

  lemma StepLogs(cfg: Config, e: Engine, input: Input)
    ensures Step(cfg, e, input).log == e.log + Tag(LoggedFor(cfg, e, input), OutputsOf(cfg, e, input))
  {
  }

  lemma InputIsNeutral(cfg: Config, e: Engine, input: Input)
    requires !input.PublishTargets? && !input.ClearSelection? && !input.SelectionClear?
    ensures Neutral(OutputsOf(cfg, e, input))
  {
    var aim := Aim(cfg, e, input);
    if aim.Some? {
      RequestsAreNeutral(cfg, aim.value.0, Lookup(e.pending, aim.value.0), aim.value.1, e.clock);
    }
  }

  lemma NeutralInputKeeps(cfg: Config, w: World, input: Input)
    requires !input.PublishTargets? && !input.ClearSelection? && !input.SelectionClear?
    ensures Feed(cfg, w, input).server.owner == w.server.owner && Known(Feed(cfg, w, input)) == Known(w)
  {
    var said := OutputsOf(cfg, w.engine, input);
    InputIsNeutral(cfg, w.engine, input);
    assert TimesTold(Step(cfg, w.engine, input).log) == TimesTold(w.engine.log) by {
      StepLogs(cfg, w.engine, input);
      NeutralTellsNothing(w.engine.log, LoggedFor(cfg, w.engine, input), said);
    }
    NeutralLeavesOwner(cfg, w.server, said);
  }

  lemma OwnerServed(cfg: Config, s: Server, window: Window)
    ensures var s' := ServeAll(cfg, s, [SetOwner(window)]);
            && s'.owner == window
            && Queued(s'.queue) == Queued(s.queue) + if s.owner == cfg.window != window then 1 else 0
  {
    assert ServeAll(cfg, s, [SetOwner(window)][..0]) == s;
    QueuedSnoc(s.queue, OwnershipLost);
  }

  lemma OwnershipSaid(cfg: Config, w: World, input: Input)
    requires input.PublishTargets? || input.ClearSelection?
    ensures var v := Feed(cfg, w, input);
            && v.server.owner == OwnerAfter(cfg, w, Host(input))
            && Known(v) == Known(w) + if LosesOwnership(cfg, w, Host(input)) then 1 else 0
  {
    var said := OutputsOf(cfg, w.engine, input);
    assert TimesTold(Step(cfg, w.engine, input).log) == TimesTold(w.engine.log) by {
      StepLogs(cfg, w.engine, input);
      SettingTellsNothing(w.engine.log, said);
    }
    if said != [] {
      OwnerServed(cfg, w.server, said[0].window);
    }
  }

  lemma SettingTellsNothing(log: seq<Logged>, said: seq<Output>)
    requires said == [] || (|said| == 1 && said[0].SetOwner?)
    ensures TimesTold(log + Tag(0, said)) == TimesTold(log)
  {
    if said == [] {
      assert log + Tag(0, said) == log;
    } else {
      assert log + Tag(0, said) == log + [Logged(0, said[0])];
    }
  }

  lemma ClearIsTold(cfg: Config, w: World)
    ensures var v := Feed(cfg, w, SelectionClear); v.server == w.server && Known(v) == Known(w) + 1
  {
    assert w.engine.log + Tag(0, [OwnerLost]) == w.engine.log + [Logged(0, OwnerLost)];
    assert ServeAll(cfg, w.server, [OwnerLost][..0]) == w.server;
  }

  /** What one move does to the owner and to the losses known. */
  lemma MoveAndOwner(cfg: Config, w: World, move: Move)
    requires PossibleMove(cfg, w, move)
    ensures var v := Next(cfg, w, move);
            && v.server.owner == OwnerAfter(cfg, w, move)
            && Known(v) == Known(w) + if LosesOwnership(cfg, w, move) then 1 else 0
  {
    match move
    case Host(input) =>
      if input.PublishTargets? || input.ClearSelection? {
        OwnershipSaid(cfg, w, input);
      } else {
        NeutralInputKeeps(cfg, w, input);
      }
    case Deliver(choice, verdict, listing) =>
      var input := Delivered(w, w.server.queue[0], choice, verdict, listing);
      if input.SelectionClear? {
        ClearIsTold(cfg, Popped(w));
      } else {
        NeutralInputKeeps(cfg, Popped(w), input);
      }
    case Foreign(event) => QueuedSnoc(w.server.queue, event);
    case Taken(window) => QueuedSnoc(w.server.queue, OwnershipLost);
  }

  // ---------------------------------------------------------------- whole plays

  /** A clear gives up what we own, and never changes what another client owns. */
  lemma ClearGivesUpOurs(cfg: Config, w: World)
    requires cfg.Valid()
    ensures var v := Next(cfg, w, Host(ClearSelection(w.server.owner)));
            && v.server.owner == (if w.server.owner == cfg.window then 0 else w.server.owner)
            && v.server.owner != cfg.window
            && v.engine.published == map[] && v.engine.pending == map[]
  {
    MoveAndOwner(cfg, w, Host(ClearSelection(w.server.owner)));
  }

  /** How often the selection was lost in the course of the moves. */
  function Losses(cfg: Config, w: World, moves: seq<Move>): nat {
    if moves == [] then 0 else
      var n := |moves| - 1;
      Losses(cfg, w, moves[..n]) + if LosesOwnership(cfg, Play(cfg, w, moves[..n]), moves[n]) then 1 else 0
  }

  /** Every loss is told to the host once, or its event is still queued: none is forgotten, none told twice. */
  lemma {:induction false} EveryLossIsToldOnce(cfg: Config, w: World, moves: seq<Move>)
    requires PossiblePlay(cfg, w, moves)
    ensures var v := Play(cfg, w, moves);
            TimesTold(v.engine.log) + Queued(v.server.queue)
            == TimesTold(w.engine.log) + Queued(w.server.queue) + Losses(cfg, w, moves)
  {
    if moves != [] {
      var n := |moves| - 1;
      EveryLossIsToldOnce(cfg, w, moves[..n]);
      MoveAndOwner(cfg, Play(cfg, w, moves[..n]), moves[n]);
    }
  }

  /** After the moves the selection belongs to whom the last of them that says something about it gave it. */
  function OwnerAtLast(cfg: Config, w: World, moves: seq<Move>): Window {
    if moves == [] then w.server.owner else
      var n := |moves| - 1;
      match moves[n]
      case Host(PublishTargets(_)) => cfg.window
      case Host(ClearSelection(owner)) => if owner == cfg.window then 0 else OwnerAtLast(cfg, w, moves[..n])
      case Taken(window) => window
      case _ => OwnerAtLast(cfg, w, moves[..n])
  }

  lemma {:induction false} OwnerInPlay(cfg: Config, w: World, moves: seq<Move>)
    requires PossiblePlay(cfg, w, moves)
    ensures Play(cfg, w, moves).server.owner == OwnerAtLast(cfg, w, moves)
  {
    if moves != [] {
      var n := |moves| - 1;
      OwnerInPlay(cfg, w, moves[..n]);
      MoveAndOwner(cfg, Play(cfg, w, moves[..n]), moves[n]);
    }
  }
}
