/** The unit actor of src/actors/unit-actor.ts. The rendering engine behind
    it is not modelled: the actor's action queue is a sequence of recorded
    commands, and the timer that `wait` starts is a count of restorations
    still pending. */
module UnitActors {
  import opened Projection
  import opened IsometricConstants

  /** A command appended to the actor's action queue; the engine plays them
      back later. The last number is the one passed alongside the target. */
  datatype ActorCommand =
    | MoveTo(x: real, y: real, rate: real)
    | ScaleBy(factor: real, rate: real)

  /** The numbers `moveToPosition` and `attack` pass with their commands. */
  const MoveRate: real := 200.0
  const AttackGrow: real := 1.5
  const AttackShrink: real := 0.67
  const AttackRate: real := 0.2

  const WaitOpacity: real := 0.5
  const FullOpacity: real := 1.0

  /** Opacity together with the number of scheduled restorations that have
      not fired yet. */
  datatype Fade = Fade(opacity: real, pending: nat)

  datatype FadeEvent = CallWait | FireRestoration

  /** `wait()`: dim at once and schedule one more restoration. Nothing that is
      already scheduled is cancelled. */
  function AfterWait(f: Fade): (r: Fade)
    ensures r.opacity == WaitOpacity && r.pending == f.pending + 1
  {
    Fade(WaitOpacity, f.pending + 1)
  }

  /** A scheduled restoration fires: full opacity, one fewer pending. */
  function AfterRestoration(f: Fade): (r: Fade)
    requires f.pending > 0
    ensures r.opacity == FullOpacity && r.pending == f.pending - 1
  {
    Fade(FullOpacity, f.pending - 1)
  }

  /** The fade invariant: opacity is one of the two values the actor writes,
      and it is full whenever no restoration is pending. */
  predicate Settled(f: Fade) {
    (f.opacity == WaitOpacity || f.opacity == FullOpacity)
    && (f.pending == 0 ==> f.opacity == FullOpacity)
  }

  /** An event sequence in which a restoration only fires when one is scheduled. */
  predicate Feasible(f: Fade, events: seq<FadeEvent>)
    decreases |events|
  {
    events == [] ||
    match events[0]
    case CallWait => Feasible(AfterWait(f), events[1..])
    case FireRestoration => f.pending > 0 && Feasible(AfterRestoration(f), events[1..])
  }

  function RunFade(f: Fade, events: seq<FadeEvent>): Fade
    requires Feasible(f, events)
    decreases |events|
  {
    if events == [] then f
    else match events[0]
      case CallWait => RunFade(AfterWait(f), events[1..])
      case FireRestoration => RunFade(AfterRestoration(f), events[1..])
  }

  function CountOf(events: seq<FadeEvent>, e: FadeEvent): nat
    decreases |events|
  {
    if events == [] then 0 else (if events[0] == e then 1 else 0) + CountOf(events[1..], e)
  }

  /** Wait convergence: from a settled state, however the calls to `wait` and
      the restorations interleave, the state stays settled; in particular,
      once every scheduled restoration has fired the opacity is 1. */
  lemma {:induction false} WaitConverges(f: Fade, events: seq<FadeEvent>)
    requires Settled(f) && Feasible(f, events)
    ensures Settled(RunFade(f, events))
    ensures RunFade(f, events).pending == 0 ==> RunFade(f, events).opacity == FullOpacity
    decreases |events|
  {
    if events != [] {
      match events[0]
      case CallWait => WaitConverges(AfterWait(f), events[1..]);
      case FireRestoration => WaitConverges(AfterRestoration(f), events[1..]);
    }
  }

  /** No restoration is ever cancelled: every call schedules one and every
      firing consumes one. */
  lemma {:induction false} PendingCountsCalls(f: Fade, events: seq<FadeEvent>)
    requires Feasible(f, events)
    ensures RunFade(f, events).pending + CountOf(events, FireRestoration)
            == f.pending + CountOf(events, CallWait)
    decreases |events|
  {
    if events != [] {
      match events[0]
      case CallWait => PendingCountsCalls(AfterWait(f), events[1..]);
      case FireRestoration => PendingCountsCalls(AfterRestoration(f), events[1..]);
    }
  }

  /** The overlap the code leaves in place: after two calls to `wait`, the
      first restoration restores full opacity while the second one is still
      pending. */
  lemma EarlyRestorationWhileAnotherPending()
    ensures Feasible(Fade(FullOpacity, 0), [CallWait, CallWait, FireRestoration])
    ensures RunFade(Fade(FullOpacity, 0), [CallWait, CallWait, FireRestoration]) == Fade(FullOpacity, 1)
  {
    var evs := [CallWait, CallWait, FireRestoration];
    assert evs[1..] == [CallWait, FireRestoration];
    assert evs[1..][1..] == [FireRestoration];
    assert evs[1..][1..][1..] == [];
  }

  /** Where the actor is and how it is drawn, apart from its opacity. */
  datatype ActorPose = ActorPose(x: real, y: real, width: int, height: int, z: int, scale: real)

  class UnitActor {
    var x: real
    var y: real
    var width: int
    var height: int
    var z: int
    var scale: real
    var opacity: real
    /** The engine's action queue, as the commands appended to it. */
    var actions: seq<ActorCommand>
    /** Restorations scheduled by `wait` that have not fired yet. */
    var pendingRestorations: nat

    function Pose(): ActorPose
      reads this
    {
      ActorPose(x, y, width, height, z, scale)
    }

    function FadeState(): Fade
      reads this
    {
      Fade(opacity, pendingRestorations)
    }

    ghost predicate Valid()
      reads this
    {
      Settled(FadeState())
    }

    /** Takes no parameters: the actor always spawns at the constant initial
        position, 32 by 32, in front (z 1000), scaled to 0.1875. */
    constructor ()
      ensures Valid()
      ensures ScreenPosition(x, y) == GetInitialPosition() && x == 48.0 && y == 190.0
      ensures width == 32 && height == 32 && z == 1000 && scale == 0.1875
      ensures opacity == FullOpacity && pendingRestorations == 0 && actions == []
    {
      var initialPos := GetInitialPosition();
      x, y := initialPos.x, initialPos.y;
      width, height, z := 32, 32, 1000;
      scale := 0.1875;
      opacity := FullOpacity;
      actions := [];
      pendingRestorations := 0;
    }

    /** The engine's `actions.moveTo`: queue one move. */
    method QueueMoveTo(targetX: real, targetY: real, rate: real)
      modifies this`actions
      ensures actions == old(actions) + [MoveTo(targetX, targetY, rate)]
    {
      actions := actions + [MoveTo(targetX, targetY, rate)];
    }

    /** moveToPosition: exactly one move to the target is queued. */
    method MoveToPosition(targetX: real, targetY: real)
      modifies this`actions
      ensures actions == old(actions) + [MoveTo(targetX, targetY, MoveRate)]
    {
      QueueMoveTo(targetX, targetY, MoveRate);
    }

    /** attack: two scale steps, growing then shrinking, are queued; nothing
        is returned to wait on. */
    method Attack()
      modifies this`actions
      ensures actions == old(actions) + [ScaleBy(AttackGrow, AttackRate), ScaleBy(AttackShrink, AttackRate)]
    {
      actions := actions + [ScaleBy(AttackGrow, AttackRate)];
      actions := actions + [ScaleBy(AttackShrink, AttackRate)];
    }

    /** wait: half opacity now, one more restoration scheduled. */
    method Wait()
      requires Valid()
      modifies this`opacity, this`pendingRestorations
      ensures Valid()
      ensures FadeState() == AfterWait(old(FadeState()))
    {
      opacity := WaitOpacity;
      pendingRestorations := pendingRestorations + 1;
    }

    /** The callback a `wait` scheduled, firing. */
    method FireRestoration()
      requires Valid() && pendingRestorations > 0
      modifies this`opacity, this`pendingRestorations
      ensures Valid()
      ensures FadeState() == AfterRestoration(old(FadeState()))
    {
      opacity := FullOpacity;
      pendingRestorations := pendingRestorations - 1;
    }
  }
}
