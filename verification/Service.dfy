/**
 * The registered host service under OpenRC or runit, and its maintenance fence. Every durable
 * change and every native command is one step, and the machine may stop before any of them.
 */
module HostService {
  import opened Wrappers

  datatype Manager = OpenRc | Runit

  /** What the maintenance fence remembers. */
  datatype Fence = Fence(enabled: bool, active: bool, stopped: bool)

  datatype World = World(
    manager: Manager,
    installed: bool,
    fence: Option<Fence>,
    packageFence: bool,
    allowed: bool,
    linked: bool,
    down: bool,
    running: bool
  )

  /** Automatic operation: the manager's own link and the administrator's marker. */
  predicate Enabled(w: World) {
    w.linked && w.allowed
  }

  /** When the service may be started natively. */
  predicate MayStart(w: World) {
    w.fence.None? && !w.packageFence && w.allowed
  }

  datatype Outcome = Done | Refused | Halted

  /** What the maintenance began with, and whether a stop or a disable came since. */
  datatype Since = Since(active: bool, enabled: bool, stop: bool, disable: bool)

  /** The fence tells what the maintenance began with; a disable since has taken the marker away. */
  ghost predicate Remembered(w: World, since: Since) {
    w.fence.Some? ==>
      && w.fence.value.enabled == since.enabled
      && w.fence.value.active == (since.active && !since.stop)
      && (since.disable ==> !w.allowed)
      && (since.enabled && !since.disable ==> Enabled(w))
  }

  /** What neither the fence nor the marks of automatic operation depend on. */
  lemma StillRemembered(w: World, since: Since)
    requires Remembered(w, since)
    ensures forall installed, packageFence, down, running ::
      Remembered(w.(installed := installed, packageFence := packageFence, down := down, running := running), since)
  {
  }

  /** A new fence remembers what is the case. */
  lemma FenceRemembers(w: World)
    ensures forall active :: Remembered(w.(fence := Some(Fence(Enabled(w), active, false))), Since(active, Enabled(w), false, false))
  {
  }

  /** Without a fence there is nothing to remember. */
  lemma UnfencedRemembers(w: World, since: Since)
    requires w.fence.None?
    ensures Remembered(w, since)
    ensures MayStart(w) <==> !w.packageFence && w.allowed
  {
  }

  lemma StoppedRemembers(w: World, since: Since)
    requires Remembered(w, since) && w.fence.Some?
    ensures Remembered(w.(fence := Some(w.fence.value.(stopped := true))), since)
  {
  }

  lemma DisabledForgetsLinks(w: World, since: Since)
    requires Remembered(w, since) && since.disable
    ensures forall linked :: Remembered(w.(linked := linked), since)
  {
  }

  /** No command fails, lingers or gives no answer. */
  ghost predicate Calm(answers: seq<bool>) {
    forall k :: 0 <= k < |answers| ==> !answers[k]
  }

  predicate Yes(answers: seq<bool>) {
    answers != [] && answers[0]
  }

  function Tail(answers: seq<bool>): seq<bool> {
    if answers == [] then [] else answers[1..]
  }

  /** Changes enough for any one action. */
  const AMPLE: nat := 5

  /** What a begun maintenance remembers of the service: the first begin's view, now stopped. */
  function Fenced(w: World): Fence {
    if w.fence.Some? then w.fence.value.(stopped := true) else Fence(w.linked && w.allowed, w.running, true)
  }

  /** A finished maintenance starts the service again. */
  predicate Resumes(w: World) {
    w.fence.Some? && w.fence.value.active && w.fence.value.enabled && w.linked && w.allowed
  }

  /** The maintenance can be finished, or the adapters replaced. */
  predicate Finishable(w: World) {
    !w.packageFence && w.fence.Some? && w.fence.value.stopped && !w.running
  }

  class Service {
    var world: World
    var budget: nat
    var answers: seq<bool>
    /** The world at every native start so far. */
    ghost var starts: seq<World>
    ghost var since: Since

    ghost predicate Valid()
      reads `world, `starts, `since
    {
      Remembered(world, since) && forall k :: 0 <= k < |starts| ==> MayStart(starts[k])
    }

    constructor (world: World, budget: nat, answers: seq<bool>)
      requires world.fence.None?
      ensures Valid() && this.world == world && starts == [] && since == Since(false, false, false, false)
      ensures this.budget == budget && this.answers == answers
    {
      this.world, this.budget, this.answers := world, budget, answers;
      starts := [];
      since := Since(false, false, false, false);
    }

    method Ask() returns (yes: bool)
      modifies `answers
      ensures yes == Yes(old(answers)) && answers == Tail(old(answers))
      ensures Calm(old(answers)) ==> !yes && Calm(answers)
    {
      yes := false;
      if answers != [] {
        yes := answers[0];
        answers := answers[1..];
      }
    }

    /** One durable change, unless the machine stops before it. */
    method Change(next: World, ghost later: Since) returns (done: bool)
      requires Valid() && Remembered(next, later)
      modifies `world, `budget, `since
      ensures Valid() && world == (if done then next else old(world)) && since == if done then later else old(since)
      ensures (done <==> old(budget) > 0) && budget == if done then old(budget) - 1 else 0
    {
      if budget == 0 {
        return false;
      }
      budget := budget - 1;
      world := next;
      since := later;
      return true;
    }

    /** The manager's word on whether the service runs; it may have none. */
    method Active() returns (known: bool, active: bool)
      modifies `answers
      ensures active == world.running && known == !Yes(old(answers)) && answers == Tail(old(answers))
      ensures Calm(old(answers)) ==> known && Calm(answers)
    {
      var unknown := Ask();
      known, active := !unknown, world.running;
    }

    /** A native stop: it may fail, or come back with the service still running. */
    method NativeStop() returns (out: Outcome)
      requires Valid()
      modifies `world, `budget, `since, `answers
      ensures Valid() && world == old(world).(running := world.running) && since == old(since)
      ensures world.running ==> old(world).running
      ensures out.Done? ==> old(budget) > 0
      ensures out != Done ==> world == old(world)
      ensures out.Refused? <==> Yes(old(answers))
      ensures budget == if out.Done? then old(budget) - 1 else old(budget)
      ensures Calm(old(answers)) ==> Calm(answers) && (out == if old(budget) > 0 then Done else Halted) && (out.Done? ==> !world.running)
    {
      var failed := Ask();
      if failed {
        return Refused;
      }
      var lingers := Ask();
      var done := Change(world.(running := world.running && lingers), since);
      out := if done then Done else Halted;
    }

    /** A native start, noted with the world it happens in. */
    method NativeStart() returns (out: Outcome)
      requires Valid() && MayStart(world)
      modifies `world, `budget, `since, `answers, `starts
      ensures Valid() && since == old(since) && world == old(world).(running := world.running)
      ensures starts == (if out == Halted then old(starts) else old(starts) + [old(world)])
      ensures (out.Halted? <==> old(budget) == 0) && world.running == (out != Halted || old(world).running)
      ensures Calm(old(answers)) && old(budget) > 0 ==> out == Done
    {
      if budget == 0 {
        return Halted;
      }
      starts := starts + [world];
      var done := Change(world.(running := true), since);
      var failed := Ask();
      out := if failed then Refused else Done;
    }

    method MaintenanceBegin() returns (out: Outcome)
      requires Valid()
      modifies this
      ensures Valid() && starts == old(starts)
      ensures old(world).fence.Some? ==> since == old(since)
      ensures old(world).fence.None? && world.fence.Some? ==> since == Since(old(world).running, Enabled(old(world)), false, false)
      ensures out.Done? ==> world.fence.Some? && world.fence.value.stopped && !world.running
      ensures world == old(world).(fence := world.fence, running := world.running, down := world.down)
      ensures out.Done? ==> world == old(world).(fence := Some(Fenced(old(world))), running := false, down := old(world).down || world.manager == Runit)
      ensures world.down != old(world).down || world.running != old(world).running ==> world.fence.Some?
      ensures !old(world).installed ==> out == Refused && world == old(world)
      ensures old(world).installed && Calm(old(answers)) && old(budget) >= AMPLE ==> out == Done
    {
      hide Remembered, MayStart, Calm;
      if !world.installed {
        return Refused;
      }
      out := Remember();
      if out == Done {
        out := Quiesce();
      }
      if out != Done {
        return;
      }
      StoppedRemembers(world, since);
      var done := Change(world.(fence := Some(world.fence.value.(stopped := true))), since);
      out := if done then Done else Halted;
    }

    /** The first begin sets up the fence with what it finds; a repeated one leaves it. */
    method Remember() returns (out: Outcome)
      requires Valid()
      modifies `world, `budget, `since, `answers
      ensures Valid() && world == old(world).(fence := world.fence)
      ensures old(world).fence.Some? ==> out == Done && world == old(world) && since == old(since)
      ensures old(world).fence.None? ==> (out.Refused? <==> Yes(old(answers)))
      ensures old(world).fence.None? ==>
        if out == Done
        then world.fence == Some(Fenced(old(world)).(stopped := false)) && since == Since(old(world).running, Enabled(old(world)), false, false)
        else world == old(world) && since == old(since)
      ensures Calm(old(answers)) ==> Calm(answers) && (old(budget) > 0 ==> out == Done && budget >= old(budget) - 1)
    {
      hide Remembered, MayStart, Calm;
      if world.fence.Some? {
        return Done;
      }
      FenceRemembers(world);
      var known, active := Active();
      if !known {
        return Refused;
      }
      var done := Change(world.(fence := Some(Fence(Enabled(world), active, false))), Since(active, Enabled(world), false, false));
      out := if done then Done else Halted;
    }

    /** Under runit the service stays down from here; then it is stopped. */
    method Quiesce() returns (out: Outcome)
      requires Valid()
      modifies `world, `budget, `since, `answers
      ensures Valid() && world == old(world).(running := world.running, down := world.down) && since == old(since)
      ensures out.Done? ==> !world.running && world.down == (old(world).down || world.manager == Runit)
      ensures Calm(old(answers)) ==> Calm(answers) && (old(budget) >= 2 ==> out == Done && budget >= old(budget) - 2)
    {
      hide Remembered;
      StillRemembered(world, since);
      if world.manager == Runit {
        var done := Change(world.(down := true), since);
        if !done {
          return Halted;
        }
      }
      out := StopIfRunning();
    }

    /** Stop the service where it runs, and see that it did. */
    method StopIfRunning() returns (out: Outcome)
      requires Valid()
      modifies `world, `budget, `since, `answers
      ensures Valid() && world == old(world).(running := world.running) && since == old(since)
      ensures out.Done? ==> !world.running
      ensures Calm(old(answers)) ==> Calm(answers) && (old(budget) > 0 ==> out == Done && budget >= old(budget) - 1)
      ensures Yes(old(answers)) ==> out == Refused && world == old(world)
      ensures old(world).running && Calm(old(answers)) && old(budget) == 0 ==> out == Halted
    {
      var known, active := Active();
      if !known {
        return Refused;
      }
      if active {
        out := NativeStop();
        if out != Done {
          return;
        }
      }
      known, active := Active();
      if !known || active {
        return Refused;
      }
      out := Done;
    }

    /**
     * Take the fence down and bring the service back exactly when it was active and enabled as the
     * maintenance began and neither a stop nor a disable came since.
     */
    method MaintenanceFinish() returns (out: Outcome)
      requires Valid()
      modifies this
      ensures Valid()
      ensures out.Done? ==>
        && old(world).fence.Some? && old(world).fence.value.stopped && !old(world).running && !old(world).packageFence && world.fence.None?
        && |starts| == |old(starts)| + if old(since).active && old(since).enabled && !old(since).stop && !old(since).disable then 1 else 0
      ensures out.Refused? && starts == old(starts) ==> world == old(world)
      ensures world == old(world).(fence := world.fence, running := world.running, down := world.down)
      ensures out.Done? ==>
        world == old(world).(fence := None, running := Resumes(old(world)), down := old(world).down && !(Resumes(old(world)) && world.manager == Runit))
      ensures !(old(world).installed && Finishable(old(world))) ==> out == Refused && world == old(world) && starts == old(starts)
      ensures Yes(old(answers)) || Yes(Tail(old(answers))) ==> out == Refused && world == old(world)
      ensures old(world).installed && Finishable(old(world)) && Calm(old(answers)) && old(budget) >= AMPLE ==> out == Done
    {
      if !world.installed || world.packageFence || world.fence.None? {
        return Refused;
      }
      var previous := world.fence.value;
      var known, active := Active();
      if !previous.stopped || !known || active {
        return Refused;
      }
      var invalid := Ask();
      if invalid {
        return Refused;
      }
      var done := Change(world, since);
      if !done {
        return Halted;
      }
      done := Change(world.(fence := None), since);
      if !done {
        return Halted;
      }
      out := Done;
      if previous.active && previous.enabled && Enabled(world) {
        out := Revive();
      }
    }

    /** Under runit let it come up; then start it. */
    method Revive() returns (out: Outcome)
      requires Valid() && MayStart(world)
      modifies `world, `budget, `since, `answers, `starts
      ensures Valid() && since == old(since) && world == old(world).(running := world.running, down := world.down)
      ensures old(starts) <= starts && |starts| == |old(starts)| + if out.Halted? then 0 else 1
      ensures out.Done? ==> world.running && world.down == (old(world).down && world.manager == OpenRc)
      ensures Calm(old(answers)) && old(budget) >= 2 ==> out == Done
    {
      if world.manager == Runit {
        var done := Change(world.(down := false), since);
        if !done {
          return Halted;
        }
      }
      out := NativeStart();
    }

    /** Replace the host adapters under the fence. */
    method Update() returns (out: Outcome)
      requires Valid()
      modifies this
      ensures Valid() && starts == old(starts) && since == old(since) && world.fence == old(world).fence
      ensures out.Done? ==> world.fence.Some? && world.installed
      ensures world == old(world).(installed := world.installed, down := world.down)
      ensures out.Done? ==> world == old(world).(installed := true, down := old(world).down || world.manager == Runit)
      ensures !Finishable(old(world)) ==> out == Refused && world == old(world)
      ensures Yes(old(answers)) || Yes(Tail(old(answers))) ==> out == Refused && world == old(world)
      ensures out == Halted && old(budget) > 0 ==> !world.installed
      ensures Finishable(old(world)) && Calm(old(answers)) && old(budget) >= AMPLE ==> out == Done
    {
      hide Remembered;
      StillRemembered(world, since);
      if world.packageFence || world.fence.None? {
        return Refused;
      }
      var known, active := Active();
      if !world.fence.value.stopped || !known || active {
        return Refused;
      }
      var invalid := Ask();
      if invalid {
        return Refused;
      }
      var done := Change(world.(installed := false), since);
      if !done {
        return Halted;
      }
      if world.manager == Runit {
        done := Change(world.(down := true), since);
        if !done {
          return Halted;
        }
      }
      done := Change(world.(installed := true), since);
      out := if done then Done else Halted;
    }

    /** Take automatic operation away: the marker before anything else, wherever it stops. */
    method Disable() returns (out: Outcome)
      requires Valid()
      modifies this
      ensures Valid() && starts == old(starts) && world.fence == old(world).fence
      ensures out.Done? ==> !world.allowed && !world.running && since == old(since).(disable := true)
      ensures world == old(world) || !world.allowed
      ensures old(world).installed && old(budget) > 0 ==> !world.allowed
      ensures world == old(world).(allowed := world.allowed, running := world.running, down := world.down, linked := world.linked)
      ensures out.Done? ==> world == old(world).(
        allowed := false, running := false, down := old(world).down || world.manager == Runit, linked := world.linked)
      ensures !old(world).installed ==> out == Refused && world == old(world)
      ensures old(world).installed && Calm(old(answers)) && old(budget) >= AMPLE ==> out == Done && !world.linked
    {
      if !world.installed {
        return Refused;
      }
      var done := Change(world.(allowed := false), since.(disable := true));
      if !done {
        return Halted;
      }
      out := Unlink();
    }

    /** Stop, keep down, and take the manager's own link away. */
    method Unlink() returns (out: Outcome)
      requires Valid() && !world.allowed && since.disable
      modifies `world, `budget, `since, `answers
      ensures Valid() && since == old(since)
      ensures world == old(world).(running := world.running, down := world.down, linked := world.linked)
      ensures out.Done? ==> !world.running && world.down == (old(world).down || world.manager == Runit)
      ensures Calm(old(answers)) && old(budget) >= 3 ==> out == Done && !world.linked
    {
      hide Remembered, MayStart;
      out := StopIfRunning();
      if out != Done {
        return;
      }
      if world.manager == Runit {
        StillRemembered(world, since);
        var done := Change(world.(down := true), since);
        if !done {
          return Halted;
        }
      }
      out := DropLink();
    }

    /** The manager's own link goes, if its command works. */
    method DropLink() returns (out: Outcome)
      requires Valid() && since.disable
      modifies `world, `budget, `since, `answers
      ensures Valid() && since == old(since) && world == old(world).(linked := world.linked)
      ensures world.linked ==> old(world).linked
      ensures Calm(old(answers)) && old(budget) > 0 ==> out == Done && !world.linked
    {
      hide Remembered;
      var remains := Ask();
      DisabledForgetsLinks(world, since);
      var done := Change(world.(linked := world.linked && remains), since);
      out := if done then Done else Halted;
    }

    /** The marker first; then the manager's own link; then a start. */
    method Enable() returns (out: Outcome)
      requires Valid()
      modifies this
      ensures Valid() && since == old(since)
      ensures out.Done? ==> Enabled(world) && starts == old(starts) + [world.(running := old(world).running)]
      ensures old(world).fence.Some? || old(world).packageFence || !old(world).installed ==>
        out == Refused && world == old(world) && starts == old(starts)
      ensures world == old(world).(allowed := world.allowed, running := world.running, down := world.down, linked := world.linked)
      ensures world != old(world) ==> world.allowed
      ensures out.Done? ==> world == old(world).(allowed := true, running := true, down := old(world).down && world.manager == OpenRc, linked := true)
      ensures Yes(old(answers)) ==> out == Refused && world == old(world) && starts == old(starts)
      ensures old(world).installed && old(world).fence.None? && !old(world).packageFence && Calm(old(answers)) && old(budget) >= AMPLE ==> out == Done
    {
      hide Remembered, MayStart, Calm;
      if !world.installed || world.fence.Some? || world.packageFence {
        return Refused;
      }
      UnfencedRemembers(world.(allowed := true), since);
      var invalid := Ask();
      if invalid {
        return Refused;
      }
      var done := Change(world.(allowed := true), since);
      if !done {
        return Halted;
      }
      out := Attach();
      if out == Done {
        UnfencedRemembers(world, since);
        out := NativeStart();
      }
    }

    /** Let the manager pick the service up; runit must then supervise it. */
    method Attach() returns (out: Outcome)
      requires Valid() && world.fence.None?
      modifies `world, `budget, `since, `answers
      ensures Valid() && since == old(since) && world == old(world).(down := world.down, linked := world.linked)
      ensures out.Done? ==> world.linked && world.down == (old(world).down && world.manager == OpenRc)
      ensures Calm(old(answers)) && old(budget) >= 2 ==> out == Done && Calm(answers) && budget >= old(budget) - 2
    {
      hide Remembered, MayStart, Calm;
      UnfencedRemembers(world.(down := false), since);
      if world.manager == Runit {
        var done := Change(world.(down := false), since);
        if !done {
          return Halted;
        }
      }
      out := Join();
    }

    /** The manager's own link; runit must see it within its time. */
    method Join() returns (out: Outcome)
      requires Valid() && world.fence.None?
      modifies `world, `budget, `since, `answers
      ensures Valid() && since == old(since) && world == old(world).(linked := world.linked)
      ensures out.Done? ==> world.linked
      ensures Yes(old(answers)) ==> out == Refused && world == old(world)
      ensures !Yes(old(answers)) && old(budget) > 0 ==> out == if world.manager == Runit && Yes(Tail(old(answers))) then Refused else Done
      ensures Calm(old(answers)) && old(budget) > 0 ==> out == Done && Calm(answers) && budget >= old(budget) - 1
    {
      hide Remembered, MayStart, Calm;
      var failed := Ask();
      if failed {
        return Refused;
      }
      UnfencedRemembers(world.(linked := true), since);
      var done := Change(world.(linked := true), since);
      if !done {
        return Halted;
      }
      var unsupervised := Ask();
      out := if unsupervised && world.manager == Runit then Refused else Done;
    }

    method Start() returns (out: Outcome)
      requires Valid()
      modifies this
      ensures Valid() && since == old(since)
      ensures starts != old(starts) ==> MayStart(old(world))
      ensures world == old(world).(running := world.running)
      ensures !(old(world).installed && MayStart(old(world))) ==> out == Refused && world == old(world) && starts == old(starts)
      ensures out.Done? ==> world.running && starts == old(starts) + [old(world)]
      ensures old(world).installed && MayStart(old(world)) && Calm(old(answers)) && old(budget) > 0 ==> out == Done
    {
      if !world.installed || world.fence.Some? || world.packageFence || !world.allowed {
        return Refused;
      }
      out := NativeStart();
    }

    method Stop() returns (out: Outcome)
      requires Valid()
      modifies this
      ensures Valid() && starts == old(starts)
      ensures out.Done? && old(world).fence.Some? ==> since == old(since).(stop := true)
      ensures world == old(world).(running := world.running, fence := world.fence)
      ensures world.fence == old(world).fence
              || (old(world).fence.Some? && world.fence == Some(old(world).fence.value.(active := false)))
      ensures old(world).installed && old(budget) > 0 && old(world).fence.Some? ==> world.fence.Some? && !world.fence.value.active
      ensures !old(world).installed ==> out == Refused && world == old(world)
      ensures old(world).installed && Calm(old(answers)) && old(budget) >= 2 ==> out == Done && !world.running
    {
      if !world.installed {
        return Refused;
      }
      if world.fence.Some? {
        var done := Change(world.(fence := Some(world.fence.value.(active := false))), since.(stop := true));
        if !done {
          return Halted;
        }
      }
      out := NativeStop();
    }

    /** The package manager's own fence comes and goes, and the service may die. */
    method Meanwhile(packageFence: bool, dies: bool)
      requires Valid()
      modifies `world
      ensures Valid() && world == old(world).(packageFence := packageFence, running := old(world).running && !dies)
    {
      world := world.(packageFence := packageFence, running := world.running && !dies);
    }
  }
}
