/** From the reports of the devices to the popup workers: the monitor and the popups, step by step and in any
    interleaving (internal/touch/linux.go, internal/service/touch.go). */
module TouchPipeline {
  import Descriptor
  import opened Sizes
  import opened TrackerHistory
  import opened PopupsModel
  import opened PopupsClass
  import opened MonitorModel
  import L = MonitorLog
  import I = PopupsInvariant
  import D = PopupsDelivery

  /** The devices the monitor has open, and the mailbox with its workers. */
  datatype Pipe = Pipe(readers: map<string, Reader>, popups: System)

  /** The monitor opens or drops a device or hears a report or expiry of one; anything else is a move of the
      popups that is not a setter's. */
  datatype Act =
    | Open(path: string, layout: Descriptor.Layout, node: int) | Drop(path: string)
    | Hear(path: string, e: Event) | Other(move: Move)

  /** The locked part of a setter's call when a flag goes from one value to another, and no call else. */
  function Toggled(s: System, path: string, was: bool, now: bool): System {
    if was == now then s else Do(s, Turn(path, now))
  }

  function Changed(p: Pipe, path: string, r: Reader): Pipe
    requires path in p.readers
  {
    Pipe(p.readers[path := r], Toggled(p.popups, path, p.readers[path].active, r.active))
  }

  function Dropping(p: Pipe, path: string): Pipe
    requires path in p.readers
  {
    Pipe(p.readers - {path}, Toggled(p.popups, path, p.readers[path].active, false))
  }

  predicate Step(p: Pipe, a: Act, q: Pipe) {
    match a
    case Open(path, layout, node) =>
      && path !in p.readers && |p.readers| < MAX_DEVICES
      && q == p.(readers := p.readers[path := Opened((layout, node))])
    case Drop(path) => path in p.readers && q == Dropping(p, path)
    case Hear(path, e) => path in p.readers && q == Changed(p, path, Hearing(p.readers[path], e))
    case Other(move) =>
      !move.TurnOn? && !move.TurnOff? && Can(p.popups, move) && q == p.(popups := Do(p.popups, move))
  }

  ghost predicate Run(ps: seq<Pipe>, acts: seq<Act>) {
    && |ps| == |acts| + 1 && ps[0] == Pipe(map[], Begun())
    && forall i | 0 <= i < |acts| :: Step(ps[i], acts[i], ps[i + 1])
  }

  /** The mailbox asks for exactly the active devices, whatever its own Run is doing. */
  ghost predicate Inv(p: Pipe) {
    && AllFollow(p.readers) && |p.readers| <= MAX_DEVICES && Asked(p.popups.desired.Keys, p.readers)
    && I.Inv(p.popups)
  }

  lemma VisitSame(s: System, path: string)
    requires Can(s, Visit(path))
    ensures Visited(s, path).desired == s.desired
  {
    hide Replace, Unwanted;
  }

  lemma LaunchSame(s: System, path: string)
    requires Can(s, Launch(path))
    ensures Launched(s, path).desired == s.desired
  {
    hide HeldBack;
  }

  /** Only setters change what is desired. */
  lemma SameDesired(s: System, m: Move)
    requires Can(s, m) && !m.TurnOn? && !m.TurnOff?
    ensures Do(s, m).desired == s.desired
  {
    match m
    case Visit(p) => VisitSame(s, p);
    case Launch(p) => LaunchSame(s, p);
    case _ => hide Visited, Launched, SetOn, CancelAll, Replace;
  }

  lemma OpenKeeps(p: Pipe, path: string, r: Reader)
    requires Inv(p) && path !in p.readers && |p.readers| < MAX_DEVICES
    requires r.pending == map[] && !r.active && r.events == []
    ensures Inv(p.(readers := p.readers[path := r]))
  {
    AskedOpened(p.popups.desired.Keys, p.readers, path, r);
    assert Follows(r);
    AllStillFollow(p.readers, path, r);
    hide I.Inv, AllFollow, Asked, Follows;
  }

  lemma ToggleKeeps(s: System, path: string, was: bool, now: bool)
    requires I.Inv(s)
    ensures I.Inv(Toggled(s, path, was, now))
  {
    hide I.Inv, Do;
    if was != now { D.InvKept(s, Turn(path, now)); }
  }

  lemma RoomMakes(s: System, path: string)
    requires path !in s.desired && |s.desired| < MAX_DEVICES
    ensures SetOn(s, path).desired.Keys == s.desired.Keys + {path}
  {
  }

  /** A device that turns active always finds room in the mailbox. */
  lemma ToggledDesired(s: System, readers: map<string, Reader>, path: string, now: bool)
    requires Asked(s.desired.Keys, readers) && |readers| <= MAX_DEVICES && path in readers
    ensures Toggled(s, path, readers[path].active, now).desired.Keys
         == L.Switched(s.desired.Keys, L.Event(path, now))
  {
    if now && !readers[path].active {
      LacksOne(s.desired.Keys, readers.Keys, path);
      RoomMakes(s, path);
    }
    hide SetOn, Room;
  }

  lemma ChangeKeeps(p: Pipe, path: string, r: Reader)
    requires Inv(p) && path in p.readers && Follows(r)
    ensures Inv(Changed(p, path, r))
  {
    ToggleKeeps(p.popups, path, p.readers[path].active, r.active);
    ToggledDesired(p.popups, p.readers, path, r.active);
    AskedSwitched(p.popups.desired.Keys, p.readers, path, r);
    AllStillFollow(p.readers, path, r);
    hide I.Inv, AllFollow, Asked, Follows, Toggled, L.Switched;
  }

  lemma DropKeeps(p: Pipe, path: string)
    requires Inv(p) && path in p.readers
    ensures Inv(Dropping(p, path))
  {
    ToggleKeeps(p.popups, path, p.readers[path].active, false);
    ToggledDesired(p.popups, p.readers, path, false);
    AskedRemoved(p.popups.desired.Keys, p.readers, path);
    SubmapSize(p.readers - {path}, p.readers);
    RestFollow(p.readers, path);
    hide I.Inv, AllFollow, Asked, Toggled, L.Switched;
  }

  lemma HearingFollows(r: Reader, e: Event)
    requires Follows(r)
    ensures Follows(Hearing(r, e))
  {
    Heeded(r, e);
  }

  lemma StepKeeps(p: Pipe, a: Act, q: Pipe)
    requires Inv(p) && Step(p, a, q)
    ensures Inv(q)
  {
    assert AllFollow(p.readers);
    hide Inv, I.Inv, Asked, Follows, Hearing, Changed, Dropping, Can, Do;
    match a
    case Open(path, layout, node) => OpenKeeps(p, path, Opened((layout, node)));
    case Drop(path) => DropKeeps(p, path);
    case Hear(path, e) =>
      HearingFollows(p.readers[path], e);
      ChangeKeeps(p, path, Hearing(p.readers[path], e));
    case Other(move) => OtherKeeps(p, move);
  }

  lemma OtherKeeps(p: Pipe, move: Move)
    requires Inv(p) && Can(p.popups, move) && !move.TurnOn? && !move.TurnOff?
    ensures Inv(p.(popups := Do(p.popups, move)))
  {
    hide I.Inv, AllFollow, Asked, Do, Can;
    SameDesired(p.popups, move);
    D.InvKept(p.popups, move);
  }

  lemma {:induction false} InvHolds(ps: seq<Pipe>, acts: seq<Act>, n: nat)
    requires Run(ps, acts) && n < |ps|
    ensures Inv(ps[n])
  {
    hide Step, Inv;
    if n == 0 {
      StartInv();
    } else {
      InvHolds(ps, acts, n - 1);
      StepKeeps(ps[n - 1], acts[n - 1], ps[n]);
    }
  }

  lemma StartInv()
    ensures Inv(Pipe(map[], Begun()))
  {
    D.InvBegun();
    hide I.Inv;
  }

  /** The device is open and some channel of it has asked for a touch that nothing has ended since. */
  ghost predicate Waits(p: Pipe, path: string) {
    path in p.readers && AwaitsTouch(p.readers[path])
  }

  /** At every moment exactly the waiting devices are desired. */
  lemma DesiredIsWaiting(ps: seq<Pipe>, acts: seq<Act>, n: nat, path: string)
    requires Run(ps, acts) && n < |ps|
    ensures path in ps[n].popups.desired <==> Waits(ps[n], path)
  {
    hide Run, AwaitsTouch, I.Inv, Follows;
    InvHolds(ps, acts, n);
    if path in ps[n].readers { ActiveIff(ps[n].readers[path]); }
  }

  /** From the devices to the workers, in every interleaving of reports, scans, setters, signals, workers and
      Run: once the popups are at rest, a device is shown if and only if some channel of it waits for a touch
      and no worker of this episode has ended yet; and every worker still running shows such a device. */
  lemma WaitingIsShown(ps: seq<Pipe>, acts: seq<Act>, n: nat, path: string)
    requires Run(ps, acts) && n < |ps| && D.Quiescent(ps[n].popups)
    ensures D.Shown(ps[n].popups, path) <==> Waits(ps[n], path) && !D.WasShown(ps[n].popups, path)
    ensures forall i: nat | i < |ps[n].popups.workers| && !ps[n].popups.workers[i].done ::
              Waits(ps[n], ps[n].popups.workers[i].path) && D.Shown(ps[n].popups, ps[n].popups.workers[i].path)
  {
    hide *;
    var s := ps[n].popups;
    InvHolds(ps, acts, n);
    Settles(ps[n]);
    DesiredIsWaiting(ps, acts, n, path);
    ShownIff(s, path);
    forall i: nat | i < |s.workers| && !s.workers[i].done
      ensures Waits(ps[n], s.workers[i].path) && D.Shown(s, s.workers[i].path) {
      WorkerShows(s, i);
      DesiredIsWaiting(ps, acts, n, s.workers[i].path);
    }
  }

  lemma Settles(p: Pipe)
    requires Inv(p) && D.Quiescent(p.popups)
    ensures D.Settled(p.popups) && I.Core(p.popups)
  {
    hide D.Quiescent, D.Settled, I.Core, I.Heard, I.TodoOk;
    D.QuiescentSettles(p.popups);
  }

  lemma WorkerShows(s: System, i: nat)
    requires D.Settled(s) && i < |s.workers| && !s.workers[i].done
    ensures s.workers[i].path in s.desired && D.Shown(s, s.workers[i].path)
  {
  }

  lemma ShownIff(s: System, path: string)
    requires D.Settled(s) && I.Core(s)
    ensures D.Shown(s, path) <==> path in s.desired && !D.WasShown(s, path)
  {
    hide I.OwnersOk, I.EpochsOk, I.PopupsOk, I.WorkersOk, I.FinishedOk, I.LatestOk;
  }

  // ---------------------------------------------------------------- the monitor's methods as steps

  /** What Monitor.Hear does to readers and mailbox is one step here, and the signal when it called the sink. */
  lemma HearIsSteps(p: Pipe, path: string, e: Event)
    requires path in p.readers
    ensures var r := Hearing(p.readers[path], e);
            var q := Changed(p, path, r);
            var end := Pipe(p.readers[path := r], Informed(p.popups, path, p.readers[path].active, r.active));
            && Step(p, Hear(path, e), q)
            && if r.active == p.readers[path].active then end == q else Step(q, Other(Signal), end)
  {
    hide Hearing;
  }

  /** The same for Monitor.Remove. */
  lemma RemoveIsSteps(p: Pipe, path: string)
    requires path in p.readers
    ensures var q := Dropping(p, path);
            var end := Pipe(p.readers - {path}, Informed(p.popups, path, p.readers[path].active, false));
            && Step(p, Drop(path), q)
            && if p.readers[path].active then Step(q, Other(Signal), end) else end == q
  {
  }
}
