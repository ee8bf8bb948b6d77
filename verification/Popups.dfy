/** The popup mailbox and its workers (TouchPopups, internal/service/touch.go) as interleaved steps. */
module PopupsModel {

  const MAX_DEVICES := 32

  /** One popup worker; `cancelled` is its context, `done` its closed channel. */
  datatype Worker = Worker(path: string, epoch: nat, cancelled: bool, done: bool)

  /** Where Run stands. The sets are the paths its current loop has not visited yet. */
  datatype Phase =
    | Idle | Woken | Reaping(todo: set<string>) | Starting(todo: set<string>)
    | Stopping(todo: set<string>) | Stopped

  /** The mailbox (desired, epoch, wake), the locals of Run (view, popups, finished), every worker ever
      started, and `signals`: how many setters and ended workers have yet to signal. `owner` records
      which path each episode was handed out to. */
  datatype System = System(
    desired: map<string, nat>,
    epoch: nat,
    wake: bool,
    signals: nat,
    phase: Phase,
    view: map<string, nat>,
    popups: map<string, nat>,
    finished: map<string, nat>,
    workers: seq<Worker>,
    owner: map<nat, string>)

  datatype Move =
    | TurnOn(path: string) | TurnOff(path: string) | Signal | Finish(i: nat)
    | Receive | Copy | Visit(path: string) | Prune | Launch(path: string) | Rest
    | Quit | Await(path: string) | Return

  function Begun(): System {
    System(map[], 0, false, 0, Idle, map[], map[], map[], [], map[])
  }

  /** Reading an absent key of a Go map of integers. */
  function Lookup(m: map<string, nat>, path: string): nat {
    if path in m then m[path] else 0
  }

  predicate Room(s: System, path: string) {
    path !in s.desired && |s.desired| < MAX_DEVICES
  }

  /** A new episode. */
  function Added(s: System, path: string): System {
    s.(epoch := s.epoch + 1, desired := s.desired[path := s.epoch + 1], owner := s.owner[s.epoch + 1 := path],
       signals := s.signals + 1)
  }

  /** SetTouch(path, true) up to its unlock. */
  function SetOn(s: System, path: string): System {
    if Room(s, path) then Added(s, path) else s.(signals := s.signals + 1)
  }

  function Replace(workers: seq<Worker>, i: nat, w: Worker): seq<Worker>
    requires i < |workers|
  {
    workers[i := w]
  }

  /** The worker's view of its episode is out of date. */
  predicate Unwanted(s: System, path: string)
    requires path in s.popups && s.popups[path] < |s.workers|
  {
    path !in s.view || s.view[path] != s.workers[s.popups[path]].epoch
  }

  /** One turn of the first loop of Run: cancel when unwanted, drop when done. */
  function Visited(s: System, path: string): System
    requires path in s.popups && s.popups[path] < |s.workers| && s.phase.Reaping?
  {
    var i := s.popups[path];
    var w := s.workers[i];
    var t := s.(phase := Reaping(s.phase.todo - {path}),
                workers := Replace(s.workers, i, w.(cancelled := w.cancelled || Unwanted(s, path))));
    if w.done then t.(popups := s.popups - {path}, finished := s.finished[path := w.epoch]) else t
  }

  predicate HeldBack(s: System, path: string)
    requires path in s.view
  {
    path in s.popups || Lookup(s.finished, path) == s.view[path] || |s.popups| >= MAX_DEVICES
  }

  /** One turn of the last loop of Run. */
  function Launched(s: System, path: string): System
    requires path in s.view && s.phase.Starting?
  {
    var t := s.(phase := Starting(s.phase.todo - {path}));
    if HeldBack(s, path) then t
    else t.(popups := s.popups[path := |s.workers|],
            workers := s.workers + [Worker(path, s.view[path], false, false)])
  }

  /** The deferred first loop: cancel every remaining worker. */
  function CancelAll(s: System): seq<Worker> {
    seq(|s.workers|, i requires 0 <= i < |s.workers| =>
      var w := s.workers[i];
      if w.path in s.popups && s.popups[w.path] == i then w.(cancelled := true) else w)
  }

  predicate Can(s: System, m: Move) {
    match m
    case TurnOn(_) => true
    case TurnOff(_) => true
    case Signal => s.signals > 0
    case Finish(i) => i < |s.workers| && !s.workers[i].done
    case Receive => s.phase == Idle && s.wake
    case Copy => s.phase == Woken
    case Visit(p) => s.phase.Reaping? && p in s.phase.todo && p in s.popups && s.popups[p] < |s.workers|
    case Prune => s.phase == Reaping({})
    case Launch(p) => s.phase.Starting? && p in s.phase.todo && p in s.view
    case Rest => s.phase == Starting({})
    case Quit => s.phase == Idle
    case Await(p) => s.phase.Stopping? && p in s.phase.todo && p in s.popups && s.popups[p] < |s.workers|
                     && s.workers[s.popups[p]].done
    case Return => s.phase == Stopping({})
  }

  function Do(s: System, m: Move): System
    requires Can(s, m)
  {
    match m
    case TurnOn(p) => SetOn(s, p)
    case TurnOff(p) => s.(desired := s.desired - {p}, signals := s.signals + 1)
    case Signal => s.(signals := s.signals - 1, wake := true)
    case Finish(i) => s.(workers := Replace(s.workers, i, s.workers[i].(done := true)), signals := s.signals + 1)
    case Receive => s.(phase := Woken, wake := false)
    case Copy => s.(phase := Reaping(s.popups.Keys), view := s.desired)
    case Visit(p) => Visited(s, p)
    case Prune => s.(phase := Starting(s.view.Keys),
                     finished := map p | p in s.finished && p in s.view :: s.finished[p])
    case Launch(p) => Launched(s, p)
    case Rest => s.(phase := Idle)
    case Quit => s.(phase := Stopping(s.popups.Keys), workers := CancelAll(s))
    case Await(p) => s.(phase := Stopping(s.phase.todo - {p}))
    case Return => s.(phase := Stopped)
  }

  /** Any interleaving of setters, signals, workers and Run. */
  ghost predicate Run(ss: seq<System>, moves: seq<Move>) {
    && |ss| == |moves| + 1 && ss[0] == Begun()
    && forall i | 0 <= i < |moves| :: Can(ss[i], moves[i]) && ss[i + 1] == Do(ss[i], moves[i])
  }
}

/** What every interleaving keeps. */
module PopupsInvariant {
  import opened PopupsModel

  predicate Owned(s: System, e: nat, path: string) {
    e in s.owner && s.owner[e] == path
  }

  /** Every episode number in sight was handed out once, to its path. */
  predicate OwnersOk(s: System) {
    && (forall p | p in s.desired :: Owned(s, s.desired[p], p))
    && (forall p | p in s.view :: Owned(s, s.view[p], p))
    && (forall i | 0 <= i < |s.workers| :: Owned(s, s.workers[i].epoch, s.workers[i].path))
    && (forall e | e in s.owner :: 1 <= e <= s.epoch)
  }

  /** Episode numbers of a path only grow from workers to the view to the mailbox. */
  predicate Behind(s: System, w: Worker) {
    && (w.path in s.desired ==> s.desired[w.path] >= w.epoch)
    && (w.path in s.view ==> s.view[w.path] >= w.epoch)
    && (w.path in s.desired && w.path !in s.view ==> s.desired[w.path] > w.epoch)
  }

  predicate EpochsOk(s: System) {
    && (forall i | 0 <= i < |s.workers| :: Behind(s, s.workers[i]))
    && (forall p | p in s.desired && p in s.view :: s.desired[p] >= s.view[p])
  }

  predicate IsRunning(s: System, i: nat)
    requires i < |s.workers|
  {
    s.workers[i].path in s.popups && s.popups[s.workers[i].path] == i
  }

  /** This episode can never be started again. */
  predicate Over(s: System, path: string, e: nat) {
    || (path in s.finished && s.finished[path] >= e)
    || ((path in s.view ==> s.view[path] > e) && (path in s.desired ==> s.desired[path] > e))
  }

  predicate PopupsOk(s: System) {
    forall p | p in s.popups :: s.popups[p] < |s.workers| && s.workers[s.popups[p]].path == p
  }

  predicate WorkersOk(s: System) {
    forall i | 0 <= i < |s.workers| ::
      IsRunning(s, i) || (s.workers[i].done && Over(s, s.workers[i].path, s.workers[i].epoch))
  }

  ghost predicate FinishedBy(s: System, path: string, i: nat)
    requires path in s.finished
  {
    i < |s.workers| && s.workers[i].path == path && s.workers[i].epoch == s.finished[path] && s.workers[i].done
  }

  ghost predicate FinishedOk(s: System) {
    && (forall p | p in s.finished :: exists i: nat :: FinishedBy(s, p, i))
    && (forall p | p in s.finished && p in s.popups && s.popups[p] < |s.workers| ::
          s.workers[s.popups[p]].epoch > s.finished[p])
  }

  /** Later workers of a path serve later episodes. */
  predicate Growing(s: System) {
    forall i, j | 0 <= i < j < |s.workers| && s.workers[i].path == s.workers[j].path ::
      s.workers[i].epoch < s.workers[j].epoch
  }

  /** The popup of a path is its latest worker. */
  predicate LatestOk(s: System) {
    forall p, j | p in s.popups && s.popups[p] < j < |s.workers| :: s.workers[j].path != p
  }

  predicate SizesOk(s: System) {
    |s.desired| <= MAX_DEVICES && |s.view| <= MAX_DEVICES
  }

  /** A wake-up is on its way. */
  predicate Stirred(s: System) {
    s.wake || s.signals > 0 || s.phase == Woken
  }

  predicate Ahead(s: System, p: string) {
    s.phase.Reaping? && p in s.phase.todo
  }

  predicate PopupHeard(s: System, p: string)
    requires p in s.popups && s.popups[p] < |s.workers|
  {
    && (s.workers[s.popups[p]].done ==> Stirred(s) || Ahead(s, p))
    && (!Ahead(s, p) && Unwanted(s, p) ==> s.workers[s.popups[p]].cancelled)
  }

  /** Nothing that Run has not seen goes without a wake-up. */
  predicate Heard(s: System) {
    s.phase.Stopping? || s.phase.Stopped? ||
    (&& (s.desired != s.view ==> Stirred(s))
     && (forall p | p in s.popups && s.popups[p] < |s.workers| :: PopupHeard(s, p))
     && (!s.phase.Reaping? ==>
           forall p | p in s.view && !(s.phase.Starting? && p in s.phase.todo) :: HeldBack(s, p)))
  }

  predicate TodoOk(s: System) {
    match s.phase
    case Reaping(todo) => todo <= s.popups.Keys
    case Starting(todo) => todo <= s.view.Keys
    case Stopping(todo) =>
      forall p | p in s.popups && s.popups[p] < |s.workers| && p !in todo :: s.workers[s.popups[p]].done
    case Stopped => forall p | p in s.popups && s.popups[p] < |s.workers| :: s.workers[s.popups[p]].done
    case _ => true
  }

  /** Episodes, workers and records. */
  ghost predicate Core(s: System) {
    && OwnersOk(s) && EpochsOk(s) && PopupsOk(s) && WorkersOk(s) && FinishedOk(s) && Growing(s)
    && LatestOk(s) && SizesOk(s)
  }

  /** A newer episode of the worker's path has begun, or none is on. */
  predicate Outdated(s: System, w: Worker) {
    (w.path in s.desired ==> s.desired[w.path] > w.epoch) && (w.path in s.view ==> s.view[w.path] > w.epoch)
  }

  /** Until Run ends only workers of past episodes are cancelled; from then on all that have not ended. */
  predicate CancelsOk(s: System) {
    if s.phase.Stopping? || s.phase.Stopped?
    then forall i | 0 <= i < |s.workers| :: s.workers[i].cancelled || s.workers[i].done
    else forall i | 0 <= i < |s.workers| && s.workers[i].cancelled :: Outdated(s, s.workers[i])
  }

  /** Outside the first loop, what is on record as finished is on the copy. */
  predicate FinishedTrimmed(s: System) {
    s.phase.Idle? || s.phase.Woken? || s.phase.Starting? ==> s.finished.Keys <= s.view.Keys
  }

  ghost predicate Inv(s: System) {
    Core(s) && Heard(s) && TodoOk(s) && CancelsOk(s) && FinishedTrimmed(s)
  }
}
