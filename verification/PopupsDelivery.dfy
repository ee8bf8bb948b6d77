/** No update of the popup mailbox is lost. */
module PopupsDelivery {
  import opened PopupsModel
  import opened PopupsInvariant
  import opened PopupsSafety
  import opened Sizes

  predicate Ended(s: System) {
    s.phase.Stopping? || s.phase.Stopped?
  }

  /** After a setter, a signal or an ended worker a wake-up is on its way, whatever was seen before. */
  lemma HeardStirred(s: System, t: System)
    requires Heard(s) && PopupsOk(s) && t.phase == s.phase && t.view == s.view
    requires SameRecords(s, t) && (t.wake || t.signals > 0)
    ensures Heard(t)
  {
    if !Ended(t) {
      forall p | p in t.popups && t.popups[p] < |t.workers| ensures PopupHeard(t, p) {
        assert PopupHeard(s, p);
      }
      if !t.phase.Reaping? {
        forall p | p in t.view && !(t.phase.Starting? && p in t.phase.todo) ensures HeldBack(t, p) {
          assert HeldBack(s, p);
        }
      }
    }
  }

  /** Taking the wake-up, or going back to wait at the end of a pass. */
  lemma HeardPhase(s: System, t: System)
    requires Heard(s) && t == s.(phase := t.phase, wake := t.wake)
    requires (s.phase == Idle && t.phase == Woken) || (s.phase == Starting({}) && t.phase == Idle && t.wake == s.wake)
    ensures Heard(t)
  {
    forall p | p in t.popups && t.popups[p] < |t.workers| ensures PopupHeard(t, p) {
      assert PopupHeard(s, p);
    }
    forall p | p in t.view ensures HeldBack(t, p) {
      assert HeldBack(s, p);
    }
  }

  lemma HeardCopy(s: System)
    requires s.phase == Woken
    ensures Heard(Do(s, Copy))
  {
  }

  lemma HeardVisit(s: System, path: string)
    requires Heard(s) && PopupsOk(s) && Can(s, Visit(path))
    ensures Heard(Visited(s, path))
  {
    var t := Visited(s, path);
    hide HeldBack;
    forall p | p in t.popups && t.popups[p] < |t.workers| ensures PopupHeard(t, p) {
      assert PopupHeard(s, p);
    }
  }

  lemma HeardPrune(s: System)
    requires Heard(s) && Can(s, Prune)
    ensures Heard(Do(s, Prune))
  {
    var t := Do(s, Prune);
    hide HeldBack;
    forall p | p in t.popups && t.popups[p] < |t.workers| ensures PopupHeard(t, p) {
      assert PopupHeard(s, p);
    }
  }

  lemma HeardLaunch(s: System, path: string)
    requires Heard(s) && PopupsOk(s) && Can(s, Launch(path))
    ensures Heard(Launched(s, path))
  {
    var t := Launched(s, path);
    LaunchHeld(s, path);
    LaunchHeard(s, path);
    hide PopupHeard, HeldBack;
  }

  lemma LaunchHeard(s: System, path: string)
    requires Heard(s) && PopupsOk(s) && Can(s, Launch(path))
    ensures var t := Launched(s, path); forall p | p in t.popups && t.popups[p] < |t.workers| :: PopupHeard(t, p)
  {
    var t := Launched(s, path);
    hide Heard;
    forall p | p in t.popups && t.popups[p] < |t.workers| ensures PopupHeard(t, p) {
      if p in s.popups { HeardAt(s, p); }
    }
  }

  lemma HeardAt(s: System, p: string)
    requires Heard(s) && !Ended(s) && p in s.popups && s.popups[p] < |s.workers|
    ensures PopupHeard(s, p)
  {
  }

  lemma LaunchHeld(s: System, path: string)
    requires Heard(s) && Can(s, Launch(path))
    ensures var t := Launched(s, path); forall p | p in t.view && p !in t.phase.todo :: HeldBack(t, p)
  {
    var t := Launched(s, path);
    if !HeldBack(s, path) {
      UpdateSize(s.popups, path, |s.workers|);
    }
    hide PopupHeard;
    forall p | p in t.view && p !in t.phase.todo ensures HeldBack(t, p) {
      if p != path { assert HeldBack(s, p); }
    }
  }

  lemma HeardKept(s: System, m: Move)
    requires Heard(s) && PopupsOk(s) && Can(s, m)
    ensures Heard(Do(s, m))
  {
    hide Heard, PopupsOk, SetOn, Visited, Launched, Like, Replace, CancelAll;
    match m
    case TurnOn(p) =>
      LikeItself(s);
      TurnOnRecords(s, p);
      HeardStirred(s, Do(s, m));
    case TurnOff(p) => LikeItself(s); HeardStirred(s, Do(s, m));
    case Signal => LikeItself(s); HeardStirred(s, Do(s, m));
    case Finish(i) => FinishLike(s, i); HeardStirred(s, Do(s, m));
    case Copy => HeardCopy(s);
    case Visit(p) => HeardVisit(s, p);
    case Prune => HeardPrune(s);
    case Launch(p) => HeardLaunch(s, p);
    case Quit => EndedHeard(Do(s, m));
    case Await(_) => EndedHeard(Do(s, m));
    case Return => EndedHeard(Do(s, m));
    case Receive => HeardPhase(s, Do(s, m));
    case Rest => HeardPhase(s, Do(s, m));
  }

  lemma EndedHeard(t: System)
    requires Ended(t)
    ensures Heard(t)
  {
  }

  lemma TurnOnRecords(s: System, path: string)
    ensures var t := SetOn(s, path);
            && t.phase == s.phase && t.view == s.view && t.popups == s.popups && t.finished == s.finished
            && t.workers == s.workers && t.signals == s.signals + 1
  {
  }

  // ---------------------------------------------------------------- the loops

  lemma TodoFrame(s: System, t: System)
    requires TodoOk(s) && t.phase == s.phase && t.view == s.view && SameRecords(s, t)
    ensures TodoOk(t)
  {
  }

  lemma TodoPass(s: System, m: Move)
    requires TodoOk(s) && Can(s, m)
    requires m.Receive? || m.Copy? || m.Prune? || m.Rest? || m.Visit? || m.Launch?
    ensures TodoOk(Do(s, m))
  {
    hide HeldBack, Replace, Unwanted;
  }

  lemma TodoEnds(s: System, m: Move)
    requires TodoOk(s) && Can(s, m)
    requires m.Quit? || m.Await? || m.Return?
    ensures TodoOk(Do(s, m))
  {
  }

  lemma TodoKept(s: System, m: Move)
    requires TodoOk(s) && Can(s, m)
    ensures TodoOk(Do(s, m))
  {
    hide TodoOk, SetOn, Visited, Launched, Like, Replace, CancelAll;
    match m
    case TurnOn(p) =>
      LikeItself(s);
      TurnOnRecords(s, p);
      TodoFrame(s, Do(s, m));
    case TurnOff(p) => LikeItself(s); TodoFrame(s, Do(s, m));
    case Signal => LikeItself(s); TodoFrame(s, Do(s, m));
    case Finish(i) => FinishLike(s, i); TodoFrame(s, Do(s, m));
    case Quit => TodoEnds(s, m);
    case Await(_) => TodoEnds(s, m);
    case Return => TodoEnds(s, m);
    case _ => TodoPass(s, m);
  }

  // ---------------------------------------------------------------- who is cancelled

  lemma CancelsSame(s: System, t: System)
    requires CancelsOk(s) && t.phase == s.phase && t.view == s.view && t.workers == s.workers
    requires forall p | p in t.desired :: (p in s.desired && t.desired[p] == s.desired[p]) || t.desired[p] > s.epoch
    requires forall i | 0 <= i < |s.workers| :: s.workers[i].epoch <= s.epoch
    ensures CancelsOk(t)
  {
    if !Ended(s) {
      forall i | 0 <= i < |t.workers| && t.workers[i].cancelled ensures Outdated(t, t.workers[i]) {
        assert Outdated(s, s.workers[i]);
      }
    }
  }

  lemma EpochsKnown(s: System)
    requires OwnersOk(s)
    ensures forall i | 0 <= i < |s.workers| :: s.workers[i].epoch <= s.epoch
  {
    forall i | 0 <= i < |s.workers| ensures s.workers[i].epoch <= s.epoch {
      assert Owned(s, s.workers[i].epoch, s.workers[i].path);
    }
  }

  lemma CancelsFinish(s: System, i: nat)
    requires CancelsOk(s) && Can(s, Finish(i))
    ensures CancelsOk(Do(s, Finish(i)))
  {
    var t := Do(s, Finish(i));
    if !Ended(s) {
      forall j | 0 <= j < |t.workers| && t.workers[j].cancelled ensures Outdated(t, t.workers[j]) {
        assert Outdated(s, s.workers[j]);
      }
    }
  }

  lemma CancelsCopy(s: System)
    requires CancelsOk(s) && s.phase == Woken
    ensures CancelsOk(Do(s, Copy))
  {
    var t := Do(s, Copy);
    forall i | 0 <= i < |t.workers| && t.workers[i].cancelled ensures Outdated(t, t.workers[i]) {
      assert Outdated(s, s.workers[i]);
    }
  }

  /** A worker that is cancelled now serves an episode older than the one on the copy and in the mailbox. */
  lemma CancelsVisit(s: System, path: string)
    requires CancelsOk(s) && EpochsOk(s) && PopupsOk(s) && Can(s, Visit(path))
    ensures CancelsOk(Visited(s, path))
  {
    var t := Visited(s, path);
    var i := s.popups[path];
    assert Behind(s, s.workers[i]);
    forall j | 0 <= j < |t.workers| && t.workers[j].cancelled ensures Outdated(t, t.workers[j]) {
      if s.workers[j].cancelled { assert Outdated(s, s.workers[j]); }
    }
  }

  lemma CancelsLaunch(s: System, path: string)
    requires CancelsOk(s) && Can(s, Launch(path))
    ensures CancelsOk(Launched(s, path))
  {
    var t := Launched(s, path);
    hide HeldBack;
    forall j | 0 <= j < |t.workers| && t.workers[j].cancelled ensures Outdated(t, t.workers[j]) {
      assert Outdated(s, s.workers[j]);
    }
  }

  lemma CancelsQuit(s: System)
    requires WorkersOk(s) && Can(s, Quit)
    ensures CancelsOk(Do(s, Quit))
  {
    var t := Do(s, Quit);
    hide Over;
    forall i | 0 <= i < |t.workers| ensures t.workers[i].cancelled || t.workers[i].done {
      assert IsRunning(s, i) || s.workers[i].done;
    }
  }

  lemma CancelsKept(s: System, m: Move)
    requires Core(s) && CancelsOk(s) && Can(s, m)
    ensures CancelsOk(Do(s, m))
  {
    hide CancelsOk, EpochsOk, PopupsOk, WorkersOk, OwnersOk, FinishedOk, Visited, Launched, Replace, CancelAll, SetOn;
    match m
    case Finish(i) => CancelsFinish(s, i);
    case Copy => CancelsCopy(s);
    case Visit(p) => CancelsVisit(s, p);
    case Launch(p) => CancelsLaunch(s, p);
    case Quit => CancelsQuit(s);
    case TurnOn(_) => CancelsSetter(s, m);
    case TurnOff(_) => CancelsSetter(s, m);
    case Signal => CancelsSetter(s, m);
    case _ => CancelsPhase(s, m);
  }

  lemma CancelsSetter(s: System, m: Move)
    requires OwnersOk(s) && CancelsOk(s) && Can(s, m) && (m.TurnOn? || m.TurnOff? || m.Signal?)
    ensures CancelsOk(Do(s, m))
  {
    EpochsKnown(s);
    hide CancelsOk, OwnersOk;
    CancelsSame(s, Do(s, m));
  }

  lemma CancelsPhase(s: System, m: Move)
    requires CancelsOk(s) && Can(s, m)
    requires m.Receive? || m.Prune? || m.Rest? || m.Await? || m.Return?
    ensures CancelsOk(Do(s, m))
  {
    var t := Do(s, m);
    if !Ended(t) {
      forall i | 0 <= i < |t.workers| && t.workers[i].cancelled ensures Outdated(t, t.workers[i]) {
        assert Outdated(s, s.workers[i]);
      }
    }
  }

  lemma TrimmedKept(s: System, m: Move)
    requires FinishedTrimmed(s) && Can(s, m)
    ensures FinishedTrimmed(Do(s, m))
  {
    hide HeldBack, Unwanted, Replace, CancelAll, Room;
  }

  // ---------------------------------------------------------------- runs

  lemma InvKept(s: System, m: Move)
    requires Inv(s) && Can(s, m)
    ensures Inv(Do(s, m))
  {
    assert PopupsOk(s);
    hide Core, Heard, TodoOk, Do, Can, PopupsOk, CancelsOk, FinishedTrimmed;
    CoreKept(s, m);
    HeardKept(s, m);
    TodoKept(s, m);
    CancelsKept(s, m);
    TrimmedKept(s, m);
  }

  lemma {:induction false} InvHolds(ss: seq<System>, moves: seq<Move>, n: nat)
    requires Run(ss, moves) && n < |ss|
    ensures Inv(ss[n])
  {
    hide Do, Can, Inv;
    if n == 0 {
      InvBegun();
    } else {
      InvHolds(ss, moves, n - 1);
      InvKept(ss[n - 1], moves[n - 1]);
    }
  }

  lemma InvBegun()
    ensures Inv(Begun())
  {
  }

  /** Run is blocked without a wake-up, nobody is about to signal, and cancelled workers have ended. */
  predicate Quiescent(s: System) {
    && s.phase == Idle && !s.wake && s.signals == 0
    && forall w | w in s.workers && w.cancelled :: w.done
  }

  /** Worker i is showing the popup of the current episode of its path. */
  predicate Serves(s: System, i: nat, path: string)
    requires path in s.desired
  {
    i < |s.workers| && s.workers[i].path == path && s.workers[i].epoch == s.desired[path] && !s.workers[i].done
  }

  /** Worker i was for the current episode of its path and has ended of itself, never cancelled. */
  predicate Served(s: System, i: nat, path: string)
    requires path in s.desired
  {
    && i < |s.workers| && s.workers[i].path == path && s.workers[i].epoch == s.desired[path]
    && s.workers[i].done && !s.workers[i].cancelled
  }

  ghost predicate Shown(s: System, path: string) {
    path in s.desired && exists i: nat :: Serves(s, i, path)
  }

  ghost predicate WasShown(s: System, path: string) {
    path in s.desired && exists i: nat :: Served(s, i, path)
  }

  /** Every desired device has a worker for its current episode or one that already ended; nothing else runs. */
  ghost predicate Settled(s: System) {
    && (forall p | p in s.desired :: Shown(s, p) || WasShown(s, p))
    && (forall i: nat | i < |s.workers| && !s.workers[i].done ::
          s.workers[i].path in s.desired && Serves(s, i, s.workers[i].path))
  }

  lemma PopupSettled(s: System, p: string)
    requires PopupsOk(s) && Heard(s) && Quiescent(s) && p in s.popups
    ensures p in s.desired && Serves(s, s.popups[p], p)
  {
    assert PopupHeard(s, p);
    assert s.workers[s.popups[p]] in s.workers;
  }

  /** The device limit then holds nothing back. */
  lemma NobodyHeldBack(s: System, p: string)
    requires PopupsOk(s) && Heard(s) && SizesOk(s) && Quiescent(s) && p in s.desired && p !in s.popups
    ensures Lookup(s.finished, p) == s.desired[p]
  {
    assert HeldBack(s, p);
    hide Heard;
    forall q | q in s.popups.Keys ensures q in s.desired.Keys - {p} {
      PopupSettled(s, q);
    }
    SubsetSize(s.popups.Keys, s.desired.Keys - {p});
  }

  lemma RecordOf(s: System, p: string) returns (i: nat)
    requires FinishedOk(s) && OwnersOk(s) && p in s.desired && Lookup(s.finished, p) == s.desired[p]
    requires CancelsOk(s) && !Ended(s)
    ensures Served(s, i, p)
  {
    assert Owned(s, s.desired[p], p);
    i :| FinishedBy(s, p, i);
    assert s.workers[i].cancelled ==> Outdated(s, s.workers[i]);
  }

  lemma QuiescentSettles(s: System)
    requires Inv(s) && Quiescent(s)
    ensures Settled(s)
  {
    assert !Ended(s);
    hide Heard, TodoOk, PopupsOk, OwnersOk, EpochsOk, FinishedOk, Growing, LatestOk, SizesOk, Over, Quiescent, Lookup;
    hide CancelsOk, FinishedTrimmed;
    forall p | p in s.desired ensures Shown(s, p) || WasShown(s, p) {
      if p in s.popups {
        PopupSettled(s, p);
      } else {
        NobodyHeldBack(s, p);
        var i := RecordOf(s, p);
      }
    }
    forall i: nat | i < |s.workers| && !s.workers[i].done
      ensures s.workers[i].path in s.desired && Serves(s, i, s.workers[i].path)
    {
      assert IsRunning(s, i);
      PopupSettled(s, s.workers[i].path);
    }
  }

  /** The wake-up mailbox loses no update, in any interleaving. */
  lemma NothingLost(ss: seq<System>, moves: seq<Move>, n: nat)
    requires Run(ss, moves) && n < |ss| && Quiescent(ss[n])
    ensures Settled(ss[n])
  {
    hide Inv, Quiescent, Settled, Run;
    InvHolds(ss, moves, n);
    QuiescentSettles(ss[n]);
  }

  /** Until Run ends it cancels a worker only when the worker's episode is over: no episode of its path is on, or a
      later one. */
  lemma OnlyOutdatedAreCancelled(ss: seq<System>, moves: seq<Move>, n: nat, i: nat)
    requires Run(ss, moves) && n < |ss| && !Ended(ss[n]) && i < |ss[n].workers| && ss[n].workers[i].cancelled
    ensures var w := ss[n].workers[i]; w.path !in ss[n].desired || ss[n].desired[w.path] > w.epoch
  {
    hide Run, Core, Heard, TodoOk;
    InvHolds(ss, moves, n);
    assert Outdated(ss[n], ss[n].workers[i]);
  }

  /** When Run ends it cancels every worker that has not ended. */
  lemma EndingCancelsAll(ss: seq<System>, moves: seq<Move>, n: nat, i: nat)
    requires Run(ss, moves) && n < |ss| && Ended(ss[n]) && i < |ss[n].workers|
    ensures ss[n].workers[i].cancelled || ss[n].workers[i].done
  {
    hide Run, Core, Heard, TodoOk;
    InvHolds(ss, moves, n);
  }

  /** A worker keeps its path and episode, and that it was cancelled or has ended is never taken back. */
  lemma {:induction false} WorkersStay(ss: seq<System>, moves: seq<Move>, n: nat, m: nat, i: nat)
    requires Run(ss, moves) && n <= m < |ss| && i < |ss[n].workers|
    ensures i < |ss[m].workers|
    ensures ss[m].workers[i].path == ss[n].workers[i].path && ss[m].workers[i].epoch == ss[n].workers[i].epoch
    ensures ss[n].workers[i].cancelled ==> ss[m].workers[i].cancelled
    ensures ss[n].workers[i].done ==> ss[m].workers[i].done
    decreases m
  {
    hide Do, Can;
    if n < m {
      WorkersStay(ss, moves, n, m - 1, i);
      OneWorkerStays(ss[m - 1], moves[m - 1], i);
    }
  }

  lemma OneWorkerStays(s: System, m: Move, i: nat)
    requires Can(s, m) && i < |s.workers|
    ensures i < |Do(s, m).workers|
    ensures var w, v := s.workers[i], Do(s, m).workers[i];
            v.path == w.path && v.epoch == w.epoch && (w.cancelled ==> v.cancelled) && (w.done ==> v.done)
  {
    if m.Quit? {
      hide Visited, Launched, SetOn;
    } else if m.Visit? {
      hide CancelAll, Launched, SetOn, Unwanted;
    } else if m.Launch? {
      hide CancelAll, Visited, SetOn, HeldBack;
    } else {
      hide CancelAll, Visited, Launched, Room;
    }
  }

  /** An activation is recorded under a new number unless its device is on already or 32 others are. */
  lemma ActivationsAreRecorded(ss: seq<System>, moves: seq<Move>, n: nat)
    requires Run(ss, moves) && n < |moves| && moves[n].TurnOn?
    ensures var p, s, t := moves[n].path, ss[n], ss[n + 1];
            t.desired == if p in s.desired || |s.desired| == 32 then s.desired else s.desired[p := t.epoch]
    ensures var p, s, t := moves[n].path, ss[n], ss[n + 1];
            p !in s.desired && p in t.desired ==> forall q | q in s.desired :: s.desired[q] < t.desired[p]
  {
    hide Heard, TodoOk, CancelsOk, FinishedTrimmed, EpochsOk, PopupsOk, WorkersOk, FinishedOk, Growing, LatestOk;
    InvHolds(ss, moves, n);
    assert ss[n + 1] == Do(ss[n], moves[n]);
    hide Run;
  }

  /** Between passes the records of ended workers are of devices on the last copy, so there are at most 32. */
  lemma RecordsAreFew(ss: seq<System>, moves: seq<Move>, n: nat)
    requires Run(ss, moves) && n < |ss| && ss[n].phase.Idle?
    ensures ss[n].finished.Keys <= ss[n].view.Keys && |ss[n].finished| <= 32
  {
    hide Run, Heard, TodoOk, CancelsOk, EpochsOk, PopupsOk, WorkersOk, FinishedOk, Growing, LatestOk, OwnersOk;
    InvHolds(ss, moves, n);
    SubsetSize(ss[n].finished.Keys, ss[n].view.Keys);
  }

  /** Each episode starts at most one worker, and an episode belongs to one path. */
  lemma OneWorkerPerEpisode(ss: seq<System>, moves: seq<Move>, n: nat, i: nat, j: nat)
    requires Run(ss, moves) && n < |ss| && i < |ss[n].workers| && j < |ss[n].workers|
    requires ss[n].workers[i].epoch == ss[n].workers[j].epoch
    ensures i == j
  {
    hide Run;
    InvHolds(ss, moves, n);
    var s := ss[n];
    assert OwnersOk(s) && Growing(s);
    assert Owned(s, s.workers[i].epoch, s.workers[i].path) && Owned(s, s.workers[j].epoch, s.workers[j].path);
  }

  /** A path has at most one worker that has not ended, and it serves a later episode than any that has. */
  lemma OneUnfinishedPerPath(ss: seq<System>, moves: seq<Move>, n: nat, i: nat, j: nat)
    requires Run(ss, moves) && n < |ss| && i < |ss[n].workers| && j < |ss[n].workers| && i != j
    requires ss[n].workers[i].path == ss[n].workers[j].path && !ss[n].workers[i].done
    ensures ss[n].workers[j].done && ss[n].workers[j].epoch < ss[n].workers[i].epoch
    ensures ss[n].workers[i].path in ss[n].finished ==>
              ss[n].finished[ss[n].workers[i].path] < ss[n].workers[i].epoch
  {
    hide Run;
    InvHolds(ss, moves, n);
    var s := ss[n];
    assert WorkersOk(s) && Growing(s) && FinishedOk(s);
    assert IsRunning(s, i) && !IsRunning(s, j);
    OverOnce(s, i, j);
  }

  lemma OverOnce(s: System, i: nat, j: nat)
    requires Core(s) && i < |s.workers| && j < |s.workers| && s.workers[i].path == s.workers[j].path
    requires IsRunning(s, i) && !IsRunning(s, j)
    ensures s.workers[j].epoch < s.workers[i].epoch
  {
    hide OwnersOk, EpochsOk, WorkersOk, FinishedOk;
  }

  /** No worker outlives Run. */
  lemma NoneOutlivesRun(ss: seq<System>, moves: seq<Move>, n: nat, i: nat)
    requires Run(ss, moves) && n < |ss| && ss[n].phase == Stopped && i < |ss[n].workers|
    ensures ss[n].workers[i].done
  {
    hide Run;
    InvHolds(ss, moves, n);
    var s := ss[n];
    assert WorkersOk(s) && TodoOk(s) && PopupsOk(s);
  }
}
