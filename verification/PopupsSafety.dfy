/** The invariant of the popup protocol is kept by every move. */
module PopupsSafety {
  import opened PopupsModel
  import opened PopupsInvariant
  import opened Sizes

  // ---------------------------------------------------------------- moves that leave the records alone

  /** The same workers, some of them cancelled or done by now. */
  predicate Like(a: seq<Worker>, b: seq<Worker>) {
    && |a| == |b|
    && forall i | 0 <= i < |a| ::
         && a[i].path == b[i].path && a[i].epoch == b[i].epoch
         && (a[i].cancelled ==> b[i].cancelled) && (a[i].done ==> b[i].done)
  }

  predicate SameEpisodes(s: System, t: System) {
    t.desired == s.desired && t.epoch == s.epoch && t.owner == s.owner && t.view == s.view
  }

  predicate SameRecords(s: System, t: System) {
    t.popups == s.popups && t.finished == s.finished && Like(s.workers, t.workers)
  }

  lemma CoreFrame(s: System, t: System)
    requires Core(s) && SameEpisodes(s, t) && SameRecords(s, t)
    ensures Core(t)
  {
    OwnersFrame(s, t);
    EpochsFrame(s, t);
    PopupsFrame(s, t);
    WorkersFrame(s, t);
    FinishedFrame(s, t);
    GrowingFrame(s, t);
    LatestFrame(s, t);
    hide OwnersOk, EpochsOk, PopupsOk, WorkersOk, FinishedOk, Growing, LatestOk;
  }

  lemma OwnersFrame(s: System, t: System)
    requires OwnersOk(s) && SameEpisodes(s, t) && Like(s.workers, t.workers)
    ensures OwnersOk(t)
  {
  }

  lemma EpochsFrame(s: System, t: System)
    requires EpochsOk(s) && SameEpisodes(s, t) && Like(s.workers, t.workers)
    ensures EpochsOk(t)
  {
    forall i | 0 <= i < |t.workers| ensures Behind(t, t.workers[i]) {
      assert Behind(s, s.workers[i]);
    }
  }

  lemma PopupsFrame(s: System, t: System)
    requires PopupsOk(s) && SameRecords(s, t)
    ensures PopupsOk(t)
  {
  }

  lemma WorkersFrame(s: System, t: System)
    requires WorkersOk(s) && SameEpisodes(s, t) && SameRecords(s, t)
    ensures WorkersOk(t)
  {
  }

  lemma FinishedFrame(s: System, t: System)
    requires FinishedOk(s) && SameRecords(s, t)
    ensures FinishedOk(t)
  {
    forall p | p in t.finished ensures exists i: nat :: FinishedBy(t, p, i) {
      var i: nat :| FinishedBy(s, p, i);
      assert FinishedBy(t, p, i);
    }
  }

  lemma GrowingFrame(s: System, t: System)
    requires Growing(s) && Like(s.workers, t.workers)
    ensures Growing(t)
  {
  }

  lemma LatestFrame(s: System, t: System)
    requires LatestOk(s) && Like(s.workers, t.workers)
    requires forall p | p in t.popups :: p in s.popups && t.popups[p] == s.popups[p]
    ensures LatestOk(t)
  {
  }

  // ---------------------------------------------------------------- the mailbox

  lemma TurnOnCore(s: System, path: string)
    requires Core(s)
    ensures Core(SetOn(s, path))
  {
    hide OwnersOk, EpochsOk, PopupsOk, WorkersOk, FinishedOk, Growing, LatestOk, SizesOk, Like, Added;
    LikeItself(s);
    if Room(s, path) {
      AddedCore(s, path);
    } else {
      CoreFrame(s, s.(signals := s.signals + 1));
    }
  }

  lemma AddedCore(s: System, path: string)
    requires Core(s) && Room(s, path)
    ensures Core(Added(s, path))
  {
    var t := Added(s, path);
    LikeItself(s);
    AddedSizes(s, path);
    hide OwnersOk, EpochsOk, PopupsOk, WorkersOk, FinishedOk, Growing, LatestOk, SizesOk, Like;
    AddedOwners(s, path);
    AddedEpochs(s, path);
    AddedWorkers(s, path);
    PopupsFrame(s, t);
    FinishedFrame(s, t);
    GrowingFrame(s, t);
    LatestFrame(s, t);
  }

  lemma AddedSizes(s: System, path: string)
    requires SizesOk(s) && Room(s, path)
    ensures SizesOk(Added(s, path))
  {
    UpdateSize(s.desired, path, s.epoch + 1);
  }

  lemma AddedOwners(s: System, path: string)
    requires OwnersOk(s)
    ensures OwnersOk(Added(s, path))
  {
    hide Owned;
    var t := Added(s, path);
    forall e: nat, p | Owned(s, e, p) ensures Owned(t, e, p) {
      OwnedStays(s, path, e, p);
    }
    NewlyOwned(s, path);
  }

  lemma OwnedStays(s: System, path: string, e: nat, p: string)
    requires OwnersOk(s) && Owned(s, e, p)
    ensures Owned(Added(s, path), e, p)
  {
  }

  lemma NewlyOwned(s: System, path: string)
    ensures Owned(Added(s, path), s.epoch + 1, path)
  {
  }

  /** A new episode comes after every episode there is. */
  lemma AddedEpochs(s: System, path: string)
    requires OwnersOk(s) && EpochsOk(s) && Room(s, path)
    ensures EpochsOk(Added(s, path))
  {
    var t := Added(s, path);
    forall i | 0 <= i < |t.workers| ensures Behind(t, t.workers[i]) {
      assert Behind(s, s.workers[i]) && Owned(s, s.workers[i].epoch, s.workers[i].path);
    }
  }

  lemma AddedWorkers(s: System, path: string)
    requires OwnersOk(s) && WorkersOk(s)
    ensures WorkersOk(Added(s, path))
  {
    var t := Added(s, path);
    forall i | 0 <= i < |t.workers| && !IsRunning(t, i)
      ensures t.workers[i].done && Over(t, t.workers[i].path, t.workers[i].epoch)
    {
      assert !IsRunning(s, i) && Owned(s, s.workers[i].epoch, s.workers[i].path);
    }
  }

  lemma TurnOffCore(s: System, path: string)
    requires Core(s)
    ensures Core(Do(s, TurnOff(path)))
  {
    var t := Do(s, TurnOff(path));
    LikeItself(s);
    SubsetSize(t.desired.Keys, s.desired.Keys);
    TurnOffOwners(s, path);
    hide OwnersOk, EpochsOk, PopupsOk, WorkersOk, FinishedOk, Growing, LatestOk, Like;
    TurnOffEpochs(s, path);
    TurnOffWorkers(s, path);
    PopupsFrame(s, t);
    FinishedFrame(s, t);
    GrowingFrame(s, t);
    LatestFrame(s, t);
  }

  lemma TurnOffOwners(s: System, path: string)
    requires OwnersOk(s)
    ensures OwnersOk(Do(s, TurnOff(path)))
  {
    hide Owned;
    SameOwners(s, Do(s, TurnOff(path)));
  }

  lemma SameOwners(s: System, t: System)
    requires t.owner == s.owner
    ensures forall e: nat, p :: Owned(t, e, p) == Owned(s, e, p)
  {
  }

  lemma TurnOffEpochs(s: System, path: string)
    requires EpochsOk(s)
    ensures EpochsOk(Do(s, TurnOff(path)))
  {
    var t := Do(s, TurnOff(path));
    forall i | 0 <= i < |t.workers| ensures Behind(t, t.workers[i]) {
      assert Behind(s, s.workers[i]);
    }
  }

  lemma TurnOffWorkers(s: System, path: string)
    requires WorkersOk(s)
    ensures WorkersOk(Do(s, TurnOff(path)))
  {
    var t := Do(s, TurnOff(path));
    forall i | 0 <= i < |t.workers| && !IsRunning(t, i)
      ensures t.workers[i].done && Over(t, t.workers[i].path, t.workers[i].epoch)
    {
      assert !IsRunning(s, i);
    }
  }

  // ---------------------------------------------------------------- one pass of Run

  lemma CopyCore(s: System)
    requires Core(s) && s.phase == Woken
    ensures Core(Do(s, Copy))
  {
    hide OwnersOk, EpochsOk, PopupsOk, WorkersOk, FinishedOk, Growing, LatestOk, Like;
    var t := Do(s, Copy);
    LikeItself(s);
    CopyOwners(s);
    CopyEpochs(s);
    CopyWorkers(s);
    PopupsFrame(s, t);
    FinishedFrame(s, t);
    GrowingFrame(s, t);
    LatestFrame(s, t);
  }

  lemma CopyOwners(s: System)
    requires OwnersOk(s) && s.phase == Woken
    ensures OwnersOk(Do(s, Copy))
  {
    hide Owned;
    SameOwners(s, Do(s, Copy));
  }

  lemma CopyEpochs(s: System)
    requires EpochsOk(s) && s.phase == Woken
    ensures EpochsOk(Do(s, Copy))
  {
    var t := Do(s, Copy);
    forall i | 0 <= i < |t.workers| ensures Behind(t, t.workers[i]) {
      assert Behind(s, s.workers[i]);
    }
  }

  lemma CopyWorkers(s: System)
    requires WorkersOk(s) && s.phase == Woken
    ensures WorkersOk(Do(s, Copy))
  {
    var t := Do(s, Copy);
    forall i | 0 <= i < |t.workers| && !IsRunning(t, i)
      ensures t.workers[i].done && Over(t, t.workers[i].path, t.workers[i].epoch)
    {
      assert !IsRunning(s, i);
    }
  }

  lemma CancelsOne(s: System, path: string)
    requires PopupsOk(s) && Can(s, Visit(path))
    ensures Like(s.workers, Visited(s, path).workers) && SameEpisodes(s, Visited(s, path))
    ensures !s.workers[s.popups[path]].done ==> SameRecords(s, Visited(s, path))
  {
    var i := s.popups[path];
    ReplaceLike(s.workers, i, s.workers[i].(cancelled := s.workers[i].cancelled || Unwanted(s, path)));
    hide Unwanted, Like, Replace;
  }

  lemma ReplaceLike(workers: seq<Worker>, i: nat, w: Worker)
    requires i < |workers| && w.path == workers[i].path && w.epoch == workers[i].epoch
    requires (workers[i].cancelled ==> w.cancelled) && (workers[i].done ==> w.done)
    ensures Like(workers, Replace(workers, i, w))
  {
  }

  lemma VisitCore(s: System, path: string)
    requires Core(s) && Can(s, Visit(path))
    ensures Core(Visited(s, path))
  {
    CancelsOne(s, path);
    if s.workers[s.popups[path]].done {
      VisitEnded(s, path);
    } else {
      hide *;
      CoreFrame(s, Visited(s, path));
    }
  }

  lemma VisitEnded(s: System, path: string)
    requires Core(s) && Can(s, Visit(path)) && s.workers[s.popups[path]].done
    ensures Core(Visited(s, path))
  {
    var t := Visited(s, path);
    CancelsOne(s, path);
    VisitPopups(s, path);
    hide OwnersOk, EpochsOk, PopupsOk, WorkersOk, FinishedOk, Growing, LatestOk, Like, Visited;
    OwnersFrame(s, t);
    EpochsFrame(s, t);
    GrowingFrame(s, t);
    LatestFrame(s, t);
    VisitWorkers(s, path);
    VisitFinished(s, path);
  }

  lemma VisitPopups(s: System, path: string)
    requires PopupsOk(s) && Can(s, Visit(path))
    ensures PopupsOk(Visited(s, path))
    ensures forall p | p in Visited(s, path).popups :: p in s.popups && Visited(s, path).popups[p] == s.popups[p]
  {
    CancelsOne(s, path);
    hide Unwanted, Replace;
  }

  lemma VisitWorkers(s: System, path: string)
    requires PopupsOk(s) && WorkersOk(s) && FinishedOk(s) && Can(s, Visit(path)) && s.workers[s.popups[path]].done
    ensures WorkersOk(Visited(s, path))
  {
    var t := Visited(s, path);
    CancelsOne(s, path);
    hide Unwanted;
    forall i | 0 <= i < |t.workers| && !IsRunning(t, i)
      ensures t.workers[i].done && Over(t, t.workers[i].path, t.workers[i].epoch)
    {
      if IsRunning(s, i) {
        assert s.workers[i].path == path;
      } else {
        assert Over(s, s.workers[i].path, s.workers[i].epoch);
      }
    }
  }

  lemma VisitFinished(s: System, path: string)
    requires PopupsOk(s) && FinishedOk(s) && Can(s, Visit(path)) && s.workers[s.popups[path]].done
    ensures FinishedOk(Visited(s, path))
  {
    var t := Visited(s, path);
    CancelsOne(s, path);
    hide Unwanted;
    forall p | p in t.finished ensures exists i: nat :: FinishedBy(t, p, i) {
      if p == path {
        assert FinishedBy(t, p, s.popups[path]);
      } else {
        var i: nat :| FinishedBy(s, p, i);
        assert FinishedBy(t, p, i);
      }
    }
  }

  lemma PruneCore(s: System)
    requires Core(s) && Can(s, Prune)
    ensures Core(Do(s, Prune))
  {
    hide OwnersOk, EpochsOk, PopupsOk, WorkersOk, FinishedOk, Growing, LatestOk, Like;
    var t := Do(s, Prune);
    LikeItself(s);
    OwnersFrame(s, t);
    EpochsFrame(s, t);
    PrunePopups(s);
    GrowingFrame(s, t);
    LatestFrame(s, t);
    PruneWorkers(s);
    PruneFinished(s);
  }

  lemma PrunePopups(s: System)
    requires PopupsOk(s) && Can(s, Prune)
    ensures PopupsOk(Do(s, Prune))
  {
  }

  /** A forgotten record is no longer needed: the path is not desired, or desired for a later episode. */
  lemma PruneWorkers(s: System)
    requires EpochsOk(s) && WorkersOk(s) && Can(s, Prune)
    ensures WorkersOk(Do(s, Prune))
  {
    var t := Do(s, Prune);
    forall i | 0 <= i < |t.workers| && !IsRunning(t, i)
      ensures t.workers[i].done && Over(t, t.workers[i].path, t.workers[i].epoch)
    {
      assert !IsRunning(s, i) && Behind(s, s.workers[i]);
    }
  }

  lemma PruneFinished(s: System)
    requires FinishedOk(s) && Can(s, Prune)
    ensures FinishedOk(Do(s, Prune))
  {
    var t := Do(s, Prune);
    forall p | p in t.finished ensures exists i: nat :: FinishedBy(t, p, i) {
      var i: nat :| FinishedBy(s, p, i);
      assert FinishedBy(t, p, i);
    }
  }

  /** A worker is started only for an episode later than every one its path has had a worker for. */
  lemma LaunchIsNew(s: System, path: string, i: nat)
    requires Core(s) && path in s.view && !HeldBack(s, path) && i < |s.workers| && s.workers[i].path == path
    ensures s.workers[i].epoch < s.view[path]
  {
    hide OwnersOk, Growing;
    assert !IsRunning(s, i) && Over(s, path, s.workers[i].epoch);
    assert Behind(s, s.workers[i]);
    if path in s.finished {
      var j: nat :| FinishedBy(s, path, j);
      assert Behind(s, s.workers[j]);
    }
  }

  lemma LaunchCore(s: System, path: string)
    requires Core(s) && Can(s, Launch(path))
    ensures Core(Launched(s, path))
  {
    hide HeldBack, Launched, Core;
    if HeldBack(s, path) {
      LikeItself(s);
      CoreFrame(s, s.(phase := Starting(s.phase.todo - {path})));
      SkipIs(s, path);
    } else {
      LaunchOwners(s, path);
      LaunchEpochs(s, path);
      LaunchPopups(s, path);
      LaunchWorkers(s, path);
      LaunchFinished(s, path);
      LaunchGrowing(s, path);
      LaunchLatest(s, path);
      LaunchSizes(s, path);
      AllCore(Launched(s, path));
    }
  }

  lemma AllCore(s: System)
    requires OwnersOk(s) && EpochsOk(s) && PopupsOk(s) && WorkersOk(s) && FinishedOk(s) && Growing(s)
    requires LatestOk(s) && SizesOk(s)
    ensures Core(s)
  {
    hide OwnersOk, EpochsOk, PopupsOk, WorkersOk, FinishedOk, Growing, LatestOk, SizesOk;
  }

  lemma SkipIs(s: System, path: string)
    requires Can(s, Launch(path)) && HeldBack(s, path)
    ensures Launched(s, path) == s.(phase := Starting(s.phase.todo - {path}))
    ensures SameEpisodes(s, Launched(s, path))
  {
    hide HeldBack;
  }

  lemma LaunchSizes(s: System, path: string)
    requires Core(s) && Can(s, Launch(path))
    ensures SizesOk(Launched(s, path))
  {
    hide OwnersOk, EpochsOk, PopupsOk, WorkersOk, FinishedOk, Growing, LatestOk, HeldBack;
  }

  lemma LaunchOwners(s: System, path: string)
    requires Core(s) && Can(s, Launch(path)) && !HeldBack(s, path)
    ensures OwnersOk(Launched(s, path))
  {
    hide EpochsOk, PopupsOk, WorkersOk, FinishedOk, Growing, LatestOk, SizesOk, HeldBack;
  }

  lemma LaunchEpochs(s: System, path: string)
    requires Core(s) && Can(s, Launch(path)) && !HeldBack(s, path)
    ensures EpochsOk(Launched(s, path))
  {
    hide OwnersOk, PopupsOk, WorkersOk, FinishedOk, Growing, LatestOk, SizesOk, HeldBack;
    var t := Launched(s, path);
    forall i | 0 <= i < |t.workers| ensures Behind(t, t.workers[i]) {
      if i < |s.workers| { assert Behind(s, s.workers[i]); }
    }
  }

  lemma LaunchPopups(s: System, path: string)
    requires Core(s) && Can(s, Launch(path)) && !HeldBack(s, path)
    ensures PopupsOk(Launched(s, path))
  {
    hide OwnersOk, EpochsOk, WorkersOk, FinishedOk, Growing, LatestOk, SizesOk, HeldBack;
  }

  lemma LaunchWorkers(s: System, path: string)
    requires Core(s) && Can(s, Launch(path)) && !HeldBack(s, path)
    ensures WorkersOk(Launched(s, path))
  {
    hide OwnersOk, EpochsOk, FinishedOk, Growing, LatestOk, SizesOk;
    var t := Launched(s, path);
    forall i | 0 <= i < |t.workers| && !IsRunning(t, i)
      ensures t.workers[i].done && Over(t, t.workers[i].path, t.workers[i].epoch)
    {
      assert i < |s.workers| && !IsRunning(s, i);
    }
  }

  lemma LaunchFinished(s: System, path: string)
    requires Core(s) && Can(s, Launch(path)) && !HeldBack(s, path)
    ensures FinishedOk(Launched(s, path))
  {
    hide OwnersOk, EpochsOk, WorkersOk, Growing, LatestOk, SizesOk;
    var t := Launched(s, path);
    forall p | p in t.finished ensures exists i: nat :: FinishedBy(t, p, i) {
      var i: nat :| FinishedBy(s, p, i);
      assert FinishedBy(t, p, i);
    }
    if path in s.finished {
      var i: nat :| FinishedBy(s, path, i);
      LaunchIsNew(s, path, i);
    }
  }

  lemma LaunchGrowing(s: System, path: string)
    requires Core(s) && Can(s, Launch(path)) && !HeldBack(s, path)
    ensures Growing(Launched(s, path))
  {
    hide OwnersOk, EpochsOk, PopupsOk, WorkersOk, FinishedOk, LatestOk, SizesOk, HeldBack;
    var t := Launched(s, path);
    forall i, j | 0 <= i < j < |t.workers| && t.workers[i].path == t.workers[j].path
      ensures t.workers[i].epoch < t.workers[j].epoch
    {
      if j == |s.workers| { LaunchIsNew(s, path, i); }
    }
  }

  lemma LaunchLatest(s: System, path: string)
    requires Core(s) && Can(s, Launch(path)) && !HeldBack(s, path)
    ensures LatestOk(Launched(s, path))
  {
    hide OwnersOk, EpochsOk, WorkersOk, FinishedOk, Growing, SizesOk, HeldBack;
  }

  lemma FinishLike(s: System, i: nat)
    requires Can(s, Finish(i))
    ensures Like(s.workers, Do(s, Finish(i)).workers)
  {
  }

  lemma CancelLike(s: System)
    ensures Like(s.workers, CancelAll(s))
  {
  }

  lemma LikeItself(s: System)
    ensures Like(s.workers, s.workers)
  {
  }

  lemma CoreKept(s: System, m: Move)
    requires Core(s) && Can(s, m)
    ensures Core(Do(s, m))
  {
    hide Core, SetOn, Visited, Launched, CancelAll, Replace, Like;
    match m
    case TurnOn(p) => TurnOnCore(s, p);
    case TurnOff(p) => TurnOffCore(s, p);
    case Copy => CopyCore(s);
    case Visit(p) => VisitCore(s, p);
    case Prune => PruneCore(s);
    case Launch(p) => LaunchCore(s, p);
    case Finish(i) => FinishLike(s, i); CoreFrame(s, Do(s, m));
    case Quit => CancelLike(s); CoreFrame(s, Do(s, m));
    case _ => LikeItself(s); CoreFrame(s, Do(s, m));
  }
}
