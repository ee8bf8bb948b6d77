/** The hidraw monitor (Monitor.Run, internal/touch/linux.go) with scans, polls and reads as inputs. */
module MonitorClass {
  import opened Sizes
  import opened Text
  import opened Descriptor
  import opened TrackerHistory
  import L = MonitorLog
  import opened PopupsModel
  import opened PopupsClass
  import opened MonitorModel
  import opened MonitorScan

  /** What is open and whether it is known to be all there is. */
  datatype Look = Look(open: map<string, Reader>, covered: bool)

  /** The log had these lengths, never shrinking, when the open devices were these, and showed them. */
  ghost predicate Reported(log: seq<L.Event>, marks: seq<nat>, history: seq<Look>) {
    && |marks| == |history|
    && (forall i | 0 <= i < |marks| :: marks[i] <= |log| && Shows(log[..marks[i]], history[i].open))
    && (forall i | 0 < i < |marks| :: marks[i - 1] <= marks[i])
  }

  /** Round by round, the open devices change as the scan and the poll of the round say. */
  ghost predicate Follow(history: seq<Look>, rounds: seq<Round>, n: nat)
    requires n <= |rounds|
  {
    && |history| == 2 * n + 1 && history[0] == Look(map[], false)
    && forall i | 0 <= i < n :: InRound(history[2 * i], rounds[i], history[2 * i + 1], history[2 * i + 2])
  }

  /** A scan, if one is due, opens, keeps and drops what it must and tells full coverage; the poll drops the devices
      in trouble; coverage is lost with a failed poll or a dropped device until the next scan. */
  ghost predicate InRound(before: Look, round: Round, scanned: Look, after: Look) {
    && (if round.scan.Some?
        then && Scanned(before.open, round.scan.value.0, scanned.open)
             && (scanned.covered <==>
                   Complete(round.scan.value.0, round.scan.value.1, scanned.open) && !round.pollFailed)
        else scanned.open == before.open && scanned.covered == (before.covered && !round.pollFailed))
    && Polled(scanned.open, round.polls, round.now, after.open)
    && (after.covered <==> scanned.covered && scanned.open.Keys <= after.open.Keys)
  }

  lemma FollowNone(rounds: seq<Round>)
    ensures Follow([Look(map[], false)], rounds, 0)
  {
  }

  lemma FollowNext(history: seq<Look>, rounds: seq<Round>, n: nat, scanned: Look,
                   after: Look)
    requires n < |rounds| && Follow(history, rounds, n)
    requires InRound(history[2 * n], rounds[n], scanned, after)
    ensures Follow(history + [scanned] + [after], rounds, n + 1)
  {
    hide InRound;
    var next := history + [scanned] + [after];
    forall i | 0 <= i < n + 1 ensures InRound(next[2 * i], rounds[i], next[2 * i + 1], next[2 * i + 2]) {
      if i < n {
        assert next[2 * i] == history[2 * i] && next[2 * i + 1] == history[2 * i + 1];
        assert next[2 * i + 2] == history[2 * i + 2];
      }
    }
  }

  lemma ReportedFirst(log: seq<L.Event>, look: Look)
    requires Shows(log, look.open)
    ensures Reported(log, [|log|], [look])
  {
    hide Shows;
    assert log[..|log|] == log;
  }

  lemma ReportedLonger(log: seq<L.Event>, marks: seq<nat>, history: seq<Look>, next: seq<L.Event>)
    requires Reported(log, marks, history) && log <= next
    ensures Reported(next, marks, history)
  {
    hide Shows;
    forall i | 0 <= i < |marks| ensures Shows(next[..marks[i]], history[i].open) {
      assert next[..marks[i]] == log[..marks[i]];
    }
  }

  lemma ReportedNext(log: seq<L.Event>, marks: seq<nat>, history: seq<Look>, next: seq<L.Event>,
                     look: Look)
    requires Reported(log, marks, history) && log <= next && Shows(next, look.open)
    ensures Reported(next, marks + [|next|], history + [look])
  {
    hide Shows;
    ReportedLonger(log, marks, history, next);
    var longer, more := marks + [|next|], history + [look];
    forall i | 0 <= i < |longer| ensures longer[i] <= |next| && Shows(next[..longer[i]], more[i].open) {
      if i == |marks| { assert next[..|next|] == next; }
    }
  }

  class Monitor {
    const sink: TouchPopups
    var readers: map<string, Reader>
    var covered: bool
    var log: seq<L.Event>

    /** Every flag follows its tracker; the mailbox and the log ask for exactly the active devices. */
    ghost predicate Valid()
      reads this, sink
    {
      AllFollow(readers) && Agree()
    }

    ghost predicate Agree()
      reads this, sink
    {
      && |readers| <= MAX_DEVICES
      && Asked(sink.desired.Keys, readers)
      && L.Records(log, sink.desired.Keys)
    }

    constructor (sink: TouchPopups)
      requires sink.desired == map[]
      ensures Valid() && this.sink == sink && readers == map[] && log == [] && !covered
    {
      this.sink, readers, covered, log := sink, map[], false, [];
    }

    /** Report a start or an end: it is recorded and never dropped by the mailbox. */
    method State(path: string, on: bool)
      requires (path in sink.desired) != on && (on ==> |sink.desired| < MAX_DEVICES)
      requires L.Records(log, sink.desired.Keys)
      modifies sink, `log
      ensures log == old(log) + [L.Event(path, on)] && sink.Now() == Informed(old(sink.Now()), path, !on, on)
      ensures sink.desired.Keys == L.Switched(old(sink.desired.Keys), L.Event(path, on))
      ensures L.Records(log, sink.desired.Keys)
    {
      hide L.Records;
      L.Extend(log, sink.desired.Keys, L.Event(path, on));
      log := log + [L.Event(path, on)];
      sink.SetTouch(path, on);
    }

    /** End a device's activity if it has any; `left` are the readers not closed yet. */
    method Silence(path: string, left: map<string, Reader>)
      requires L.Records(log, sink.desired.Keys) && Asked(sink.desired.Keys, left) && path in left
      modifies `log, sink
      ensures L.Records(log, sink.desired.Keys) && Asked(sink.desired.Keys, left - {path})
      ensures log == old(log) + Told(path, left[path].active, false)
      ensures sink.Now() == Informed(old(sink.Now()), path, left[path].active, false)
    {
      AskedRemoved(sink.desired.Keys, left, path);
      assert left[path].active <==> path in sink.desired;
      hide L.Records, Asked, L.Switched;
      if left[path].active {
        State(path, false);
      }
    }

    /** Drop a reader, ending its activity. */
    method Remove(path: string)
      requires Valid() && path in readers
      modifies `readers, `covered, `log, sink
      ensures Valid() && readers == old(readers) - {path} && !covered
      ensures log == old(log) + Told(path, old(readers)[path].active, false)
      ensures sink.Now() == Informed(old(sink.Now()), path, old(readers)[path].active, false)
    {
      Silence(path, readers);
      SubmapSize(readers - {path}, readers);
      RestFollow(readers, path);
      hide L.Records, Asked, AllFollow;
      readers := readers - {path};
      covered := false;
    }

    /** One report or expiry reaches a reader's tracker; the sink is told when it becomes active or idle. */
    method Hear(path: string, e: Event)
      requires Valid() && path in readers
      modifies `readers, `log, sink
      ensures Valid() && path in readers
      ensures readers == old(readers)[path := Hearing(old(readers)[path], e)]
      ensures log == old(log) + Told(path, old(readers)[path].active, readers[path].active)
      ensures sink.Now() == Informed(old(sink.Now()), path, old(readers)[path].active, readers[path].active)
    {
      var r := Heed(readers[path], e);
      Heeded(readers[path], e);
      r := r.(active := |r.pending| > 0);
      assert r == Hearing(readers[path], e);
      hide L.Records, Follows, Asked, Hearing;
      AllStillFollow(readers, path, r);
      hide AllFollow;
      Update(path, r);
    }

    /** Store a reader, telling the sink when its flag changes. */
    method Update(path: string, r: Reader)
      requires Agree() && path in readers
      modifies `readers, `log, sink
      ensures Agree() && readers == old(readers)[path := r]
      ensures log == old(log) + Told(path, old(readers)[path].active, r.active)
      ensures sink.Now() == Informed(old(sink.Now()), path, old(readers)[path].active, r.active)
    {
      AskedSwitched(sink.desired.Keys, readers, path, r);
      assert readers[path].active <==> path in sink.desired;
      if r.active && !readers[path].active { RoomFor(path); }
      hide L.Records, Asked, L.Switched, Do;
      if r.active != readers[path].active {
        State(path, r.active);
      }
      readers := readers[path := r];
    }

    /** The reads of one device after a poll, at most 64 of them. */
    method Drain(path: string, input: seq<Read>)
      requires Valid() && path in readers
      modifies `readers, `covered, `log, sink
      ensures Valid() && old(log) <= log && covered == (old(covered) && path in readers)
      ensures readers == if Lost(input) then old(readers) - {path}
                         else old(readers)[path := Taken(old(readers)[path], input)]
    {
      hide Agree, AllFollow, Hearing, HearingAll;
      ghost var before := readers;
      NothingHeard(readers, path);
      var burst := 0;
      while burst < MAX_BURST && burst < |input|
        invariant burst <= |input| && Valid() && path in readers && old(log) <= log && covered == old(covered)
        invariant forall i | 0 <= i < burst :: input[i].Packet?
        invariant Burst(input, 0) == Burst(input, burst)
        invariant readers == before[path := HearingAll(before[path], FirstReports(input, burst))]
      {
        match input[burst] {
          case Again =>
            return;
          case Gone =>
            Remove(path);
            return;
          case Packet(report, now) =>
            HearingMore(before[path], FirstReports(input, burst), Report(report, now));
            Hear(path, Report(report, now));
        }
        burst := burst + 1;
      }
    }

    /** What follows a poll, for every device that was open before it, in any order; devices without news
        are still checked for expiry. */
    method PollAll(polls: map<string, Poll>, now: int)
      requires Valid()
      modifies `readers, `covered, `log, sink
      ensures Valid() && Polled(old(readers), polls, now, readers) && old(log) <= log
      ensures covered <==> old(covered) && old(readers.Keys) <= readers.Keys
    {
      hide Agree, AllFollow, Dropped, AfterPoll, PollOf;
      var list := readers.Keys;
      ghost var before := readers;
      while list != {}
        invariant Valid() && list <= readers.Keys <= before.Keys && old(log) <= log
        invariant covered <==> old(covered) && before.Keys <= readers.Keys
        invariant forall p | p in list :: readers[p] == before[p]
        invariant forall p | p in before && p !in list ::
          && (p in readers <==> !Dropped(PollOf(polls, p, now)))
          && (p in readers ==> readers[p] == AfterPoll(before[p], PollOf(polls, p, now)))
        decreases list
      {
        var path :| path in list;
        list := list - {path};
        PollOne(path, if path in polls then polls[path] else Poll(false, false, [], now));
        assert PollOf(polls, path, now) == (if path in polls then polls[path] else Poll(false, false, [], now)) by {
          PollIs(polls, path, now);
        }
      }
    }

    method PollOne(path: string, poll: Poll)
      requires Valid() && path in readers
      modifies `readers, `covered, `log, sink
      ensures Valid() && old(log) <= log && covered == (old(covered) && path in readers)
      ensures readers == if Dropped(poll) then old(readers) - {path}
                         else old(readers)[path := AfterPoll(old(readers)[path], poll)]
    {
      hide Agree, AllFollow, Hearing, Taken, Lost;
      if poll.failed {
        Remove(path);
      } else {
        if poll.ready {
          Drain(path, poll.input);
        }
        if path in readers {
          Hear(path, Expire(poll.now));
        }
      }
    }

    /** One entry of a scan: keep, replace, open or skip its device. */
    method Visit(probe: Probe) returns (wanted: bool, available: bool)
      requires Valid()
      modifies `readers, `covered, `log, sink
      ensures Valid() && old(log) <= log
      ensures wanted == IsFido(probe) && Turned(old(readers), probe, readers)
      ensures available <==> Legible(probe) && (wanted ==> probe.path in readers)
    {
      hide Agree, AllFollow, Recognize;
      if probe.descriptor == None { return false, false; }
      var layout := Parse(probe.descriptor.value);
      if layout == None { return false, false; }
      if layout.value == map[] { return false, true; }
      available := Watch(probe);
      wanted := true;
    }

    /** Keep the reader of a FIDO entry if its device is the same, else try to open the device anew. */
    method Watch(probe: Probe) returns (available: bool)
      requires Valid() && IsFido(probe)
      modifies `readers, `covered, `log, sink
      ensures Valid() && (available <==> probe.path in readers) && old(log) <= log
      ensures Turned(old(readers), probe, readers)
    {
      hide Agree, AllFollow, IsFido, Turned;
      ghost var before := readers;
      if probe.path in readers {
        if probe.node == Some(readers[probe.path].node) {
          StaysTurned(before, probe);
          return true;
        }
        Remove(probe.path);
      }
      ghost var left := readers;
      assert left == before - {probe.path};
      if |readers| >= MAX_DEVICES || probe.handle == None {
        ShutTurned(before, probe, left);
        return false;
      }
      Open(probe.path, Opened(probe.handle.value));
      OpensTurned(before, probe, left, readers);
      return true;
    }

    /** A scan of the entries found; only the first 256 are looked at. */
    method Scan(found: seq<Probe>, globFailed: bool)
      requires Valid()
      modifies `readers, `covered, `log, sink
      ensures Valid() && Scanned(old(readers), found, readers) && old(log) <= log
      ensures covered <==> Complete(found, globFailed, readers)
    {
      hide *;
      ghost var before := readers;
      LookedIs(found);
      var probes := found;
      var wanted, unavailable: nat := 0, if globFailed then 1 else 0;
      if |probes| > MAX_PATHS {
        probes, unavailable := probes[..MAX_PATHS], unavailable + 1;
      }
      var seen: set<string> := {};
      ghost var turns := [readers];
      ScanStarts(found, before);
      var i := 0;
      while i < |probes|
        invariant i <= |probes| && Valid() && old(log) <= log && probes == found[..|probes|]
        invariant |turns| == i + 1 && turns[i] == readers && Turns(turns, before, found, i)
        invariant seen == FidoPaths(found, i) && wanted == FidoCount(found, i)
        invariant unavailable == 0 <==> !globFailed && |found| <= MAX_PATHS && AllAvailable(turns, found, i)
      {
        var fido, available := Visit(probes[i]);
        TurnsNext(turns, before, found, i, readers);
        AvailableNext(turns, found, i, readers);
        CountNext(found, i);
        turns := turns + [readers];
        if fido {
          wanted, seen := wanted + 1, seen + {probes[i].path};
        }
        if !available {
          unavailable := unavailable + 1;
        }
        i := i + 1;
      }
      Unseen(seen);
      ScanEnds(turns, before, found, |probes|, readers);
      if |found| <= MAX_PATHS { CoverIs(turns, before, found, readers); }
      CompleteIs(found, globFailed, readers);
      Cover(wanted > 0 && |readers| == wanted && unavailable == 0);
    }

    method Cover(all: bool)
      requires Valid()
      modifies `covered
      ensures Valid() && covered == all
    {
      covered := all;
    }

    /** Readers no scan entry stands for any more are dropped. */
    method Unseen(seen: set<string>)
      requires Valid()
      modifies `readers, `covered, `log, sink
      ensures Valid() && Only(old(readers), seen, readers) && old(log) <= log
    {
      hide Agree, AllFollow;
      var todo := readers.Keys;
      ghost var before := readers;
      while todo != {}
        invariant Valid() && todo <= readers.Keys <= before.Keys && old(log) <= log
        invariant forall p | p in readers :: readers[p] == before[p]
        invariant forall p | p in before && p !in todo :: p in readers <==> p in seen
        decreases todo
      {
        var path :| path in todo;
        todo := todo - {path};
        if path !in seen {
          Remove(path);
        }
      }
    }

    /** The monitor from its start until its context is cancelled after the given rounds. `history` tells what
        was open and covered before and after every scan and poll, `marks` how much was logged by then. */
    method Run(rounds: seq<Round>) returns (ghost history: seq<Look>, ghost marks: seq<nat>)
      requires Valid() && readers == map[] && !covered
      modifies `readers, `covered, `log, sink
      ensures Follow(history, rounds, |rounds|)
      ensures Reported(log, marks, history) && old(log) <= log && |marks| > 0 && marks[0] == |old(log)|
      ensures sink.desired == map[] && !covered
      ensures L.Alternates(log) && forall p :: !L.IsOn(log, p)
    {
      hide *;
      var i := 0;
      history, marks := [Look(readers, false)], [|log|];
      LogShows();
      ReportedFirst(log, history[0]);
      FollowNone(rounds);
      while i < |rounds|
        invariant i <= |rounds| && Valid() && Follow(history, rounds, i) && |marks| == |history| == 2 * i + 1
        invariant history[2 * i] == Look(readers, covered) && marks[2 * i] == |log|
        invariant old(log) <= log && Reported(log, marks, history) && marks[0] == |old(log)|
      {
        ghost var before := log;
        ghost var scanned, looked := DoRound(rounds[i]);
        ghost var after := Look(readers, covered);
        ReportedNext(before, marks, history, looked, scanned);
        ReportedNext(looked, marks + [|looked|], history + [scanned], log, after);
        FollowNext(history, rounds, i, scanned, after);
        history, marks := history + [scanned] + [after], marks + [|looked|] + [|log|];
        i := i + 1;
      }
      ghost var seen := log;
      Shutdown();
      ReportedLonger(seen, marks, history, log);
    }

    /** One turn of the loop; `scanned` and `looked` are what was open and the log before polling. */
    method DoRound(round: Round) returns (ghost scanned: Look, ghost looked: seq<L.Event>)
      requires Valid()
      modifies `readers, `covered, `log, sink
      ensures Valid() && InRound(old(Look(readers, covered)), round, scanned, Look(readers, covered))
      ensures old(log) <= looked <= log && Shows(looked, scanned.open) && Shows(log, readers)
    {
      hide Agree, AllFollow, Scanned, Polled, Shows, Complete;
      if round.scan.Some? {
        Scan(round.scan.value.0, round.scan.value.1);
      }
      if round.pollFailed {
        Cover(false);
      }
      LogShows();
      scanned, looked := Look(readers, covered), log;
      PollAll(round.polls, round.now);
      LogShows();
    }

    /** The deferred end: every device that is still active is ended. */
    method Shutdown()
      requires Valid()
      modifies `covered, `log, sink
      ensures sink.desired == map[] && !covered && old(log) <= log
      ensures L.Alternates(log) && forall p :: !L.IsOn(log, p)
    {
      hide L.Records, AllFollow;
      covered := false;
      var left := readers;
      while left != map[]
        invariant L.Records(log, sink.desired.Keys) && Asked(sink.desired.Keys, left) && !covered && old(log) <= log
        decreases left.Keys
      {
        hide Asked;
        var path :| path in left;
        Silence(path, left);
        left := left - {path};
      }
      NothingLeft(log, sink.desired);
    }

    method Open(path: string, r: Reader)
      requires Valid() && path !in readers && |readers| < MAX_DEVICES
      requires r.pending == map[] && !r.active && r.events == []
      modifies `readers
      ensures Valid() && readers == old(readers)[path := r]
    {
      AskedOpened(sink.desired.Keys, readers, path, r);
      AllStillFollow(readers, path, r);
      hide L.Records, Asked, AllFollow;
      readers := readers[path := r];
    }

    /** A popup is asked for exactly for the open devices that wait for a touch. */
    lemma DesiredIff(path: string)
      requires Valid()
      ensures path in sink.desired <==> path in readers && AwaitsTouch(readers[path])
    {
      hide AwaitsTouch, Follows;
      if path in readers { ActiveIff(readers[path]); }
    }

    lemma LogShows()
      requires Valid()
      ensures Shows(log, readers)
    {
      hide AwaitsTouch, AllFollow, L.IsOn, Asked;
      forall p ensures L.IsOn(log, p) <==> p in readers && AwaitsTouch(readers[p]) {
        DesiredIff(p);
      }
    }

    /** There is room for one more device while a reader is idle. */
    lemma RoomFor(path: string)
      requires Agree() && path in readers && !readers[path].active
      ensures |sink.desired| < MAX_DEVICES
    {
      LacksOne(sink.desired.Keys, readers.Keys, path);
    }
  }

  // ---------------------------------------------------------------- the scan's counts

  lemma StaysTurned(before: map<string, Reader>, probe: Probe)
    requires SameNode(before, probe)
    ensures Turned(before, probe, before)
  {
    hide IsFido;
  }

  lemma ShutTurned(before: map<string, Reader>, probe: Probe, left: map<string, Reader>)
    requires !SameNode(before, probe) && left == before - {probe.path}
    requires |left| >= 32 || probe.handle == None
    ensures IsFido(probe) ==> Turned(before, probe, left)
  {
    hide IsFido, SameNode;
  }

  lemma OpensTurned(before: map<string, Reader>, probe: Probe, left: map<string, Reader>, after: map<string, Reader>)
    requires !SameNode(before, probe) && left == before - {probe.path} && |left| < 32 && probe.handle.Some?
    requires after == left[probe.path := Opened(probe.handle.value)]
    ensures IsFido(probe) ==> Turned(before, probe, after)
  {
    OneReplaced(before, probe.path, Opened(probe.handle.value), left, after);
    hide IsFido, SameNode, Opened, SameElsewhere;
  }

  lemma OneReplaced(before: map<string, Reader>, path: string, r: Reader, left: map<string, Reader>,
                    after: map<string, Reader>)
    requires left == before - {path} && after == left[path := r]
    ensures SameElsewhere(before, path, after) && path in after && after[path] == r
  {
  }

  lemma LookedIs(found: seq<Probe>)
    ensures Looked(found) == if |found| < MAX_PATHS then |found| else MAX_PATHS
    ensures MAX_PATHS == 256
  {
  }

  lemma ScanStarts(found: seq<Probe>, before: map<string, Reader>)
    ensures Turns([before], before, found, 0) && FidoPaths(found, 0) == {} && FidoCount(found, 0) == 0
    ensures AllAvailable([before], found, 0)
  {
    TurnsStart(before, found);
  }

  lemma CountNext(found: seq<Probe>, n: nat)
    requires n < |found|
    ensures FidoCount(found, n + 1) == FidoCount(found, n) + if IsFido(found[n]) then 1 else 0
  {
  }

  lemma AvailableNext(turns: seq<map<string, Reader>>, found: seq<Probe>, n: nat, next: map<string, Reader>)
    requires n < |found| && |turns| == n + 1
    ensures AllAvailable(turns + [next], found, n + 1) <==>
      AllAvailable(turns, found, n) && Legible(found[n]) && (IsFido(found[n]) ==> found[n].path in next)
  {
    hide Legible, IsFido;
    var more := turns + [next];
    forall k | 0 <= k < n
      ensures Legible(found[k]) && (IsFido(found[k]) ==> found[k].path in more[k + 1])
         <==> Legible(found[k]) && (IsFido(found[k]) ==> found[k].path in turns[k + 1]) {
      assert more[k + 1] == turns[k + 1];
    }
  }

  lemma ScanEnds(turns: seq<map<string, Reader>>, before: map<string, Reader>, found: seq<Probe>, n: nat,
                 after: map<string, Reader>)
    requires n == Looked(found) && |turns| == n + 1 && Turns(turns, before, found, n)
    requires Only(turns[n], FidoPaths(found, n), after)
    ensures Scanned(before, found, after)
  {
    hide Turns, FidoPaths, Only;
  }

  lemma CompleteIs(found: seq<Probe>, globFailed: bool, after: map<string, Reader>)
    ensures Complete(found, globFailed, after) <==> !globFailed && |found| <= 256 && Complete(found, false, after)
  {
    hide Legible, IsFido, Distinct;
  }
}
