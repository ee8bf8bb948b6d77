/** What the monitor tells its sink about each device: strictly alternating starts and ends. */
module MonitorLog {
  datatype Event = Event(path: string, on: bool)

  /** Whether the latest event of a path switched it on. */
  function IsOn(log: seq<Event>, path: string): bool {
    if log == [] then false
    else if log[|log| - 1].path == path then log[|log| - 1].on
    else IsOn(log[..|log| - 1], path)
  }

  /** Every event switches its path over: on, off, on, off. */
  predicate Alternates(log: seq<Event>) {
    forall i | 0 <= i < |log| :: log[i].on != IsOn(log[..i], log[i].path)
  }

  /** The log alternates and leaves exactly these paths on. */
  ghost predicate Records(log: seq<Event>, on: set<string>) {
    Alternates(log) && forall p :: p in on <==> IsOn(log, p)
  }

  function Switched(on: set<string>, e: Event): set<string> {
    if e.on then on + {e.path} else on - {e.path}
  }

  lemma Extend(log: seq<Event>, on: set<string>, e: Event)
    requires Records(log, on) && e.on != (e.path in on)
    ensures Records(log + [e], Switched(on, e))
  {
    var next := log + [e];
    assert next[..|log|] == log;
    forall i | 0 <= i < |next| ensures next[i].on != IsOn(next[..i], next[i].path) {
      if i < |log| { assert next[..i] == log[..i] && next[i] == log[i]; }
    }
  }

  /** In an alternating log a path has as many starts as ends, plus one while it is on. */
  function Count(log: seq<Event>, e: Event): nat {
    if log == [] then 0 else Count(log[..|log| - 1], e) + if log[|log| - 1] == e then 1 else 0
  }

  lemma {:induction false} StartsAndEnds(log: seq<Event>, path: string)
    requires Alternates(log)
    ensures Count(log, Event(path, true)) == Count(log, Event(path, false)) + if IsOn(log, path) then 1 else 0
  {
    if log != [] {
      var init := log[..|log| - 1];
      forall i | 0 <= i < |init| ensures init[i].on != IsOn(init[..i], init[i].path) {
        assert init[..i] == log[..i];
      }
      StartsAndEnds(init, path);
    }
  }
}

/** The open devices of the monitor: what they hear, and what polling does to them. */
module MonitorModel {
  import opened Sizes
  import opened Text
  import opened Descriptor
  import opened TrackerModel
  import opened TrackerHistory
  import L = MonitorLog
  import opened PopupsModel
  import opened PopupsClass

  const MAX_BURST := 64

  /** What a scan finds for one hidraw entry: its descriptor if readable, the identity of its device
      node, and the layout and identity of a fresh handle if one can be opened. */
  datatype Probe = Probe(path: string, descriptor: Option<seq<byte>>, node: Option<int>, handle: Option<(Layout, int)>)

  /** One read from a device: a report, nothing more for now, or the end of it. */
  datatype Read = Packet(report: seq<byte>, now: int) | Again | Gone

  /** What polling says about one device, with the time at which expiry is then checked. */
  datatype Poll = Poll(failed: bool, ready: bool, input: seq<Read>, now: int)

  /** One turn of the loop: a scan when one is due, then what polling brings. */
  datatype Round = Round(scan: Option<(seq<Probe>, bool)>, pollFailed: bool, polls: map<string, Poll>, now: int)

  /** An open device with its tracker's channels; `events` are its reports and expiries so far. */
  datatype Reader = Reader(layout: Layout, node: int, pending: Pending, active: bool, events: seq<Event>)

  /** The tracker holds what its history says, and the flag says whether anything is pending. */
  predicate Tracks(r: Reader) {
    r.pending == PendingAt(r.layout, r.events, |r.events|)
  }

  predicate Follows(r: Reader) {
    Tracks(r) && (r.active <==> |r.pending| > 0)
  }

  function Heed(r: Reader, e: Event): Reader {
    r.(pending := After(r.pending, r.layout, e), events := r.events + [e])
  }

  /** Exactly the active devices are asked for. */
  ghost predicate Asked(on: set<string>, readers: map<string, Reader>) {
    forall p :: p in on <==> p in readers && readers[p].active
  }

  predicate AllFollow(readers: map<string, Reader>) {
    forall p | p in readers :: Follows(readers[p])
  }

  lemma AskedSwitched(on: set<string>, readers: map<string, Reader>, path: string, r: Reader)
    requires Asked(on, readers) && path in readers
    ensures Asked(L.Switched(on, L.Event(path, r.active)), readers[path := r])
    ensures r.active == readers[path].active ==> Asked(on, readers[path := r])
    ensures |readers[path := r]| == |readers|
  {
    assert readers[path := r].Keys == readers.Keys;
  }

  lemma AskedOpened(on: set<string>, readers: map<string, Reader>, path: string, r: Reader)
    requires Asked(on, readers) && path !in readers && !r.active
    ensures Asked(on, readers[path := r])
    ensures |readers[path := r]| == |readers| + 1
  {
    assert readers[path := r].Keys == readers.Keys + {path};
  }

  lemma AskedRemoved(on: set<string>, readers: map<string, Reader>, path: string)
    requires Asked(on, readers) && path in readers
    ensures Asked(L.Switched(on, L.Event(path, false)), readers - {path})
    ensures path !in on ==> Asked(on, readers - {path})
    ensures |readers - {path}| <= |readers|
  {
    SubmapSize(readers - {path}, readers);
  }

  /** The reader after an event, its flag up to date. */
  function Hearing(r: Reader, e: Event): Reader {
    var t := Heed(r, e);
    t.(active := |t.pending| > 0)
  }

  function HearingAll(r: Reader, es: seq<Event>): (t: Reader)
    ensures t.layout == r.layout && t.node == r.node && t.events == r.events + es
  {
    if es == [] then r else Hearing(HearingAll(r, es[..|es| - 1]), es[|es| - 1])
  }

  /** The first read from k on that is no report, or where the burst ends. */
  function Burst(input: seq<Read>, k: nat): (n: nat)
    requires k <= |input|
    ensures k <= n <= |input|
    ensures forall i | k <= i < n :: input[i].Packet?
    decreases |input| - k
  {
    if k == |input| || k >= MAX_BURST || !input[k].Packet? then k else Burst(input, k + 1)
  }

  function FirstReports(input: seq<Read>, n: nat): seq<Event>
    requires n <= |input| && forall i | 0 <= i < n :: input[i].Packet?
  {
    if n == 0 then [] else FirstReports(input, n - 1) + [Report(input[n - 1].report, input[n - 1].now)]
  }

  /** The device goes away within the burst. */
  predicate Lost(input: seq<Read>) {
    var n := Burst(input, 0);
    n < |input| && n < MAX_BURST && input[n].Gone?
  }

  function Taken(r: Reader, input: seq<Read>): Reader {
    HearingAll(r, FirstReports(input, Burst(input, 0)))
  }

  function PollOf(polls: map<string, Poll>, path: string, now: int): Poll {
    if path in polls then polls[path] else Poll(false, false, [], now)
  }

  predicate Dropped(poll: Poll) {
    poll.failed || (poll.ready && Lost(poll.input))
  }

  function AfterPoll(r: Reader, poll: Poll): Reader {
    Hearing(if poll.ready then Taken(r, poll.input) else r, Expire(poll.now))
  }

  /** Polling drops exactly the devices in trouble; every other one takes its burst, then checks expiry. */
  ghost predicate Polled(before: map<string, Reader>, polls: map<string, Poll>, now: int, after: map<string, Reader>) {
    forall p ::
      && (p in after <==> p in before && !Dropped(PollOf(polls, p, now)))
      && (p in after ==> after[p] == AfterPoll(before[p], PollOf(polls, p, now)))
  }

  function Opened(handle: (Layout, int)): Reader {
    Reader(handle.0, handle.1, map[], false, [])
  }

  /** Some channel of the device has asked for a touch and nothing has ended that since. */
  ghost predicate AwaitsTouch(r: Reader) {
    exists cid: nat, i: nat :: EpisodeSince(r.layout, r.events, i, |r.events|, cid)
  }

  lemma ActiveIff(r: Reader)
    requires Follows(r)
    ensures r.active <==> AwaitsTouch(r)
  {
    hide EpisodeSince, PendingAt;
    if cid: nat :| cid in r.pending {
      PendingIff(r.layout, r.events, |r.events|, cid);
    }
    if cid: nat, i: nat :| EpisodeSince(r.layout, r.events, i, |r.events|, cid) {
      PendingIff(r.layout, r.events, |r.events|, cid);
    }
  }

  /** What the sink is told when a flag goes from one value to another. */
  function Told(path: string, was: bool, now: bool): seq<L.Event> {
    if was == now then [] else [L.Event(path, now)]
  }

  /** What that does to the mailbox: nothing, or one call. */
  function Informed(s: System, path: string, was: bool, now: bool): System {
    if was == now then s else Do(Do(s, Turn(path, now)), Signal)
  }

  /** The paths a log leaves on are exactly the open devices that wait for a touch. */
  ghost predicate Shows(log: seq<L.Event>, readers: map<string, Reader>) {
    forall p :: L.IsOn(log, p) <==> p in readers && AwaitsTouch(readers[p])
  }

  lemma NothingLeft(log: seq<L.Event>, desired: map<string, nat>)
    requires L.Records(log, desired.Keys) && Asked(desired.Keys, map[])
    ensures desired == map[] && L.Alternates(log) && forall p :: !L.IsOn(log, p)
  {
    assert forall p :: p !in desired.Keys;
  }

  lemma AllStillFollow(readers: map<string, Reader>, path: string, r: Reader)
    requires AllFollow(readers) && Follows(r)
    ensures AllFollow(readers[path := r])
  {
    hide Follows;
  }

  lemma RestFollow(readers: map<string, Reader>, path: string)
    requires AllFollow(readers)
    ensures AllFollow(readers - {path})
  {
    hide Follows;
  }

  lemma PollIs(polls: map<string, Poll>, path: string, now: int)
    ensures PollOf(polls, path, now) == if path in polls then polls[path] else Poll(false, false, [], now)
  {
  }

  lemma NothingHeard(readers: map<string, Reader>, path: string)
    requires path in readers
    ensures readers == readers[path := HearingAll(readers[path], [])]
  {
  }

  lemma HearingMore(r: Reader, es: seq<Event>, e: Event)
    ensures HearingAll(r, es + [e]) == Hearing(HearingAll(r, es), e)
  {
    hide Hearing;
    assert (es + [e])[..|es|] == es;
  }

  lemma Heeded(r: Reader, e: Event)
    requires Tracks(r)
    ensures var next := Heed(r, e); next.active == r.active && Follows(next.(active := |next.pending| > 0))
  {
    hide After;
    SamePrefix(r.layout, r.events, e, |r.events|);
  }

  lemma {:induction false} SamePrefix(layout: Layout, events: seq<Event>, e: Event, n: nat)
    requires n <= |events|
    ensures PendingAt(layout, events + [e], n) == PendingAt(layout, events, n)
  {
    if n > 0 {
      SamePrefix(layout, events, e, n - 1);
      assert (events + [e])[n - 1] == events[n - 1];
    }
  }

  // ---------------------------------------------------------------- what polling takes from a device

  /** A burst is the reports up to the first read that is none, and at most 64 of them. */
  lemma {:induction false} BurstIs(input: seq<Read>, k: nat, n: nat)
    requires k <= n <= |input| && k <= 64
    ensures Burst(input, k) == n <==>
      && n <= 64 && (forall i | k <= i < n :: input[i].Packet?)
      && (n == 64 || n == |input| || !input[n].Packet?)
    decreases |input| - k
  {
    if k < |input| && k < 64 && input[k].Packet? {
      if k < n { BurstIs(input, k + 1, n); }
    }
  }

  /** A device is lost if and only if one of the first 64 reads finds it gone, after nothing but reports. */
  lemma LostIff(input: seq<Read>)
    ensures Lost(input) <==> exists k: nat ::
      k < 64 && k < |input| && input[k].Gone? && forall i | 0 <= i < k :: input[i].Packet?
  {
    if k: nat :| k < 64 && k < |input| && input[k].Gone? && forall i | 0 <= i < k :: input[i].Packet? {
      BurstIs(input, 0, k);
    }
    if Lost(input) {
      var k := Burst(input, 0);
      assert k < 64 && k < |input| && input[k].Gone? && forall i | 0 <= i < k :: input[i].Packet?;
    }
  }

  /** The first n reads as reports heard. */
  function Reports(input: seq<Read>, n: nat): seq<Event>
    requires n <= |input| && forall i | 0 <= i < n :: input[i].Packet?
  {
    seq(n, i requires 0 <= i < n => Report(input[i].report, input[i].now))
  }

  lemma {:induction false} FirstReportsAre(input: seq<Read>, n: nat)
    requires n <= |input| && forall i | 0 <= i < n :: input[i].Packet?
    ensures FirstReports(input, n) == Reports(input, n)
  {
    if n > 0 { FirstReportsAre(input, n - 1); }
  }

  /** The device heard these reports of the poll, all in order, and then the check for expiry. */
  ghost predicate HeardPoll(before: Reader, poll: Poll, after: Reader) {
    && after.layout == before.layout && after.node == before.node
    && exists n: nat :: HeardFirst(before, poll, n, after)
  }

  /** It heard n reports: none when there was nothing to read, else all before the first read that is none, but
      no more than 64. */
  ghost predicate HeardFirst(before: Reader, poll: Poll, n: nat, after: Reader) {
    && n <= |poll.input| && (forall i | 0 <= i < n :: poll.input[i].Packet?)
    && (if poll.ready then n == 64 || (n < 64 && (n == |poll.input| || !poll.input[n].Packet?)) else n == 0)
    && after.events == before.events + Reports(poll.input, n) + [Expire(poll.now)]
  }

  lemma PollHeard(r: Reader, poll: Poll)
    ensures HeardPoll(r, poll, AfterPoll(r, poll))
  {
    hide After, FirstReports, Reports;
    var n: nat := if poll.ready then Burst(poll.input, 0) else 0;
    BurstIs(poll.input, 0, n);
    FirstReportsAre(poll.input, n);
    hide Burst;
    if !poll.ready { NoReports(poll.input); }
    assert HeardFirst(r, poll, n, AfterPoll(r, poll));
  }

  lemma NoReports(input: seq<Read>)
    ensures Reports(input, 0) == []
  {
  }

  /** After a poll a device is open if and only if it was and is neither in trouble nor lost within its first 64
      reads; it has heard the reports before the first other read, at most 64, and then the check for expiry. */
  lemma PolledIs(before: map<string, Reader>, polls: map<string, Poll>, now: int, after: map<string, Reader>, p: string)
    requires Polled(before, polls, now, after)
    ensures var poll := if p in polls then polls[p] else Poll(false, false, [], now);
      && (p in after <==> p in before && !poll.failed && !(poll.ready && exists k: nat ::
            k < 64 && k < |poll.input| && poll.input[k].Gone? && forall i | 0 <= i < k :: poll.input[i].Packet?))
      && (p in after ==> HeardPoll(before[p], poll, after[p]))
  {
    hide HeardPoll, AfterPoll, Lost;
    var poll := PollOf(polls, p, now);
    LostIff(poll.input);
    if p in after { PollHeard(before[p], poll); }
  }
}
