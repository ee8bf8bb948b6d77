/** Which CTAPHID channels are waiting for a touch (Tracker, internal/touch/report.go). */
module TrackerModel {
  import opened Text
  import opened Descriptor

  type Pending = map<nat, int>

  const KEEPALIVE: byte := 0xBB
  const CBOR_RESPONSE: byte := 0x90
  const ERROR_RESPONSE: byte := 0xBF
  const INIT_RESPONSE: byte := 0x86
  const UP_NEEDED: byte := 2
  const PROCESSING: byte := 1
  const MAX_CHANNELS := 32
  const BROADCAST := 0xFFFF_FFFF
  /** Three seconds in nanoseconds. */
  const STALE_AFTER := 3_000_000_000

  /** What a report tells about one channel. */
  datatype Signal = Nothing | Need(cid: nat) | Busy(cid: nat) | Complete(cid: nat)

  /** The packet inside a report of this layout, without its ID byte when reports are numbered. */
  function Packet(layout: Layout, report: seq<byte>): Option<seq<byte>> {
    if 0 in layout then if |report| == layout[0] then Some(report) else None
    else if report != [] && report[0] as nat in layout && |report| == layout[report[0] as nat] then Some(report[1..])
    else None
  }

  function BigEndian(b: seq<byte>): nat {
    if b == [] then 0 else BigEndian(b[..|b| - 1]) * 256 + b[|b| - 1] as nat
  }

  function Channel(p: seq<byte>): nat
    requires |p| >= 4
  {
    BigEndian(p[..4])
  }

  function Declared(p: seq<byte>): nat
    requires |p| >= 7
  {
    BigEndian(p[5..7])
  }

  /** Bytes of a message that starts with a packet this long and goes on for k more packets. */
  function Capacity(packet: nat, k: nat): int {
    packet - 7 + k * (packet - 5)
  }

  /** The packet opens a message on an allocated channel that fits into it and 128 continuations. */
  predicate Opens(p: seq<byte>) {
    && |p| >= 8 && p[4] >= 0x80
    && Channel(p) != 0 && Channel(p) != BROADCAST
    && exists k: nat :: k <= 128 && Declared(p) <= Capacity(|p|, k)
  }

  function SignalOf(p: seq<byte>): Signal {
    if !Opens(p) then Nothing
    else if p[4] == KEEPALIVE && Declared(p) == 1 && p[7] == UP_NEEDED then Need(Channel(p))
    else if p[4] == KEEPALIVE && Declared(p) == 1 && p[7] == PROCESSING then Busy(Channel(p))
    else if p[4] == CBOR_RESPONSE && Declared(p) >= 1 then Complete(Channel(p))
    else if p[4] == ERROR_RESPONSE && Declared(p) == 1 then Complete(Channel(p))
    else if p[4] == INIT_RESPONSE && Declared(p) == 17 then Complete(Channel(p))
    else Nothing
  }

  function Heard(layout: Layout, report: seq<byte>): Signal {
    match Packet(layout, report)
    case None => Nothing
    case Some(p) => SignalOf(p)
  }

  function Apply(pending: Pending, s: Signal, now: int): Pending {
    match s
    case Nothing => pending
    case Need(c) => if c in pending || |pending| < MAX_CHANNELS then pending[c := now + STALE_AFTER] else pending
    case Busy(c) => if c in pending then pending[c := now + STALE_AFTER] else pending
    case Complete(c) => pending - {c}
  }

  function Unexpired(pending: Pending, now: int): Pending {
    map c | c in pending && now < pending[c] :: pending[c]
  }
}

/** The tracker as the monitor uses it: one map changed in place. */
module TrackerClass {
  import opened Text
  import opened Descriptor
  import opened TrackerModel

  class Tracker {
    var pending: Pending

    constructor ()
      ensures pending == map[]
    {
      pending := map[];
    }

    method Report(layout: Layout, report: seq<byte>, now: int)
      modifies this
      ensures pending == Apply(old(pending), Heard(layout, report), now)
    {
      var id: byte := 0;
      if 0 !in layout {
        if |report| == 0 { return; }
        id := report[0];
      }
      if id as nat !in layout || |report| != layout[id as nat] { return; }
      var packet := if id != 0 then report[1..] else report;
      if |packet| < 8 || packet[4] < 0x80 { return; }
      var cid := Read32(packet);
      if cid == 0 || cid == BROADCAST { return; }
      var length := packet[5] as nat * 256 + packet[6] as nat;
      DeclaredIs(packet);
      FitsIff(packet);
      if length > |packet| - 7 + 128 * (|packet| - 5) { return; }
      match packet[4] {
        case 0xBB =>
          if length != 1 { return; }
          if packet[7] == UP_NEEDED {
            if cid in pending || |pending| < MAX_CHANNELS {
              pending := pending[cid := now + STALE_AFTER];
            }
          } else if packet[7] == PROCESSING {
            if cid in pending {
              pending := pending[cid := now + STALE_AFTER];
            }
          }
        case 0x90 =>
          if length >= 1 { pending := pending - {cid}; }
        case 0xBF =>
          if length == 1 { pending := pending - {cid}; }
        case 0x86 =>
          if length == 17 { pending := pending - {cid}; }
        case _ =>
      }
    }

    method Expire(now: int)
      modifies this
      ensures pending == Unexpired(old(pending), now)
    {
      var todo := pending.Keys;
      while todo != {}
        invariant todo <= pending.Keys <= old(pending).Keys
        invariant forall c | c in pending :: pending[c] == old(pending)[c]
        invariant forall c | c in old(pending) && c !in todo :: c in pending <==> now < old(pending)[c]
        decreases todo
      {
        var cid :| cid in todo;
        todo := todo - {cid};
        if now >= pending[cid] {
          pending := pending - {cid};
        }
      }
    }
  }

  method Read32(p: seq<byte>) returns (v: nat)
    requires |p| >= 4
    ensures v == Channel(p)
  {
    v := 0;
    for i := 0 to 4
      invariant v == BigEndian(p[..i])
    {
      assert p[..i + 1][..i] == p[..i];
      v := v * 256 + p[i] as nat;
    }
  }

  lemma DeclaredIs(p: seq<byte>)
    requires |p| >= 7
    ensures Declared(p) == p[5] as nat * 256 + p[6] as nat
  {
    var b := p[5..7];
    assert b[..1] == [p[5]] && BigEndian([p[5]]) == p[5] as nat;
  }

  // ---------------------------------------------------------------- the bytes behind a signal

  /** The first four bytes are this channel, highest first. */
  predicate OnChannel(p: seq<byte>, cid: nat) {
    && |p| >= 8
    && p[0] as nat * 0x100_0000 + p[1] as nat * 0x1_0000 + p[2] as nat * 0x100 + p[3] as nat == cid
    && 0 < cid < 0xFFFF_FFFF
  }

  lemma ChannelIs(p: seq<byte>)
    requires |p| >= 8
    ensures Channel(p) == p[0] as nat * 0x100_0000 + p[1] as nat * 0x1_0000 + p[2] as nat * 0x100 + p[3] as nat
  {
    var b := p[..4];
    assert b[..3][..2] == b[..2] && b[..2][..1] == b[..1] && b[..1][..0] == [];
    assert BigEndian(b[..1]) == b[0] as nat;
    assert BigEndian(b[..2]) == BigEndian(b[..1]) * 256 + b[1] as nat by { assert b[..2][..1] == b[..1]; }
    assert BigEndian(b[..3]) == BigEndian(b[..2]) * 256 + b[2] as nat by { assert b[..3][..2] == b[..2]; }
  }

  /** What each packet tells: a keepalive of length 1 with status 2 asks for a touch on its channel, one with status
      1 says it is busy; a CBOR response of any length that fits, an error of length 1 or an INIT response of length
      17 completes it; nothing else tells anything. */
  lemma SignalIff(p: seq<byte>, cid: nat)
    ensures SignalOf(p) == Need(cid) <==> OnChannel(p, cid) && p[4..8] == [0xBB, 0, 1, 2]
    ensures SignalOf(p) == Busy(cid) <==> OnChannel(p, cid) && p[4..8] == [0xBB, 0, 1, 1]
    ensures SignalOf(p) == Complete(cid) <==>
      && OnChannel(p, cid)
      && var length := p[5] as nat * 256 + p[6] as nat;
         || (p[4] == 0x90 && 1 <= length <= |p| - 7 + 128 * (|p| - 5))
         || (p[4] == 0xBF && length == 1)
         || (p[4] == 0x86 && length == 17)
  {
    if |p| >= 8 {
      ChannelIs(p);
      DeclaredIs(p);
      FitsIff(p);
      hide Channel, Declared, Capacity;
      var h := p[4..8];
      assert h[0] == p[4] && h[1] == p[5] && h[2] == p[6] && h[3] == p[7];
      assert p[4..8] == [p[4], p[5], p[6], p[7]];
    }
  }

  /** One comparison with 128 continuations decides whether some number of them suffices. */
  lemma FitsIff(p: seq<byte>)
    requires |p| >= 8
    ensures (exists k: nat :: k <= 128 && Declared(p) <= Capacity(|p|, k))
       <==> Declared(p) <= |p| - 7 + 128 * (|p| - 5)
  {
    assert Capacity(|p|, 128) == |p| - 7 + 128 * (|p| - 5);
    forall k: nat | k <= 128 ensures Capacity(|p|, k) <= Capacity(|p|, 128) {
      Monotone(|p| - 5, k, 128);
    }
  }

  lemma Monotone(a: nat, k: nat, n: nat)
    requires k <= n
    ensures k * a <= n * a
  {
  }
}

/** What is pending, told from the history of reports and expiries. */
module TrackerHistory {
  import opened Text
  import opened Descriptor
  import opened DescriptorShape
  import opened Sizes
  import opened TrackerModel

  datatype Event = Report(report: seq<byte>, now: int) | Expire(now: int)

  function After(pending: Pending, layout: Layout, e: Event): Pending {
    match e
    case Report(report, now) => Apply(pending, Heard(layout, report), now)
    case Expire(now) => Unexpired(pending, now)
  }

  /** What is pending before event n. */
  function PendingAt(layout: Layout, events: seq<Event>, n: nat): Pending
    requires n <= |events|
  {
    if n == 0 then map[] else After(PendingAt(layout, events, n - 1), layout, events[n - 1])
  }

  predicate Says(layout: Layout, e: Event, s: Signal) {
    e.Report? && Heard(layout, e.report) == s
  }

  predicate IsKeepalive(layout: Layout, e: Event, cid: nat) {
    Says(layout, e, Need(cid)) || Says(layout, e, Busy(cid))
  }

  /** Time of the latest keepalive for cid in events i to n-1. */
  function LatestKeepalive(layout: Layout, events: seq<Event>, i: nat, n: nat, cid: nat): int
    requires i < n <= |events|
    decreases n
  {
    if n == i + 1 || IsKeepalive(layout, events[n - 1], cid) then events[n - 1].now
    else LatestKeepalive(layout, events, i, n - 1, cid)
  }

  /** Event i asks for a touch on cid and there is room for it. */
  predicate Admitted(layout: Layout, events: seq<Event>, i: nat, cid: nat)
    requires i < |events|
  {
    && Says(layout, events[i], Need(cid))
    && (cid in PendingAt(layout, events, i) || |PendingAt(layout, events, i)| < 32)
  }

  /** Event j ends an episode of cid begun at i: a completion, or an expiry that reaches the latest
      keepalive plus three seconds. */
  predicate Ends(layout: Layout, events: seq<Event>, i: nat, j: nat, cid: nat)
    requires i < j < |events|
  {
    || Says(layout, events[j], Complete(cid))
    || (events[j].Expire? && events[j].now >= LatestKeepalive(layout, events, i, j, cid) + 3_000_000_000)
  }

  ghost predicate EpisodeSince(layout: Layout, events: seq<Event>, i: nat, n: nat, cid: nat)
    requires n <= |events|
  {
    i < n && Admitted(layout, events, i, cid) && forall j | i < j < n :: !Ends(layout, events, i, j, cid)
  }

  lemma Kept(layout: Layout, events: seq<Event>, i: nat, n: nat, cid: nat)
    requires i < n < |events|
    ensures EpisodeSince(layout, events, i, n + 1, cid)
       <==> EpisodeSince(layout, events, i, n, cid) && !Ends(layout, events, i, n, cid)
  {
    hide Admitted, Ends;
  }

  lemma Left(pending: Pending, layout: Layout, e: Event, cid: nat)
    requires cid in pending
    ensures cid in After(pending, layout, e)
       <==> !Says(layout, e, Complete(cid)) && !(e.Expire? && e.now >= pending[cid])
    ensures cid in After(pending, layout, e) ==>
              After(pending, layout, e)[cid]
              == if IsKeepalive(layout, e, cid) then e.now + STALE_AFTER else pending[cid]
  {
    hide Heard;
  }

  lemma Entered(pending: Pending, layout: Layout, e: Event, cid: nat)
    requires cid !in pending
    ensures cid in After(pending, layout, e) <==> Says(layout, e, Need(cid)) && |pending| < MAX_CHANNELS
    ensures cid in After(pending, layout, e) ==> After(pending, layout, e)[cid] == e.now + STALE_AFTER
  {
    hide Heard;
  }

  /** From an admitted request on, the channel is pending until something ends it, and its deadline
      is the latest keepalive plus three seconds. */
  lemma {:induction false} EpisodePending(layout: Layout, events: seq<Event>, i: nat, n: nat, cid: nat)
    requires n <= |events| && EpisodeSince(layout, events, i, n, cid)
    ensures cid in PendingAt(layout, events, n)
    ensures PendingAt(layout, events, n)[cid] == LatestKeepalive(layout, events, i, n, cid) + 3_000_000_000
    decreases n
  {
    hide After, Says, IsKeepalive;
    var e, pending := events[n - 1], PendingAt(layout, events, n - 1);
    if n > i + 1 {
      Kept(layout, events, i, n - 1, cid);
      EpisodePending(layout, events, i, n - 1, cid);
      Left(pending, layout, e, cid);
    } else {
      Starts(pending, layout, e, cid);
    }
  }

  lemma Starts(pending: Pending, layout: Layout, e: Event, cid: nat)
    requires Says(layout, e, Need(cid)) && (cid in pending || |pending| < MAX_CHANNELS)
    ensures cid in After(pending, layout, e) && After(pending, layout, e)[cid] == e.now + STALE_AFTER
  {
    hide Heard;
  }

  /** What is pending goes back to an admitted request that nothing has ended. */
  lemma {:induction false} PendingEpisode(layout: Layout, events: seq<Event>, n: nat, cid: nat) returns (i: nat)
    requires n <= |events| && cid in PendingAt(layout, events, n)
    ensures EpisodeSince(layout, events, i, n, cid)
    decreases n
  {
    hide After, Says, LatestKeepalive;
    var e, pending := events[n - 1], PendingAt(layout, events, n - 1);
    if cid in pending {
      i := PendingEpisode(layout, events, n - 1, cid);
      EpisodePending(layout, events, i, n - 1, cid);
      Left(pending, layout, e, cid);
      Kept(layout, events, i, n - 1, cid);
    } else {
      i := n - 1;
      Entered(pending, layout, e, cid);
    }
  }

  /** A channel is pending exactly when it had an admitted request for a touch with no completion since
      and no expiry that reached its latest keepalive plus three seconds. */
  lemma PendingIff(layout: Layout, events: seq<Event>, n: nat, cid: nat)
    requires n <= |events|
    ensures cid in PendingAt(layout, events, n) <==> exists i: nat :: EpisodeSince(layout, events, i, n, cid)
  {
    hide EpisodeSince;
    if cid in PendingAt(layout, events, n) {
      var i := PendingEpisode(layout, events, n, cid);
    }
    if i: nat :| EpisodeSince(layout, events, i, n, cid) {
      EpisodePending(layout, events, i, n, cid);
    }
  }

  /** At most 32 channels, never the null or the broadcast channel. */
  lemma {:induction false} PendingBounded(layout: Layout, events: seq<Event>, n: nat)
    requires n <= |events|
    ensures |PendingAt(layout, events, n)| <= 32
    ensures 0 !in PendingAt(layout, events, n) && 0xFFFF_FFFF !in PendingAt(layout, events, n)
  {
    if n > 0 {
      PendingBounded(layout, events, n - 1);
      StepBounded(PendingAt(layout, events, n - 1), layout, events[n - 1]);
    }
  }

  lemma StepBounded(pending: Pending, layout: Layout, e: Event)
    requires |pending| <= MAX_CHANNELS && 0 !in pending && BROADCAST !in pending
    ensures var t := After(pending, layout, e); |t| <= MAX_CHANNELS && 0 !in t && BROADCAST !in t
  {
    var t := After(pending, layout, e);
    if e.Report? {
      ChannelAllowed(layout, e.report);
    }
    if t.Keys <= pending.Keys {
      SubsetSize(t.Keys, pending.Keys);
    } else {
      var c := Heard(layout, e.report).cid;
      assert t.Keys == pending.Keys + {c};
    }
  }

  lemma ChannelAllowed(layout: Layout, report: seq<byte>)
    ensures Heard(layout, report) != Nothing ==> Heard(layout, report).cid !in {0, BROADCAST}
  {
  }

  /** A report never touches another channel than the one it names. */
  lemma OtherChannels(layout: Layout, pending: Pending, report: seq<byte>, now: int, cid: nat)
    requires Heard(layout, report) == Nothing || Heard(layout, report).cid != cid
    ensures var t := After(pending, layout, Report(report, now));
            && (cid in t <==> cid in pending)
            && (cid in t ==> t[cid] == pending[cid])
  {
  }

  /** With a layout the descriptor parser returned, an accepted report loses its ID byte exactly when
      IDs are in use, and the packet left is whole: at least 8 bytes and at most 1024. */
  lemma PacketsAreWhole(data: seq<byte>, report: seq<byte>)
    requires Recognize(data).Some?
    ensures var layout := Recognize(data).value;
            && (Packet(layout, report).Some? <==>
                  var id := if 0 in layout || report == [] then 0 else report[0] as nat;
                  id in layout && |report| == layout[id])
            && (Packet(layout, report).Some? ==>
                  && 8 <= |Packet(layout, report).value| <= 1024
                  && Packet(layout, report).value == if 0 in layout then report else report[1..])
  {
    hide Recognize;
    LayoutsAreShaped(data);
  }
}
