/** Runs of the service in which a refused PIN makes a request reject a credential it never tried. */
module HandleExample {
  import opened Sizes
  import opened Text
  import opened Askpass
  import opened CacheIdentity
  import opened CacheModel
  import opened CacheInvariant
  import opened HandleModel
  import opened HandleSafety
  import opened HandleSlot
  import opened HandleMisdirect

  const FILE := Key("/k", "pin", "")
  const BASE := Identity(FILE, "1")
  const DEVICE := Device("/d", "c")
  const PIN: seq<byte> := [49]
  const TTL := 1000

  function Id(): Identity {
    Bound(BASE, DEVICE.connection)
  }

  function Record(caller: string): SeenKey {
    SeenKey(caller, FILE)
  }

  // ---------------------------------------------------------------- the cache

  function Lease(id: Identity, g: nat, caller: string): Ticket {
    Ticket(id, g, caller, TICKET_LIFETIME)
  }

  /** A version-1 client of process b has asked for the key. */
  function Asked1(): State {
    State(TTL, 2, map[FILE := Entry(BASE, 1, [], 0)], map[2 := Lease(BASE, 1, "b")], map[Record("b") := 0])
  }

  /** Process a asks on the device. */
  function Asked2(): State {
    State(TTL, 4, map[FILE := Entry(Id(), 3, [], 0)], map[2 := Lease(BASE, 1, "b"), 4 := Lease(Id(), 3, "a")],
          map[Record("b") := 0, Record("a") := 0])
  }

  /** Its PIN has been stored. */
  function Stored(): State {
    State(TTL, 5, map[FILE := Entry(Id(), 5, PIN, TTL)], map[2 := Lease(BASE, 1, "b")],
          map[Record("b") := 0, Record("a") := 5])
  }

  /** Process b asks on the device, is taken for a retry and gets a lease instead of the PIN. */
  function Withheld2(): State {
    State(TTL, 6, map[FILE := Entry(Id(), 5, PIN, TTL)], map[2 := Lease(BASE, 1, "b"), 6 := Lease(Id(), 5, "b")],
          map[Record("b") := 0, Record("a") := 5])
  }

  const ANSWER1 := Lookup(0, [], 2, TTL, Miss)
  const ANSWER2 := Lookup(0, [], 4, TTL, FileChanged)
  const ANSWER3 := Lookup(0, [], 6, TTL, Retry)

  lemma NothingExpires(s: State)
    requires forall k | k in s.entries :: !Overdue(s.entries[k], 0)
    requires forall tok | tok in s.tickets :: s.tickets[tok].expires > 0
    ensures Expired(s, 0, s)
  {
    assert OverdueKeys(s, 0) == {};
    assert Unexpired(s.tickets, 0) == s.tickets;
  }

  lemma FileIsTracked(stamp: string)
    ensures IsTracked(Identity(FILE, stamp))
  {
  }

  lemma FirstAsk()
    ensures Step(New(TTL), Begin(BASE, "b", 0, 0, ANSWER1), Asked1())
  {
    NothingExpires(New(TTL));
    FileIsTracked("1");
    hide Expired, IsTracked;
    var s := New(TTL);
    assert BeginAfter(s, BASE, "b", 0).0.entries == Asked1().entries;
    assert BeginAfter(s, BASE, "b", 0) == (Asked1(), ANSWER1);
  }

  lemma SecondAsk()
    ensures Step(Asked1(), Begin(Id(), "a", 0, 0, ANSWER2), Asked2())
  {
    NothingExpires(Asked1());
    FileIsTracked(Id().stamp);
    DeviceStampInjective("1", "c", "1", "");
    hide Expired, IsTracked, DeviceStamp;
    assert Record("a") != Record("b") by { assert "a" != "b"; }
    assert |Asked1().seen| == 1 && |Asked1().tickets| == 1;
    assert BeginAfter(Asked1(), Id(), "a", 0).1 == ANSWER2;
    assert BeginAfter(Asked1(), Id(), "a", 0).0 == Asked2();
  }

  lemma Storing1()
    ensures Step(Asked2(), Commit(4, Id(), "a", PIN, 0, 0, true), Stored())
  {
    NothingExpires(Asked2());
    FileIsTracked(Id().stamp);
    PinIsValid();
    hide Expired, DeviceStamp, Validate, ValidFingerprint;
    assert Record("a") != Record("b") by { assert "a" != "b"; }
    assert CommitAfter(Asked2(), 4, Id(), "a", PIN, 0).1;
    assert CommitAfter(Asked2(), 4, Id(), "a", PIN, 0).0 == Stored();
  }

  lemma PinIsValid()
    ensures Validate(PIN)
  {
    assert LeadLength(PIN) == 1 && PIN[1..] == [];
  }

  lemma ThirdAsk()
    ensures Step(Stored(), Begin(Id(), "b", 0, 0, ANSWER3), Withheld2())
  {
    NothingExpires(Stored());
    FileIsTracked(Id().stamp);
    hide Expired, IsTracked, DeviceStamp;
    assert Record("a") != Record("b") by { assert "a" != "b"; }
    assert |Stored().seen| == 2 && |Stored().tickets| == 1;
    assert BeginAfter(Stored(), Id(), "b", 0).1 == ANSWER3;
    assert BeginAfter(Stored(), Id(), "b", 0).0 == Withheld2();
  }

  // ---------------------------------------------------------------- runs

  /** Some run of the service from its start leads here; with `attended`, one whose sweeps find the callers
      of unfinished requests alive. */
  ghost predicate Reached(w: World, attended: bool) {
    exists ws: seq<World>, acts: seq<Action> :: FromStart(ws, acts, attended) && ws[|ws| - 1] == w
  }

  ghost predicate FromStart(ws: seq<World>, acts: seq<Action>, attended: bool) {
    RunFromStart(ws, acts) && (attended ==> AllAttend(ws, acts))
  }

  lemma Starts()
    ensures Reached(Start(true, TTL, 0), true)
  {
    var ws, acts: seq<Action> := [Start(true, TTL, 0)], [];
    assert FromStart(ws, acts, true);
  }

  lemma Goes(w: World, a: Action, v: World)
    requires Reached(w, true) && WorldStep(w, a, v) && Attends(w, a)
    ensures Reached(v, true)
  {
    hide WorldStep, Attends;
    var ws, acts :| FromStart(ws, acts, true) && ws[|ws| - 1] == w;
    assert (ws + [v])[0] == ws[0] && (ws + [v])[|ws + [v]| - 1] == v;
    assert FromStart(ws + [v], acts + [a], true);
  }

  lemma GoesOn(w: World, n: nat, v: World, attended: bool)
    requires Reached(w, true) && Reaches(w, n, v, attended)
    ensures Reached(v, attended)
  {
    hide WorldStep, Selected, Attends;
    var ws, acts :| FromStart(ws, acts, true) && ws[|ws| - 1] == w;
    var xs, more :| Leads(xs, more, n, attended) && xs[0] == w && xs[|xs| - 1] == v;
    var all := ws + xs[1..];
    forall i | 0 <= i < |acts + more|
      ensures WorldStep(all[i], (acts + more)[i], all[i + 1]) && (attended ==> Attends(all[i], (acts + more)[i]))
    {
      if i >= |acts| {
        assert all[i] == xs[i - |acts|] && all[i + 1] == xs[i - |acts| + 1];
        assert (acts + more)[i] == more[i - |acts|];
      }
    }
    assert all[0] == ws[0] && all[|all| - 1] == v;
    assert FromStart(all, acts + more, attended);
  }

  lemma ReachedInv(w: World)
    requires Reached(w, true)
    ensures WorldInv(w)
  {
    hide WorldStep, WorldInv;
    var ws, acts :| FromStart(ws, acts, true) && ws[|ws| - 1] == w;
    WorldReachable(ws, acts, |ws| - 1);
  }

  /** A step of a request that touches nothing shared but the slot it takes or holds. */
  lemma Quietly(w: World, n: nat, next: Handler)
    requires Reached(w, true) && n in w.handlers && HandlerStep(w.handlers[n], Quiet, next) && Holds(next)
    requires w.slot == if Holds(w.handlers[n]) then Some(n) else None
    ensures Reached(With(w, n, next).(slot := Some(n)), true)
  {
    hide HandlerStep, Reached;
    var v := With(w, n, next).(slot := Some(n));
    assert WorldStep(w, Act(n, Quiet, next), v);
    Goes(w, Act(n, Quiet, next), v);
  }

  /** A step of a request that holds the slot and goes through the cache. */
  lemma ThroughCache(w: World, n: nat, op: Op, next: Handler, store: State)
    requires Reached(w, true) && n in w.handlers && HandlerStep(w.handlers[n], Cache(op), next)
    requires Holds(w.handlers[n]) && w.slot == Some(n) && CacheMoves(w, op, store, w.now)
    ensures Reached(With(w, n, next).(store := store, slot := if Holds(next) then Some(n) else None), true)
    ensures var slot := if Holds(next) then Some(n) else None;
            WorldStep(w, Act(n, Cache(op), next), With(w, n, next).(store := store, slot := slot))
  {
    hide HandlerStep, Reached, CacheMoves;
    var v := With(w, n, next).(store := store, slot := if Holds(next) then Some(n) else None);
    assert WorldStep(w, Act(n, Cache(op), next), v);
    Goes(w, Act(n, Cache(op), next), v);
  }

  function Request(caller: string): Setup {
    Setup(caller, BASE, true, true)
  }

  /** A request with its device chosen. */
  function Chosen(caller: string): Handler {
    Restart(Initial(Request(caller))).(pc := Beginning, device := DEVICE, id := Id())
  }

  lemma Chooses(w: World, n: nat, caller: string)
    requires Reached(w, true) && n !in w.handlers && w.slot == None && w.verifying
    ensures Reached(With(w, n, Chosen(caller)).(slot := Some(n)), true)
  {
    hide Reached, DeviceStamp;
    var h := Initial(Request(caller));
    var a := With(w, n, h);
    assert Plain("1");
    Goes(w, Arrive(n, Request(caller)), a);
    Quietly(a, n, Restart(h));
    var b := With(a, n, Restart(h)).(slot := Some(n));
    assert SelectStep(Restart(h), Chosen(caller));
    Quietly(b, n, Chosen(caller));
    assert With(b, n, Chosen(caller)).(slot := Some(n)) == With(w, n, Chosen(caller)).(slot := Some(n));
  }

  /** From the answered look to the delivery of a typed and accepted PIN. */
  lemma Delivers(w: World, n: nat, h: Handler)
    requires Reached(w, true) && n in w.handlers && w.handlers[n] == h && w.slot == Some(n) && h.setup.verify
    requires h.pc == Top && h.value == [] && h.candidate.generation == 0 && !h.cancelled
    ensures var d := Delivered(h);
            Reached(With(w, n, d).(accepted := w.accepted + {(h.device.connection, PIN)}), true)
  {
    hide Reached, Validate, HandlerStep;
    PinIsValid();
    var a := h.(pc := CheckBefore, value := PIN, remember := true, cached := false);
    TypesPin(h);
    assert With(w, n, h) == w;
    Carry(w, n, h, a);
    EasySteps(a);
    var b := a.(pc := Probing);
    Carry(w, n, a, b);
    EasySteps(b);
    var c := b.(pc := Verifying);
    Carry(w, n, b, c);
    var d := AcceptStep(w, n, c);
    Finishes(w.(accepted := w.accepted + {(h.device.connection, PIN)}), n, d);
  }

  /** From the accepted PIN on. */
  lemma Finishes(w: World, n: nat, h: Handler)
    requires Reached(With(w, n, h), true) && w.slot == Some(n) && h.setup.verify && h.pc == Judging && !h.cancelled
    requires h.trial.Some? && h.trial.value.status == Accepted && h.candidate.generation == 0
    ensures Reached(With(w, n, h.(pc := Storing, confirmed := true, found := Some(BASE))), true)
  {
    hide Reached, HandlerStep;
    EasySteps(h);
    var a := h.(pc := CheckAfter);
    Carry(w, n, h, a);
    EasySteps(a);
    var b := a.(pc := Closing, confirmed := true);
    Carry(w, n, a, b);
    EasySteps(b);
    var c := b.(pc := Sending);
    Carry(w, n, b, c);
    EasySteps(c);
    var d := c.(pc := Awaiting);
    Carry(w, n, c, d);
    EasySteps(d);
    Carry(w, n, d, d.(pc := Storing, found := Some(BASE)));
  }

  lemma Carry(w: World, n: nat, h: Handler, next: Handler)
    requires Reached(With(w, n, h), true) && HandlerStep(h, Quiet, next)
    requires Holds(h) && Holds(next) && w.slot == Some(n)
    ensures Reached(With(w, n, next), true)
  {
    hide Reached, HandlerStep, Holds;
    Quietly(With(w, n, h), n, next);
    assert With(With(w, n, h), n, next).(slot := Some(n)) == With(w, n, next);
  }

  function Delivered(h: Handler): Handler {
    h.(pc := Storing, value := PIN, remember := true, cached := false,
       trial := Some(Trial(h.device, PIN, Accepted)), confirmed := true, found := Some(BASE))
  }

  lemma TypesPin(h: Handler)
    requires h.pc == Top && h.value == [] && h.setup.verify && Validate(PIN)
    ensures HandlerStep(h, Quiet, h.(pc := CheckBefore, value := PIN, remember := true, cached := false))
  {
    hide Validate;
    assert OpeningStep(h, Quiet, h.(pc := CheckBefore, value := PIN, remember := true, cached := false));
  }

  lemma EasySteps(h: Handler)
    ensures h.pc == CheckBefore && h.candidate.generation == 0 ==> HandlerStep(h, Quiet, h.(pc := Probing))
    ensures h.pc == Probing ==> HandlerStep(h, Quiet, h.(pc := Verifying))
    ensures h.pc == Judging && !h.cancelled && h.trial.Some? && h.trial.value.status == Accepted ==>
              HandlerStep(h, Quiet, h.(pc := CheckAfter))
    ensures h.pc == CheckAfter && h.candidate.generation == 0 ==>
              HandlerStep(h, Quiet, h.(pc := Closing, confirmed := true))
    ensures h.pc == Closing && !h.cancelled ==> HandlerStep(h, Quiet, h.(pc := Sending))
    ensures h.pc == Sending ==> HandlerStep(h, Quiet, h.(pc := Awaiting))
    ensures h.pc == Awaiting ==> HandlerStep(h, Quiet, h.(pc := Storing, found := Some(BASE)))
  {
  }

  lemma AcceptStep(w: World, n: nat, h: Handler) returns (next: Handler)
    requires Reached(With(w, n, h), true) && w.slot == Some(n) && h.pc == Verifying && h.setup.verify
    ensures next == h.(pc := Judging, trial := Some(Trial(h.device, h.value, Accepted)), confirmed := false)
    ensures Reached(With(w.(accepted := w.accepted + {(h.device.connection, h.value)}), n, next), true)
  {
    hide Reached;
    var ev := Check(Trial(h.device, h.value, Accepted));
    next := h.(pc := Judging, trial := Some(ev.trial), confirmed := false);
    var u, v := With(w, n, h), With(w.(accepted := w.accepted + {(h.device.connection, h.value)}), n, next);
    assert HandlerStep(h, ev, next);
    assert WorldStep(u, Act(n, ev, next), v) by {
      hide HandlerStep;
      assert v.handlers == u.handlers[n := next];
    }
    Goes(u, Act(n, ev, next), v);
  }

  function Looked(h: Handler, answer: Lookup): Handler {
    h.(pc := Top, candidate := answer, value := answer.secret, cached := answer.secret != [])
  }

  lemma LooksUp(h: Handler, answer: Lookup)
    requires h.pc == Beginning && h.setup.eligible
    ensures HandlerStep(h, Cache(Begin(h.id, h.setup.caller, 0, 0, answer)), Looked(h, answer))
  {
  }

  lemma Keeps(h: Handler)
    requires h.pc == Storing && h.candidate.token != 0 && h.remember && h.value != [] && Unchanged(h)
    ensures var op := Commit(h.candidate.token, h.id, h.setup.caller, h.value, 0, 0, true);
            HandlerStep(h, Cache(op), h.(pc := Done(Some(0))))
  {
  }

  /** Process a has stored its PIN. */
  lemma AfterStoring() returns (w: World)
    ensures Reached(w, true) && w.store == Stored() && w.now == 0 && w.slot == None && w.verifying && 2 !in w.handlers
  {
    hide Reached, HandlerStep, Step, DeviceStamp, Asked1, Asked2, Stored;
    Starts();
    FirstAsk();
    var w0 := Start(true, TTL, 0);
    var w1 := w0.(store := Asked1());
    assert Plain("1");
    Goes(w0, Control(Begin(BASE, "b", 0, 0, ANSWER1)), w1);
    Chooses(w1, 1, "a");
    var w2 := With(w1, 1, Chosen("a")).(slot := Some(1));
    SecondAsk();
    var h := Looked(Chosen("a"), ANSWER2);
    LooksUp(Chosen("a"), ANSWER2);
    ThroughCache(w2, 1, Begin(Id(), "a", 0, 0, ANSWER2), h, Asked2());
    var w3 := With(w2, 1, h).(store := Asked2());
    Delivers(w3, 1, h);
    var d := Delivered(h);
    var w4 := With(w3, 1, d).(accepted := w3.accepted + {(DEVICE.connection, PIN)});
    Storing1();
    Keeps(d);
    ThroughCache(w4, 1, Commit(4, Id(), "a", PIN, 0, 0, true), d.(pc := Done(Some(0))), Stored());
    w := With(w4, 1, d.(pc := Done(Some(0)))).(store := Stored(), slot := None);
  }

  // ---------------------------------------------------------------- by a record

  /** Process b's first look withholds the stored PIN. */
  lemma AfterTheLook() returns (v: World)
    ensures Reached(v, true) && v.store == Withheld2() && v.now == 0 && v.slot == Some(2)
    ensures 2 in v.handlers && v.handlers[2] == Looked(Chosen("b"), ANSWER3)
  {
    hide Reached, HandlerStep, Step, DeviceStamp, Stored, Withheld2;
    var w := AfterStoring();
    Chooses(w, 2, "b");
    var x := With(w, 2, Chosen("b")).(slot := Some(2));
    ThirdAsk();
    var h := Looked(Chosen("b"), ANSWER3);
    LooksUp(Chosen("b"), ANSWER3);
    ThroughCache(x, 2, Begin(Id(), "b", 0, 0, ANSWER3), h, Withheld2());
    v := With(x, 2, h).(store := Withheld2());
  }

  /** The service can reach a state where a request rejects, after a refused PIN, a live credential that
      was never tried: process b has a record naming no version, and a sweep finds b dead while its own
      request is still open. */
  lemma RejectsUntried() returns (u: World)
    ensures Reached(u, false) && Misdirected(u, 2)
  {
    hide Reached, Misdirected, Reaches, DeviceStamp, WorldInv, LooksAndHits;
    var v := AfterTheLook();
    ReachedInv(v);
    var c, b, x;
    c, b, x, u := WithheldIsRejected(v, 2, false);
    GoesOn(v, 2, u, false);
  }

  // ---------------------------------------------------------------- by exhausted tickets

  const OTHER := Key("/o", "passphrase", "")

  function OtherId(): Identity {
    Identity(OTHER, "2")
  }

  /** Process a's PIN is stored, and nothing else is. */
  predicate OnlyPin(s: State) {
    && s.ttl == TTL && FILE in s.entries && s.entries[FILE] == Entry(Id(), 5, PIN, TTL)
    && s.entries.Keys <= {FILE, OTHER}
    && (OTHER in s.entries ==> s.entries[OTHER].secret == [] && s.entries[OTHER].identity == OtherId()
                               && s.entries[OTHER].generation > 0)
  }

  predicate FewSeen(s: State) {
    && s.seen.Keys <= {Record("a"), Record("b"), SeenKey("b", OTHER)}
    && (SeenKey("b", OTHER) in s.seen ==> OTHER in s.entries && s.seen[SeenKey("b", OTHER)] == 0)
  }

  predicate OpenTickets(s: State) {
    forall tok | tok in s.tickets :: s.tickets[tok].expires > 0 && tok <= s.seqno
  }

  /** Process b asks for another key again and again; nothing else happens. */
  predicate Filling(s: State) {
    OnlyPin(s) && FewSeen(s) && OpenTickets(s)
  }

  lemma StoredFills()
    ensures Filling(Stored()) && |Stored().tickets| == 1
  {
    assert Record("a") != Record("b") by { assert "a" != "b"; }
  }

  lemma FewRecords(s: State)
    requires Filling(s)
    ensures |s.seen| <= 3 && |s.entries| <= 2
  {
    SubsetSize(s.seen.Keys, {Record("a"), Record("b"), SeenKey("b", OTHER)});
    SubsetSize(s.entries.Keys, {FILE, OTHER});
  }

  lemma OtherIsTracked()
    ensures IsTracked(OtherId()) && OTHER != FILE
  {
    assert OTHER.path != FILE.path by { assert "/o"[1] != "/k"[1]; }
  }

  lemma AdmitOther(s: State)
    requires Filling(s)
    ensures var a := Admit(s, OtherId());
            && Filling(a) && a.tickets == s.tickets && OTHER in a.entries
            && (OTHER !in s.entries ==> SeenKey("b", OTHER) !in a.seen)
  {
    OtherIsTracked();
    hide DeviceStamp, IsTracked, AgentPIN;
  }

  function Leased(a: State): State
    requires OTHER in a.entries
  {
    a.(seqno := a.seqno + 1, seen := a.seen[SeenKey("b", OTHER) := 0],
       tickets := a.tickets[a.seqno + 1 := Ticket(OtherId(), a.entries[OTHER].generation, "b", TICKET_LIFETIME)])
  }

  lemma LeasedFills(a: State)
    requires Filling(a) && OTHER in a.entries
    ensures Filling(Leased(a)) && |Leased(a).tickets| == |a.tickets| + 1
  {
    LeasedPin(a);
    LeasedSeen(a);
    LeasedTickets(a);
    hide OnlyPin, FewSeen, OpenTickets, Leased;
  }

  lemma LeasedPin(a: State)
    requires OnlyPin(a) && OTHER in a.entries
    ensures OnlyPin(Leased(a))
  {
    hide DeviceStamp;
  }

  lemma LeasedSeen(a: State)
    requires FewSeen(a) && OTHER in a.entries
    ensures FewSeen(Leased(a))
  {
    assert Leased(a).seen.Keys == a.seen.Keys + {SeenKey("b", OTHER)};
    hide Record;
  }

  lemma LeasedTickets(a: State)
    requires OpenTickets(a) && OTHER in a.entries
    ensures OpenTickets(Leased(a)) && |Leased(a).tickets| == |a.tickets| + 1
  {
    UpdateSize(a.tickets, a.seqno + 1, Ticket(OtherId(), a.entries[OTHER].generation, "b", TICKET_LIFETIME));
    hide OtherId;
  }

  lemma AnswersOther(a: State)
    requires Filling(a) && OTHER in a.entries && IsTracked(OtherId())
    ensures Respond(a, OtherId(), "b", 0, false).0 == Leased(a)
  {
    hide IsTracked, DeviceStamp;
  }

  lemma AskOther(s: State) returns (t: State, r: Lookup)
    requires Filling(s) && |s.tickets| < MAX_TICKETS
    ensures Step(s, Begin(OtherId(), "b", 0, 0, r), t)
    ensures Filling(t) && |t.tickets| == |s.tickets| + 1
  {
    FillingStays(s);
    FewRecords(s);
    AdmitOther(s);
    OtherIsTracked();
    AnswersOther(Admit(s, OtherId()));
    LeasedFills(Admit(s, OtherId()));
    SameIdentity(s);
    hide Expired, IsTracked, DeviceStamp, Filling, Respond, Leased, Admit;
    t, r := BeginAfter(s, OtherId(), "b", 0).0, BeginAfter(s, OtherId(), "b", 0).1;
  }

  lemma FillingStays(s: State)
    requires Filling(s)
    ensures Expired(s, 0, s)
  {
    NothingExpires(s);
  }

  lemma SameIdentity(s: State)
    requires Filling(s)
    ensures OTHER in s.entries ==> s.entries[OTHER].identity == OtherId()
  {
    hide DeviceStamp;
  }

  /** All 256 tickets can be held by process b. */
  lemma {:induction false} FillTickets(w: World) returns (v: World)
    requires Reached(w, true) && Filling(w.store) && w.now == 0 && |w.store.tickets| <= MAX_TICKETS
    ensures Reached(v, true) && v == w.(store := v.store) && Filling(v.store) && |v.store.tickets| == MAX_TICKETS
    decreases MAX_TICKETS - |w.store.tickets|
  {
    hide Reached, Filling, Step;
    if |w.store.tickets| == MAX_TICKETS {
      v := w;
    } else {
      var t, r := AskOther(w.store);
      var x := w.(store := t);
      assert Plain("2");
      assert WorldStep(w, Control(Begin(OtherId(), "b", 0, 0, r)), x);
      Goes(w, Control(Begin(OtherId(), "b", 0, 0, r)), x);
      v := FillTickets(x);
    }
  }

  lemma FullLook(s: State)
    requires Filling(s) && |s.tickets| == MAX_TICKETS
    ensures Step(s, Begin(Id(), "d", 0, 0, Refused(Capacity)), s)
  {
    NothingExpires(s);
    hide Expired, IsTracked, DeviceStamp;
  }

  lemma FillingIsUsable(w: World)
    requires Filling(w.store) && w.now == 0
    ensures Usable(w, Id()) && w.store.entries[FILE].generation != 0 && w.store.ttl > 0
    ensures RoomLater(w.store, Id(), "d")
  {
    FewRecords(w.store);
    assert Record("d") != Record("a") && Record("d") != Record("b") by { assert "d" != "a" && "d" != "b"; }
    assert Record("d") != SeenKey("b", OTHER) by { OtherIsTracked(); }
    hide AgentPIN, DeviceStamp;
  }

  /** The same rejection is reached although every sweep finds the callers of unfinished requests alive:
      the first look of process d comes when all tickets are taken, the next one when one is free again. */
  lemma RejectsUntriedAttended() returns (u: World)
    ensures Reached(u, true) && Misdirected(u, 2)
  {
    hide Reached, Misdirected, Reaches, DeviceStamp, WorldInv, LooksAndHits, Stored, HandlerStep, Step, Usable;
    hide Filling, RoomLater;
    var w := AfterStoring();
    StoredFills();
    var x := FillTickets(w);
    Chooses(x, 2, "d");
    var y := With(x, 2, Chosen("d")).(slot := Some(2));
    FullLook(y.store);
    var h := Looked(Chosen("d"), Refused(Capacity));
    LooksUp(Chosen("d"), Refused(Capacity));
    ThroughCache(y, 2, Begin(Id(), "d", 0, 0, Refused(Capacity)), h, y.store);
    var v := With(y, 2, h);
    ReachedInv(v);
    FillingIsUsable(v);
    var c, b, z;
    c, b, z, u := WithheldIsRejected(v, 2, true);
    GoesOn(v, 2, u, true);
  }
}
