/** Exactly when a refused PIN can make a request reject a credential that was never tried. */
module HandleMisdirect {
  import opened Sizes
  import opened Text
  import opened Askpass
  import opened CacheIdentity
  import opened CacheModel
  import opened CacheInvariant
  import opened CacheExpiry
  import opened CacheHistory
  import opened CacheRetry
  import L = CacheLife
  import opened HandleModel
  import opened HandleSafety
  import opened HandleSlot

  // ---------------------------------------------------------------- continuations

  /** A sweep finds the callers of all unfinished requests alive: their helpers have not outlived them. */
  predicate Attends(w: World, a: Action) {
    a.Control? && a.op.Sweep? ==>
      forall m | m in w.handlers && !w.handlers[m].pc.Done? :: a.op.alive(w.handlers[m].setup.caller)
  }

  ghost predicate AllAttend(ws: seq<World>, acts: seq<Action>)
    requires |ws| == |acts| + 1
  {
    forall i | 0 <= i < |acts| :: Attends(ws[i], acts[i])
  }

  /** Some run leads from w to v while request n stays in its selection; with `attended`, one whose sweeps
      find the callers of unfinished requests alive. */
  ghost predicate Reaches(w: World, n: nat, v: World, attended: bool) {
    exists ws: seq<World>, acts: seq<Action> :: Leads(ws, acts, n, attended) && ws[0] == w && ws[|ws| - 1] == v
  }

  ghost predicate Leads(ws: seq<World>, acts: seq<Action>, n: nat, attended: bool) {
    WorldRun(ws, acts) && OneSelection(ws, n) && (attended ==> AllAttend(ws, acts))
  }

  lemma ReachesItself(w: World, n: nat, attended: bool)
    requires Selected(w, n)
    ensures Reaches(w, n, w, attended)
  {
    var ws, acts: seq<Action> := [w], [];
    assert Leads(ws, acts, n, attended);
  }

  lemma ReachesNext(w: World, n: nat, u: World, a: Action, v: World, attended: bool)
    requires Reaches(w, n, u, attended) && WorldStep(u, a, v) && Selected(v, n) && (attended ==> Attends(u, a))
    ensures Reaches(w, n, v, attended)
  {
    hide WorldStep, Selected, Attends;
    var ws, acts :| Leads(ws, acts, n, attended) && ws[0] == w && ws[|ws| - 1] == u;
    assert WorldRun(ws + [v], acts + [a]) && OneSelection(ws + [v], n);
    assert (ws + [v])[0] == w && (ws + [v])[|ws + [v]| - 1] == v;
    assert Leads(ws + [v], acts + [a], n, attended);
  }

  lemma ReachesKeeps(w: World, n: nat, v: World, attended: bool)
    requires Reaches(w, n, v, attended) && WorldInv(w)
    ensures WorldInv(v)
  {
    hide WorldInv, WorldStep, OneSelection, AllAttend;
    var ws, acts :| Leads(ws, acts, n, attended) && ws[0] == w && ws[|ws| - 1] == v;
    AlongInv(ws, acts, |acts|);
  }

  lemma {:induction false} AlongInv(ws: seq<World>, acts: seq<Action>, j: nat)
    requires WorldRun(ws, acts) && WorldInv(ws[0]) && j < |ws|
    ensures WorldInv(ws[j])
  {
    hide WorldInv, WorldStep;
    if j > 0 {
      AlongInv(ws, acts, j - 1);
      WorldKeeps(ws[j - 1], acts[j - 1], ws[j]);
    }
  }

  function With(w: World, n: nat, h: Handler): World {
    w.(handlers := w.handlers[n := h])
  }

  /** A step of n that touches nothing shared. */
  lemma QuietNext(w: World, n: nat, u: World, next: Handler, attended: bool)
    requires Reaches(w, n, u, attended) && Selected(u, n) && u.slot == Some(n)
    requires HandlerStep(u.handlers[n], Quiet, next) && next.setup.verify && InSelection(next.pc)
    ensures Reaches(w, n, With(u, n, next), attended)
  {
    hide HandlerStep, Reaches;
    assert WorldStep(u, Act(n, Quiet, next), With(u, n, next));
    ReachesNext(w, n, u, Act(n, Quiet, next), With(u, n, next), attended);
  }

  /** The request's version is current and in date, or it has none. */
  predicate InForce(w: World, h: Handler) {
    h.candidate.generation != 0 ==> Usable(w, h.id) && w.store.entries[h.id.key].generation == h.candidate.generation
  }

  /** The usable credential, if there is one, is the same in both worlds. */
  predicate SameUsable(w: World, v: World, id: Identity) {
    Usable(w, id) ==> Usable(v, id) && v.store.entries[id.key] == w.store.entries[id.key]
  }

  /** Passing the check before the device call. */
  lemma PassCheck(w: World, n: nat, u: World, attended: bool) returns (v: World)
    requires Reaches(w, n, u, attended) && Selected(u, n) && u.slot == Some(n)
    requires u.handlers[n].pc == CheckBefore && InForce(u, u.handlers[n])
    ensures Reaches(w, n, v, attended) && v == With(u, n, u.handlers[n].(pc := Probing)).(store := v.store)
    ensures SameUsable(u, v, u.handlers[n].id) && v.store.ttl == u.store.ttl
    ensures u.handlers[n].candidate.generation == 0 ==> v.store == u.store
  {
    hide Reaches;
    var h := u.handlers[n];
    var next := h.(pc := Probing);
    if h.candidate.generation == 0 {
      v := With(u, n, next);
      QuietNext(w, n, u, next, attended);
    } else {
      var t := ExpiryExists(u.store, u.now);
      v := With(u, n, next).(store := t);
      var ev := Cache(Current(h.id, h.candidate.generation, u.now, true));
      assert HandlerStep(h, ev, next);
      assert WorldStep(u, Act(n, ev, next), v) by { hide HandlerStep; }
      ReachesNext(w, n, u, Act(n, ev, next), v, attended);
    }
  }

  /** The device refuses x. */
  lemma Refuse(w: World, n: nat, u: World, attended: bool) returns (v: World)
    requires Reaches(w, n, u, attended) && Selected(u, n) && u.slot == Some(n)
    requires u.handlers[n].pc == Verifying
    ensures Reaches(w, n, v, attended)
    ensures var h := u.handlers[n];
            v == With(u, n, h.(pc := Judging, trial := Some(Trial(h.device, h.value, Invalid)), confirmed := false))
  {
    hide Reaches;
    var h := u.handlers[n];
    var ev := Check(Trial(h.device, h.value, Invalid));
    var next := h.(pc := Judging, trial := Some(ev.trial), confirmed := false);
    v := With(u, n, next);
    assert HandlerStep(h, ev, next);
    assert WorldStep(u, Act(n, ev, next), v) by { hide HandlerStep; }
    ReachesNext(w, n, u, Act(n, ev, next), v, attended);
  }

  /** A short answer is valid, and one can be found that differs from any given bytes. */
  lemma OtherAnswer(secret: seq<byte>) returns (x: seq<byte>)
    ensures Validate(x) && x != [] && x != secret
  {
    x := if secret == [49] then [50] else [49];
    assert LeadLength(x) == 1 && x[1..] == [];
  }

  function Asked(h: Handler, x: seq<byte>): Handler {
    h.(pc := CheckBefore, value := x, remember := false, cached := false)
  }

  /** The request after the user typed x and the device refused it. */
  function AfterRefusal(h: Handler, x: seq<byte>): Handler {
    h.(pc := if h.candidate.generation != 0 then Rejecting else Retrying,
       value := [], remember := false, cached := false,
       trial := Some(Trial(h.device, x, Invalid)), confirmed := false)
  }

  /** The user types x, and the version at hand is found current. */
  lemma TypedAndCurrent(w: World, n: nat, u: World, x: seq<byte>, attended: bool) returns (v: World)
    requires Reaches(w, n, u, attended) && Selected(u, n) && u.slot == Some(n) && Validate(x) && x != []
    requires u.handlers[n].pc == Top && u.handlers[n].value == []
    requires InForce(u, u.handlers[n])
    ensures Reaches(w, n, v, attended)
    ensures v == With(u, n, Asked(u.handlers[n], x).(pc := Probing)).(store := v.store)
    ensures SameUsable(u, v, u.handlers[n].id) && v.store.ttl == u.store.ttl
    ensures u.handlers[n].candidate.generation == 0 ==> v.store == u.store
  {
    hide Reaches, Validate, HandlerStep, Live;
    var h := u.handlers[n];
    AskStep(h, x);
    QuietNext(w, n, u, Asked(h, x), attended);
    v := PassCheck(w, n, With(u, n, Asked(h, x)), attended);
  }

  /** The user types x, and it is tried on the device. */
  lemma TypedAndTried(w: World, n: nat, u: World, x: seq<byte>, attended: bool) returns (v: World)
    requires Reaches(w, n, u, attended) && Selected(u, n) && u.slot == Some(n) && Validate(x) && x != []
    requires u.handlers[n].pc == Top && u.handlers[n].value == []
    requires InForce(u, u.handlers[n])
    ensures Reaches(w, n, v, attended)
    ensures v == With(u, n, Asked(u.handlers[n], x).(pc := Verifying)).(store := v.store)
    ensures SameUsable(u, v, u.handlers[n].id) && v.store.ttl == u.store.ttl
    ensures u.handlers[n].candidate.generation == 0 ==> v.store == u.store
  {
    hide Reaches, Validate, HandlerStep, Live;
    var h := u.handlers[n];
    var b := TypedAndCurrent(w, n, u, x, attended);
    PlainSteps(b.handlers[n]);
    hide InForce, Usable;
    v := With(b, n, b.handlers[n].(pc := Verifying));
    QuietNext(w, n, b, b.handlers[n].(pc := Verifying), attended);
  }

  /** The user types x and the device refuses it. */
  lemma TypedAndRefused(w: World, n: nat, u: World, x: seq<byte>, attended: bool) returns (v: World)
    requires Reaches(w, n, u, attended) && Selected(u, n) && u.slot == Some(n) && Validate(x) && x != []
    requires u.handlers[n].pc == Top && u.handlers[n].value == [] && !u.handlers[n].cancelled
    requires InForce(u, u.handlers[n])
    ensures Reaches(w, n, v, attended)
    ensures v == With(u, n, AfterRefusal(u.handlers[n], x)).(store := v.store)
    ensures SameUsable(u, v, u.handlers[n].id) && v.store.ttl == u.store.ttl
    ensures u.handlers[n].candidate.generation == 0 ==> v.store == u.store
  {
    hide Reaches, Validate, Live, InForce;
    var c := TypedAndTried(w, n, u, x, attended);
    v := RefusedNow(w, n, c, attended);
  }

  lemma RefusedNow(w: World, n: nat, c: World, attended: bool) returns (v: World)
    requires Reaches(w, n, c, attended) && Selected(c, n) && c.slot == Some(n)
    requires c.handlers[n].pc == Verifying && !c.handlers[n].cancelled && !c.handlers[n].remember
    requires !c.handlers[n].cached
    ensures Reaches(w, n, v, attended)
    ensures v == With(c, n, AfterRefusal(c.handlers[n], c.handlers[n].value))
  {
    hide Reaches, HandlerStep;
    var d := Refuse(w, n, c, attended);
    PlainSteps(d.handlers[n]);
    v := With(d, n, AfterRefusal(c.handlers[n], c.handlers[n].value));
    QuietNext(w, n, d, AfterRefusal(c.handlers[n], c.handlers[n].value), attended);
  }

  lemma AskStep(h: Handler, x: seq<byte>)
    requires h.pc == Top && h.value == [] && h.setup.verify && Validate(x)
    ensures HandlerStep(h, Quiet, Asked(h, x))
  {
    hide Validate;
    assert OpeningStep(h, Quiet, Asked(h, x));
  }

  lemma PlainSteps(h: Handler)
    ensures h.pc == Probing ==> HandlerStep(h, Quiet, h.(pc := Verifying))
    ensures h.pc == Judging && !h.cancelled && h.trial.Some? && h.trial.value.status == Invalid ==>
              HandlerStep(h, Quiet, h.(value := [], pc := if h.candidate.generation != 0 then Rejecting else Retrying))
  {
  }

  // ---------------------------------------------------------------- a later look that hits

  /** Nothing keeps a live credential of this identity from this caller. */
  predicate Roomy(s: State, id: Identity, caller: string) {
    && s.ttl > 0 && |s.tickets| < MAX_TICKETS && !IsRetry(s, id, caller)
    && (IsTracked(id) ==> |s.seen| < MAX_CALLERS)
  }

  lemma FewerTickets(s: State, now: int)
    ensures |Unexpired(s.tickets, now)| <= |s.tickets|
  {
    SubmapSize(Unexpired(s.tickets, now), s.tickets);
  }

  /** With room and no record of the caller, a look hits. */
  lemma FreeBegin(s: State, id: Identity, caller: string, now: int) returns (t: State, r: Lookup)
    requires Live(s, id) && now < s.entries[id.key].expires && Roomy(s, id, caller)
    ensures Step(s, Begin(id, caller, now, now, r), t)
    ensures r == Lookup(s.entries[id.key].generation, s.entries[id.key].secret, 0, 0, Hit)
    ensures id.key in t.entries && t.entries[id.key] == s.entries[id.key] && t.ttl == s.ttl
  {
    hide AgentPIN;
    var m := ExpiryExists(s, now);
    FewerTickets(s, now);
    assert m.entries[id.key] == s.entries[id.key];
    t, r := BeginAfter(m, id, caller, now).0, BeginAfter(m, id, caller, now).1;
  }

  /** In this step request n looks into the cache again and hits. */
  ghost predicate LooksAndHits(u: World, b: Action, x: World, n: nat) {
    && WorldStep(u, b, x) && b.Act? && b.n == n
    && b.ev.Cache? && b.ev.op.Begin? && b.ev.op.answer.secret != []
  }

  /** After the refusal, the request asks the cache again and is handed the credential. */
  lemma BeginAgain(w: World, n: nat, u: World, attended: bool) returns (b: Action, v: World)
    requires Reaches(w, n, u, attended) && Selected(u, n) && u.slot == Some(n) && u.handlers[n].setup.eligible
    requires u.handlers[n].pc == Retrying && u.handlers[n].trial.Some? && u.handlers[n].trial.value.status == Invalid
    requires Usable(u, u.handlers[n].id) && Roomy(u.store, u.handlers[n].id, u.handlers[n].setup.caller)
    ensures Reaches(w, n, v, attended) && SameUsable(u, v, u.handlers[n].id) && LooksAndHits(u, b, v, n)
    ensures var h := u.handlers[n]; var e := u.store.entries[h.id.key];
            v == With(u, n, h.(pc := Top, candidate := Lookup(e.generation, e.secret, 0, 0, Hit))).(store := v.store)
  {
    hide Reaches, Step, Roomy;
    var h := u.handlers[n];
    var t, r := FreeBegin(u.store, h.id, h.setup.caller, u.now);
    var ev := Cache(Begin(h.id, h.setup.caller, u.now, u.now, r));
    var next := h.(pc := Top, candidate := r);
    b, v := Act(n, ev, next), With(u, n, next).(store := t);
    assert HandlerStep(h, ev, next) by { assert VerdictStep(h, ev, next); }
    assert WorldStep(u, b, v) by { hide HandlerStep; }
    ReachesNext(w, n, u, b, v, attended);
  }

  // ---------------------------------------------------------------- making room when callers may be found dead

  function Nobody(): string -> bool {
    (c: string) => false
  }

  /** A sweep that finds every caller dead frees all tickets and records and leaves live credentials. */
  lemma SweepAll(w: World, n: nat, u: World) returns (v: World)
    requires Reaches(w, n, u, false) && Selected(u, n) && Usable(u, u.handlers[n].id) && u.store.ttl > 0
    ensures Reaches(w, n, v, false) && v == u.(store := v.store)
    ensures SameUsable(u, v, u.handlers[n].id)
    ensures v.store.ttl == u.store.ttl && Roomy(v.store, u.handlers[n].id, u.handlers[n].setup.caller)
  {
    hide Reaches, AgentPIN;
    var m := ExpiryExists(u.store, u.now);
    v := u.(store := Swept(m, Nobody()));
    assert v.store.seen == map[] && v.store.tickets == map[];
    assert Step(u.store, Sweep(Nobody(), u.now), v.store);
    ReachesNext(w, n, u, Control(Sweep(Nobody(), u.now)), v, false);
  }

  // ---------------------------------------------------------------- making room when they may not

  /** The caller has no record for the key, and if all records are taken some other caller holds one. */
  ghost predicate RoomLater(s: State, id: Identity, caller: string) {
    IsTracked(id) ==>
      && SeenKey(caller, id.key) !in s.seen
      && (|s.seen| >= MAX_CALLERS ==> exists sk :: sk in s.seen && sk.caller != caller)
  }

  /** Request n, which may use the cache, holds the slot in a world some attended run leads to. */
  ghost predicate Standing(w: World, n: nat, u: World) {
    WorldInv(w) && Reaches(w, n, u, true) && Selected(u, n) && u.slot == Some(n) && u.handlers[n].setup.eligible
  }

  /** What request n relies on is as it was; only its own record may have gone. */
  ghost predicate Undisturbed(u: World, v: World, n: nat) {
    && n in u.handlers && n in v.handlers
    && var h := u.handlers[n];
       && v.handlers[n] == h && v.slot == u.slot && v.now == u.now && v.store.ttl == u.store.ttl
       && SameUsable(u, v, h.id)
       && (forall sk | sk in u.store.seen :: sk in v.store.seen)
       && (SeenKey(h.setup.caller, h.id.key) in v.store.seen ==> SeenKey(h.setup.caller, h.id.key) in u.store.seen)
  }

  /** Request m, of another caller, may have moved; nobody else has. */
  ghost predicate Moved(u: World, v: World, n: nat, m: nat) {
    && Undisturbed(u, v, n)
    && m in u.handlers && v.handlers.Keys == u.handlers.Keys && v.handlers[m].setup == u.handlers[m].setup
    && forall i | i in u.handlers && i != m :: v.handlers[i] == u.handlers[i]
  }

  lemma UndisturbedTwice(u: World, v: World, x: World, n: nat)
    requires Undisturbed(u, v, n) && Undisturbed(v, x, n)
    ensures Undisturbed(u, x, n)
  {
    hide Usable;
  }

  lemma MovedTwice(u: World, v: World, x: World, n: nat, m: nat)
    requires Moved(u, v, n, m) && Moved(v, x, n, m)
    ensures Moved(u, x, n, m)
  {
    UndisturbedTwice(u, v, x, n);
    hide Undisturbed;
  }

  lemma StandsOn(w: World, n: nat, u: World, v: World)
    requires Standing(w, n, u) && Reaches(w, n, v, true) && Undisturbed(u, v, n)
    ensures Standing(w, n, v)
  {
    hide WorldInv, Reaches, Usable;
  }

  /** An operation of another caller on another key. */
  predicate Elsewhere(op: Op, id: Identity, caller: string, now: int) {
    || (op.Begin? && op.id.key != id.key && op.caller != caller && op.now == op.later == now)
    || (op.Commit? && op.id.key != id.key && op.caller != caller && op.now == op.later == now)
    || (op.Forget? && op.key.Some? && op.key.value != id.key)
  }

  lemma ElsewhereKeeps(s: State, op: Op, t: State, id: Identity, caller: string, now: int)
    requires Inv(s) && Step(s, op, t) && Elsewhere(op, id, caller, now)
    ensures t.ttl == s.ttl
    ensures Live(s, id) && now < s.entries[id.key].expires ==> Live(t, id) && t.entries[id.key] == s.entries[id.key]
    ensures forall sk | sk in s.seen :: sk in t.seen
    ensures SeenKey(caller, id.key) in t.seen ==> SeenKey(caller, id.key) in s.seen
  {
    hide Inv, Step, AgentPIN, Evolves;
    StepKeeps(s, op, t);
    if Live(s, id) && now < s.entries[id.key].expires {
      L.StepEndsIff(s, op, t, id.key);
      assert !L.EndsLife(s, op, id.key, s.entries[id.key]);
    }
    SameTtl(s, t);
    forall sk | sk in s.seen ensures sk in t.seen {
      Tracked(s, sk);
      SeenStep(s, op, t, sk);
    }
    var own := SeenKey(caller, id.key);
    if own in t.seen {
      Tracked(t, own);
      SeenStep(s, op, t, own);
    }
  }

  lemma SameTtl(s: State, t: State)
    requires Evolves(s, t)
    ensures t.ttl == s.ttl
  {
  }

  lemma Tracked(s: State, sk: SeenKey)
    requires Inv(s) && sk in s.seen
    ensures !AgentPIN(sk.key)
  {
  }

  /** Another request, without the slot, takes a step. */
  lemma OtherActs(w: World, n: nat, u: World, m: nat, ev: Event, next: Handler, store: State) returns (v: World)
    requires Standing(w, n, u) && m in u.handlers && m != n
    requires HandlerStep(u.handlers[m], ev, next) && !Holds(u.handlers[m]) && !Holds(next) && !ev.Check?
    requires if ev.Cache? then CacheMoves(u, ev.op, store, u.now) else store == u.store
    ensures v == With(u, m, next).(store := store) && Reaches(w, n, v, true)
  {
    hide WorldInv, Reaches, HandlerStep, CacheMoves, Holds;
    v := With(u, m, next).(store := store);
    assert WorldStep(u, Act(m, ev, next), v);
    ReachesNext(w, n, u, Act(m, ev, next), v, true);
  }

  /** Another request takes a step that touches nothing shared. */
  lemma OtherQuiet(w: World, n: nat, u: World, m: nat, next: Handler) returns (v: World)
    requires Standing(w, n, u) && m in u.handlers && m != n && next.setup == u.handlers[m].setup
    requires HandlerStep(u.handlers[m], Quiet, next) && !Holds(u.handlers[m]) && !Holds(next)
    ensures Standing(w, n, v) && Moved(u, v, n, m) && v.handlers[m] == next
  {
    hide HandlerStep, Holds, WorldInv, Reaches, Usable;
    v := OtherActs(w, n, u, m, Quiet, next, u.store);
    SameStore(u, v, n);
    StandsOn(w, n, u, v);
  }

  lemma SameStore(u: World, v: World, n: nat)
    requires n in u.handlers && n in v.handlers && v.handlers[n] == u.handlers[n]
    requires v.slot == u.slot && v.now == u.now && v.store == u.store
    ensures Undisturbed(u, v, n)
  {
    hide Live;
  }

  /** Another request takes a step through the cache, on another key and for another caller. */
  lemma OtherCached(w: World, n: nat, u: World, m: nat, op: Op, next: Handler, store: State) returns (v: World)
    requires Standing(w, n, u) && m in u.handlers && m != n && next.setup == u.handlers[m].setup
    requires HandlerStep(u.handlers[m], Cache(op), next) && !Holds(u.handlers[m]) && !Holds(next)
    requires Step(u.store, op, store) && Elsewhere(op, u.handlers[n].id, u.handlers[n].setup.caller, u.now)
    ensures Standing(w, n, v) && Moved(u, v, n, m) && v.handlers[m] == next
  {
    hide HandlerStep, Holds, WorldInv, Reaches, Step, Undisturbed;
    ElsewhereClock(op, u.handlers[n].id, u.handlers[n].setup.caller, u.now);
    hide Elsewhere;
    v := OtherActs(w, n, u, m, Cache(op), next, store);
    ReachesKeeps(w, n, u, true);
    ElsewhereUndisturbed(u, op, v, n);
    StandsOn(w, n, u, v);
  }

  lemma ElsewhereClock(op: Op, id: Identity, caller: string, now: int)
    requires Elsewhere(op, id, caller, now)
    ensures Timed(op) ==> op.now == LastClock(op) == now
  {
  }

  lemma ElsewhereUndisturbed(u: World, op: Op, v: World, n: nat)
    requires WorldInv(u) && n in u.handlers && n in v.handlers && v.handlers[n] == u.handlers[n]
    requires v.slot == u.slot && v.now == u.now && Step(u.store, op, v.store)
    requires Elsewhere(op, u.handlers[n].id, u.handlers[n].setup.caller, u.now)
    ensures Undisturbed(u, v, n)
  {
    hide WorldInv, Step;
    StoreInv(u);
    ElsewhereKeeps(u.store, op, v.store, u.handlers[n].id, u.handlers[n].setup.caller, u.now);
    hide Elsewhere;
  }

  /** Request m ends without touching anything shared. */
  lemma EndsQuietly(w: World, n: nat, u: World, m: nat) returns (v: World)
    requires Standing(w, n, u) && m in u.handlers && m != n
    requires !Holds(u.handlers[m]) && !u.handlers[m].pc.Done? && MayEnd(u.handlers[m], None)
    ensures Standing(w, n, v) && Moved(u, v, n, m) && v.handlers[m].pc.Done?
  {
    hide Standing, MayEnd, Moved;
    var next := u.handlers[m].(pc := Done(None));
    assert EndStep(u.handlers[m], Quiet, next);
    hide EndStep, OpeningStep, TryingStep, VerdictStep, DeliveryStep;
    v := OtherQuiet(w, n, u, m, next);
  }

  /** Where a request without the slot can be while another one holds it. */
  lemma OthersWhere(w: World, n: nat, u: World, m: nat)
    requires Standing(w, n, u) && m in u.handlers && m != n && !u.handlers[m].pc.Done?
    ensures !Holds(u.handlers[m])
    ensures var h := u.handlers[m];
            MayEnd(h, None) || (!h.setup.verify && (h.pc == Beginning || h.pc == Storing))
  {
    hide Reaches, WorldInv, IdentityOk;
    ReachesKeeps(w, n, u, true);
    OneOk(u, m);
    SlotIs(u, m);
    hide Standing;
    WithoutSlot(u.handlers[m]);
  }

  lemma SlotIs(u: World, m: nat)
    requires WorldInv(u) && m in u.handlers
    ensures Holds(u.handlers[m]) <==> u.slot == Some(m)
  {
    hide Inv, DisabledEmpty, StoreBound, HandlersOk, SetupsOk, Holds;
  }

  lemma WithoutSlot(h: Handler)
    requires IdentityOk(h) && !Holds(h) && !h.pc.Done?
    ensures MayEnd(h, None) || (!h.setup.verify && (h.pc == Beginning || h.pc == Storing))
  {
    hide Plain, Bound;
  }

  /** A request that is not verified works on another key than the verified one. */
  lemma OtherKey(w: World, n: nat, u: World, m: nat)
    requires Standing(w, n, u) && m in u.handlers && u.handlers[m].setup.eligible && !u.handlers[m].setup.verify
    ensures u.handlers[m].id.key != u.handlers[n].id.key
  {
    hide Reaches, WorldInv, IdentityOk;
    ReachesKeeps(w, n, u, true);
    OneOk(u, m);
    OneOk(u, n);
    SetupIs(u, m);
    SetupIs(u, n);
    KeyIs(u.handlers[m]);
    KeyIs(u.handlers[n]);
  }

  lemma SetupIs(u: World, m: nat)
    requires WorldInv(u) && m in u.handlers
    ensures Arranged(u.verifying, u.handlers[m].setup)
  {
    hide Inv, DisabledEmpty, StoreBound, HandlersOk, SlotOk, Arranged;
  }

  lemma KeyIs(h: Handler)
    requires IdentityOk(h) && (InSelection(h.pc) || !h.setup.verify)
    ensures h.id.key == h.setup.base.key
  {
    hide Plain, DeviceStamp;
  }

  /** Request m takes its first look. */
  lemma OtherLooks(w: World, n: nat, u: World, m: nat) returns (v: World)
    requires Standing(w, n, u) && m in u.handlers && m != n
    requires u.handlers[m].setup.caller != u.handlers[n].setup.caller
    requires !u.handlers[m].setup.verify && u.handlers[m].pc == Beginning
    ensures Standing(w, n, v) && Moved(u, v, n, m) && v.handlers[m].pc == Top
  {
    hide Reaches, WorldInv, Step, Moved;
    var h, own := u.handlers[m], u.handlers[n];
    if h.setup.eligible {
      OtherKey(w, n, u, m);
      var t, r := SomeAnswer(u.store, h.id, h.setup.caller, u.now);
      var op := Begin(h.id, h.setup.caller, u.now, u.now, r);
      var next := h.(pc := Top, candidate := r, value := r.secret, cached := r.secret != []);
      LooksHere(h, op, next);
      hide HandlerStep;
      v := OtherCached(w, n, u, m, op, next, t);
    } else {
      var next := h.(pc := Top, candidate := NO_LOOKUP, value := [], cached := false);
      assert OpeningStep(h, Quiet, next);
      hide Standing;
      v := OtherQuiet(w, n, u, m, next);
    }
  }

  lemma LooksHere(h: Handler, op: Op, next: Handler)
    requires h.pc == Beginning && h.setup.eligible && op.Begin? && op.id == h.id && op.caller == h.setup.caller
    requires next == h.(pc := Top, candidate := op.answer, value := op.answer.secret, cached := op.answer.secret != [])
    ensures HandlerStep(h, Cache(op), next)
  {
    assert OpeningStep(h, Cache(op), next);
    hide EndStep, OpeningStep, TryingStep, VerdictStep, DeliveryStep;
  }

  lemma SomeAnswer(s: State, id: Identity, caller: string, now: int) returns (t: State, r: Lookup)
    ensures Step(s, Begin(id, caller, now, now, r), t)
  {
    hide Expired, BeginAfter;
    var m := ExpiryExists(s, now);
    t, r := BeginAfter(m, id, caller, now).0, BeginAfter(m, id, caller, now).1;
  }

  /** Request m finishes after its delivery. */
  lemma OtherSaves(w: World, n: nat, u: World, m: nat) returns (v: World)
    requires Standing(w, n, u) && m in u.handlers && m != n
    requires u.handlers[m].setup.caller != u.handlers[n].setup.caller
    requires !u.handlers[m].setup.verify && u.handlers[m].pc == Storing
    ensures Standing(w, n, v) && Moved(u, v, n, m) && v.handlers[m].pc.Done?
  {
    hide Reaches, WorldInv, Step, Moved;
    var h := u.handlers[m];
    var next := h.(pc := Done(Some(0)));
    if h.candidate.token != 0 && !h.remember {
      ReachesKeeps(w, n, u, true);
      HasToken(u, m);
      OtherKey(w, n, u, m);
      var op := Op.Forget(Some(h.id.key));
      ForgetsHere(h, next);
      ForgetIs(u.store, Some(h.id.key));
      hide HandlerStep;
      v := OtherCached(w, n, u, m, op, next, Forgotten(u.store, Some(h.id.key)));
    } else if h.candidate.token != 0 && h.value != [] && Unchanged(h) {
      ReachesKeeps(w, n, u, true);
      HasToken(u, m);
      OtherKey(w, n, u, m);
      var t, op := SomeCommit(u.store, h, u.now);
      CommitsHere(h, op, next);
      hide HandlerStep;
      v := OtherCached(w, n, u, m, op, next, t);
    } else {
      SavesNothing(h, next);
      hide Standing, HandlerStep;
      v := OtherQuiet(w, n, u, m, next);
    }
  }

  lemma ForgetsHere(h: Handler, next: Handler)
    requires h.pc == Storing && h.candidate.token != 0 && !h.remember && next == h.(pc := Done(Some(0)))
    ensures HandlerStep(h, Cache(Op.Forget(Some(h.id.key))), next)
  {
    assert DeliveryStep(h, Cache(Op.Forget(Some(h.id.key))), next);
    hide EndStep, OpeningStep, TryingStep, VerdictStep, DeliveryStep;
  }

  lemma SomeCommit(s: State, h: Handler, now: int) returns (t: State, op: Op)
    ensures op.Commit? && op == Commit(h.candidate.token, h.id, h.setup.caller, h.value, now, now, op.ok)
    ensures Step(s, op, t)
  {
    hide Expired, CommitAfter;
    var m := ExpiryExists(s, now);
    var r := CommitAfter(m, h.candidate.token, h.id, h.setup.caller, h.value, now);
    t, op := r.0, Commit(h.candidate.token, h.id, h.setup.caller, h.value, now, now, r.1);
  }

  lemma CommitsHere(h: Handler, op: Op, next: Handler)
    requires h.pc == Storing && h.candidate.token != 0 && h.remember && h.value != [] && Unchanged(h)
    requires op.Commit? && op == Commit(h.candidate.token, h.id, h.setup.caller, h.value, op.now, op.later, op.ok)
    requires next == h.(pc := Done(Some(0)))
    ensures HandlerStep(h, Cache(op), next)
  {
    assert DeliveryStep(h, Cache(op), next);
    hide EndStep, OpeningStep, TryingStep, VerdictStep, DeliveryStep;
  }

  lemma SavesNothing(h: Handler, next: Handler)
    requires h.pc == Storing && (h.candidate.token == 0 || h.remember) && next == h.(pc := Done(Some(0)))
    requires h.candidate.token == 0 || h.value == [] || !Unchanged(h)
    ensures HandlerStep(h, Quiet, next)
  {
    assert DeliveryStep(h, Quiet, next);
    hide EndStep, OpeningStep, TryingStep, VerdictStep, DeliveryStep;
  }

  lemma ForgetIs(s: State, key: Option<Key>)
    ensures Step(s, Op.Forget(key), Forgotten(s, key))
  {
  }

  lemma HasToken(u: World, m: nat)
    requires WorldInv(u) && m in u.handlers && u.handlers[m].pc == Storing && u.handlers[m].candidate.token != 0
    ensures u.handlers[m].setup.eligible
  {
    OneOk(u, m);
    hide WorldInv, IdentityOk, TrialOk, LookupOk;
  }

  /** Any other request of another caller can end without disturbing n. */
  lemma EndOther(w: World, n: nat, u: World, m: nat) returns (v: World)
    requires Standing(w, n, u) && m in u.handlers && m != n && !u.handlers[m].pc.Done?
    requires n in u.handlers && u.handlers[m].setup.caller != u.handlers[n].setup.caller
    ensures Standing(w, n, v) && Moved(u, v, n, m) && m in v.handlers && v.handlers[m].pc.Done?
  {
    hide *;
    OthersWhere(w, n, u, m);
    if MayEnd(u.handlers[m], None) {
      v := EndsQuietly(w, n, u, m);
      MovedHas(u, v, n, m);
    } else if u.handlers[m].pc == Storing {
      v := OtherSaves(w, n, u, m);
      MovedHas(u, v, n, m);
    } else {
      var x := OtherLooks(w, n, u, m);
      MovedHas(u, x, n, m);
      OthersWhere(w, n, x, m);
      v := EndsQuietly(w, n, x, m);
      MovedHas(x, v, n, m);
      MovedTwice(u, x, v, n, m);
    }
  }

  lemma MovedHas(u: World, v: World, n: nat, m: nat)
    requires Moved(u, v, n, m)
    ensures m in v.handlers && Undisturbed(u, v, n) && v.handlers.Keys == u.handlers.Keys
    ensures v.handlers[m].setup == u.handlers[m].setup
    ensures forall i | i in u.handlers && i != m :: v.handlers[i] == u.handlers[i]
  {
    hide Undisturbed;
  }

  /** All requests of another caller can end without disturbing n. */
  lemma {:induction false} EndAll(w: World, n: nat, u: World, caller: string, todo: set<nat>) returns (v: World)
    requires Standing(w, n, u) && n in u.handlers && caller != u.handlers[n].setup.caller
    requires forall m | m in u.handlers && u.handlers[m].setup.caller == caller && !u.handlers[m].pc.Done? :: m in todo
    ensures Standing(w, n, v) && Undisturbed(u, v, n)
    ensures forall m | m in v.handlers && v.handlers[m].setup.caller == caller :: v.handlers[m].pc.Done?
    decreases |todo|
  {
    hide *;
    if m: nat :| m in todo {
      if m in u.handlers && u.handlers[m].setup.caller == caller && !u.handlers[m].pc.Done? {
        var x := EndOther(w, n, u, m);
        MovedHas(u, x, n, m);
        StillThere(u, x, n);
        v := EndAll(w, n, x, caller, todo - {m});
        UndisturbedTwice(u, x, v, n);
      } else {
        v := EndAll(w, n, u, caller, todo - {m});
      }
    } else {
      v := u;
      SameStore(u, u, n);
    }
  }

  lemma StillThere(u: World, v: World, n: nat)
    requires Undisturbed(u, v, n)
    ensures n in u.handlers && n in v.handlers && v.handlers[n] == u.handlers[n]
  {
    hide SameUsable;
  }

  function AllBut(caller: string): string -> bool {
    (c: string) => c != caller
  }

  /** A sweep that finds one caller dead frees its records and leaves live credentials. */
  lemma SweepOne(s: State, caller: string, now: int, id: Identity, sk: SeenKey) returns (t: State)
    requires Inv(s) && sk in s.seen && sk.caller == caller
    ensures Step(s, Sweep(AllBut(caller), now), t) && t.ttl == s.ttl && |t.seen| < MAX_CALLERS
    ensures forall x | x in t.seen :: x in s.seen
    ensures Live(s, id) && now < s.entries[id.key].expires ==> Live(t, id) && t.entries[id.key] == s.entries[id.key]
  {
    RecordBound(s);
    hide Inv;
    var m := ExpiryExists(s, now);
    t := Swept(m, AllBut(caller));
    assert Step(s, Sweep(AllBut(caller), now), t);
    assert t.seen.Keys <= s.seen.Keys - {sk};
    SubsetSize(t.seen.Keys, s.seen.Keys - {sk});
  }

  lemma RecordBound(s: State)
    requires Inv(s)
    ensures |s.seen| <= MAX_CALLERS && |s.tickets| <= MAX_TICKETS
  {
  }

  /** What request n needs is still there, and its key has no record and room for one. */
  ghost predicate HasRecord(u: World, v: World, n: nat) {
    && n in u.handlers && n in v.handlers && v.handlers[n] == u.handlers[n] && v.slot == u.slot && v.now == u.now
    && SameUsable(u, v, u.handlers[n].id) && v.store.ttl == u.store.ttl
    && !IsRetry(v.store, u.handlers[n].id, u.handlers[n].setup.caller)
    && (IsTracked(u.handlers[n].id) ==> |v.store.seen| < MAX_CALLERS)
  }

  /** A retry record becomes free: every other request of its caller ends, and a sweep finds the caller dead. */
  lemma FreeRecord(w: World, n: nat, u: World) returns (v: World)
    requires Standing(w, n, u) && n in u.handlers && Usable(u, u.handlers[n].id)
    requires RoomLater(u.store, u.handlers[n].id, u.handlers[n].setup.caller)
    ensures Standing(w, n, v) && HasRecord(u, v, n)
  {
    hide Standing, Usable, AgentPIN;
    var h := u.handlers[n];
    if IsTracked(h.id) && |u.store.seen| >= MAX_CALLERS {
      var sk :| sk in u.store.seen && sk.caller != h.setup.caller;
      hide *;
      var x := EndAll(w, n, u, sk.caller, u.handlers.Keys);
      v := SweepDead(w, n, u, x, sk);
    } else {
      v := u;
    }
  }

  lemma SweepDead(w: World, n: nat, u: World, x: World, sk: SeenKey) returns (v: World)
    requires Standing(w, n, x) && Undisturbed(u, x, n) && sk in u.store.seen
    requires n in u.handlers && Usable(u, u.handlers[n].id)
    requires SeenKey(u.handlers[n].setup.caller, u.handlers[n].id.key) !in u.store.seen
    requires forall m | m in x.handlers && x.handlers[m].setup.caller == sk.caller :: x.handlers[m].pc.Done?
    ensures Standing(w, n, v) && HasRecord(u, v, n)
  {
    hide Reaches, WorldInv, AgentPIN, Step;
    ReachesKeeps(w, n, x, true);
    StoreInv(x);
    var t := SweepOne(x.store, sk.caller, x.now, u.handlers[n].id, sk);
    v := x.(store := t);
    SweepHere(w, n, x, sk.caller, v);
  }

  lemma SweepHere(w: World, n: nat, x: World, caller: string, v: World)
    requires Standing(w, n, x) && v == x.(store := v.store) && Step(x.store, Sweep(AllBut(caller), x.now), v.store)
    requires forall m | m in x.handlers && x.handlers[m].setup.caller == caller :: x.handlers[m].pc.Done?
    ensures Standing(w, n, v)
  {
    hide Reaches, WorldInv, Step;
    var a := Control(Sweep(AllBut(caller), x.now));
    assert WorldStep(x, a, v);
    ReachesNext(w, n, x, a, v, true);
  }

  /** A ticket becomes free: its caller spends it on an empty answer. */
  lemma FreeTicket(w: World, n: nat, u: World) returns (v: World)
    requires Standing(w, n, u) && n in u.handlers && Usable(u, u.handlers[n].id)
    ensures Standing(w, n, v) && v == u.(store := v.store)
    ensures SameUsable(u, v, u.handlers[n].id) && v.store.ttl == u.store.ttl
    ensures v.store.seen == u.store.seen && |v.store.tickets| < MAX_TICKETS
  {
    TicketBound(w, n, u);
    if tok: nat :| tok in u.store.tickets {
      var t := Spend(u.store, tok, u.now, u.handlers[n].id);
      v := u.(store := t);
      hide Standing, Live, Step;
      SpendHere(w, n, u, tok, v);
    } else {
      assert u.store.tickets == map[];
      v := u;
      hide *;
    }
  }

  lemma TicketBound(w: World, n: nat, u: World)
    requires Standing(w, n, u)
    ensures |u.store.tickets| <= MAX_TICKETS
  {
    hide WorldInv, Reaches;
    ReachesKeeps(w, n, u, true);
    StoreInv(u);
    RecordBound(u.store);
  }

  lemma SpendHere(w: World, n: nat, u: World, tok: nat, v: World)
    requires Standing(w, n, u) && v == u.(store := v.store) && tok in u.store.tickets
    requires Step(u.store, Spending(u.store, tok, u.now), v.store)
    ensures Standing(w, n, v)
  {
    hide Reaches, WorldInv, Step;
    var a := Control(Spending(u.store, tok, u.now));
    assert Plain("");
    assert WorldStep(u, a, v);
    ReachesNext(w, n, u, a, v, true);
  }

  function Spending(s: State, tok: nat, now: int): Op
    requires tok in s.tickets
  {
    Commit(tok, Identity(s.tickets[tok].identity.key, ""), s.tickets[tok].caller, [], now, now, false)
  }

  lemma Spend(s: State, tok: nat, now: int, id: Identity) returns (t: State)
    requires tok in s.tickets && |s.tickets| <= MAX_TICKETS
    ensures Step(s, Spending(s, tok, now), t) && t.ttl == s.ttl && t.seen == s.seen && |t.tickets| < MAX_TICKETS
    ensures Live(s, id) && now < s.entries[id.key].expires ==> Live(t, id) && t.entries[id.key] == s.entries[id.key]
  {
    var m := ExpiryExists(s, now);
    var op := Spending(s, tok, now);
    t := CommitAfter(m, tok, op.id, op.caller, [], now).0;
    assert !CommitAfter(m, tok, op.id, op.caller, [], now).1;
    assert t.tickets.Keys <= s.tickets.Keys - {tok};
    SubsetSize(t.tickets.Keys, s.tickets.Keys - {tok});
  }

  /** With no record of its own and somebody else's to free, a request gets room for a look. */
  lemma MakeRoom(w: World, n: nat, u: World) returns (v: World)
    requires Standing(w, n, u) && n in u.handlers && u.store.ttl > 0 && Usable(u, u.handlers[n].id)
    requires RoomLater(u.store, u.handlers[n].id, u.handlers[n].setup.caller)
    ensures Standing(w, n, v) && n in v.handlers && v.handlers[n] == u.handlers[n] && v.slot == u.slot && v.now == u.now
    ensures SameUsable(u, v, u.handlers[n].id) && Roomy(v.store, u.handlers[n].id, u.handlers[n].setup.caller)
  {
    hide Standing, RoomLater, AgentPIN, Live;
    var x := FreeRecord(w, n, u);
    v := FreeTicket(w, n, x);
  }

  // ---------------------------------------------------------------- a withheld credential is rejected

  /** Right after the first Begin, in the state the first Begin left. */
  predicate JustLooked(h: Handler) {
    && h.pc == Top && h.value == h.candidate.secret && LookupOk(h.candidate)
    && (h.cached <==> h.candidate.secret != [])
  }

  /** If a usable credential was withheld, a refused PIN, a way to make room and a second refused PIN lead
      to rejecting it untried. */
  lemma WithheldIsRejected(w: World, n: nat, attended: bool) returns (u: World, b: Action, x: World, v: World)
    requires WorldInv(w) && Selected(w, n) && w.slot == Some(n) && w.store.ttl > 0
    requires var h := w.handlers[n]; JustLooked(h) && h.candidate.generation == 0 && h.setup.eligible && !h.cancelled
    requires Usable(w, w.handlers[n].id)
    requires w.store.entries[w.handlers[n].id.key].generation != 0
    requires attended ==> RoomLater(w.store, w.handlers[n].id, w.handlers[n].setup.caller)
    ensures Reaches(w, n, u, attended) && LooksAndHits(u, b, x, n)
    ensures Reaches(w, n, v, attended) && Misdirected(v, n)
  {
    hide Reaches, Validate, WorldInv, RoomLater, Roomy, LooksAndHits;
    var id := w.handlers[n].id;
    var answer := OtherAnswer(w.store.entries[id.key].secret);
    ReachesItself(w, n, attended);
    var a := TypedAndRefused(w, n, w, answer, attended);
    if attended {
      u := MakeRoom(w, n, a);
    } else {
      u := SweepAll(w, n, a);
    }
    b, x := BeginAgain(w, n, u, attended);
    v := TypedAndRefused(w, n, x, answer, attended);
    assert IsCurrent(v.store, id, v.handlers[n].candidate.generation);
  }

  // ---------------------------------------------------------------- never without a withheld credential

  /** What the first Begin of a selection leaves the request with. */
  lemma FirstLook(w: World, a: Action, v: World, n: nat)
    requires WorldInv(w) && WorldStep(w, a, v) && a.Act? && a.n == n && n in w.handlers
    requires w.handlers[n].pc == Beginning && Selected(v, n)
    ensures JustLooked(v.handlers[n]) && v.handlers[n] == a.next && v.slot == Some(n)
    ensures v.handlers[n].id == w.handlers[n].id && v.handlers[n].setup == w.handlers[n].setup
    ensures if w.handlers[n].setup.eligible
            then && a.ev.Cache? && a.ev.op.Begin? && a.ev.op.id == w.handlers[n].id
                 && a.ev.op.caller == w.handlers[n].setup.caller
                 && a.next.candidate == a.ev.op.answer && CacheMoves(w, a.ev.op, v.store, v.now)
            else v.handlers[n].candidate == NO_LOOKUP
  {
    hide WorldInv, Step, LookupOk;
    LookStep(w.handlers[n], a.ev, a.next);
    StoreInv(w);
    if a.ev.Cache? && a.ev.op.Begin? {
      AnswerShape(w.store, a.ev.op, v.store);
      assert a.next.candidate.secret != [] <==> a.next.candidate.generation != 0 by { ShapeOf(a.next.candidate); }
    }
    assert LookupOk(NO_LOOKUP) by { EmptyShape(); }
  }

  lemma EmptyShape()
    ensures LookupOk(NO_LOOKUP)
  {
  }

  lemma ShapeOf(r: Lookup)
    requires LookupOk(r)
    ensures r.secret != [] <==> r.generation != 0
  {
  }

  lemma LookStep(h: Handler, ev: Event, next: Handler)
    requires HandlerStep(h, ev, next) && h.pc == Beginning && InSelection(next.pc)
    ensures BeginStep(h, ev, next)
  {
  }

  /** A look that withheld nothing leaves a request that knows, or can do no harm. */
  lemma GoodLook(w: World, a: Action, v: World, n: nat)
    requires WorldInv(w) && WorldStep(w, a, v) && a.Act? && a.n == n && n in w.handlers
    requires w.handlers[n].pc == Beginning && Selected(v, n)
    requires !Withheld(v, v.handlers[n])
    ensures Knows(v, v.handlers[n]) || Harmless(v.handlers[n])
  {
    hide WorldInv, Step, WorldStep, HandlerStep, LookupOk;
    FirstLook(w, a, v, n);
    var h := v.handlers[n];
    if h.candidate.generation != 0 {
      StoreInv(w);
      AnswerShape(w.store, a.ev.op, v.store);
      ShapeOf(h.candidate);
      HitFacts(w.store, a.ev.op, v.store);
    }
  }

  /** The look at the cache handed out nothing although a usable credential is there. */
  predicate Withheld(v: World, h: Handler) {
    h.setup.eligible && !h.cancelled && h.candidate.generation == 0 && Usable(v, h.id)
  }

  lemma HarmlessIsWellDirected(w: World, n: nat)
    requires WorldInv(w) && n in w.handlers && Harmless(w.handlers[n])
    ensures !Misdirected(w, n)
  {
    StoreInv(w);
    OneOk(w, n);
    hide WorldInv, Inv, IdentityOk, CandidateOk;
  }

  /** Nothing a later look could answer would be a hit, however long the caller lives: it has a record of
      its own for the key, or it holds every record there is. */
  ghost predicate Barred(s: State, sk: SeenKey) {
    sk in s.seen || (|s.seen| >= MAX_CALLERS && forall x | x in s.seen :: x.caller == sk.caller)
  }

  predicate BuriesCaller(op: Op, caller: string) {
    op.Sweep? && !op.alive(caller)
  }

  lemma BarredStays(s: State, op: Op, t: State, sk: SeenKey)
    requires Inv(s) && Step(s, op, t) && !AgentPIN(sk.key) && Barred(s, sk) && !BuriesCaller(op, sk.caller)
    ensures Barred(t, sk)
  {
    hide Inv, Step, AgentPIN, Evolves;
    StepKeeps(s, op, t);
    if sk in s.seen {
      SeenStep(s, op, t, sk);
    } else {
      forall x | x in s.seen ensures x in t.seen {
        Tracked(s, x);
        SeenStep(s, op, t, x);
      }
      RecordBound(t);
      SubsetSize(s.seen.Keys, t.seen.Keys);
      AllOld(s.seen.Keys, t.seen.Keys);
    }
  }

  lemma AllOld<T>(a: set<T>, b: set<T>)
    requires a <= b && |b| <= |a|
    ensures a == b
  {
    assert b == a + (b - a);
  }

  lemma BarredMisses(s: State, op: Op, t: State)
    requires Inv(s) && op.Begin? && Step(s, op, t) && IsTracked(op.id) && Barred(s, SeenKey(op.caller, op.id.key))
    ensures op.answer.secret == [] && op.answer.generation == 0
  {
    hide Inv, AgentPIN;
    var m :| Expired(s, op.now, m) && (t, op.answer) == BeginAfter(m, op.id, op.caller, op.later);
    ExpireSeen(s, op.now, m);
    hide Expired;
    BarredAnswer(m, op.id, op.caller, op.later);
  }

  lemma BarredAnswer(m: State, id: Identity, caller: string, later: int)
    requires IsTracked(id) && (SeenKey(caller, id.key) in m.seen || |m.seen| >= MAX_CALLERS)
    ensures var r := BeginAfter(m, id, caller, later).1; r.secret == [] && r.generation == 0
  {
    hide AgentPIN;
  }

  /** The request has no version, and no later look can give it one. */
  ghost predicate Stuck(w: World, n: nat) {
    && n in w.handlers
    && var h := w.handlers[n];
       h.candidate.generation == 0 && IsTracked(h.id) && Barred(w.store, SeenKey(h.setup.caller, h.id.key))
  }

  lemma StuckStays(w: World, a: Action, v: World, n: nat)
    requires WorldInv(w) && WorldStep(w, a, v) && Attends(w, a) && Selected(w, n) && Selected(v, n) && Stuck(w, n)
    ensures Stuck(v, n)
    ensures a.Act? && a.n == n && a.ev.Cache? && a.ev.op.Begin? ==> a.ev.op.answer.secret == []
  {
    hide WorldInv, HandlerStep, Step, Usable, Barred, AgentPIN;
    StoreInv(w);
    NoNewUsable(w, a, v, n);
    var h := w.handlers[n];
    var sk := SeenKey(h.setup.caller, h.id.key);
    if a.Control? {
      BarredStays(w.store, a.op, v.store, sk);
    } else if a.Act? {
      if a.ev.Cache? {
        NoSweep(w.handlers[a.n], a.ev, a.next);
        BarredStays(w.store, a.ev.op, v.store, sk);
      }
      if a.n == n {
        OwnStuck(w, a, v);
      }
    }
  }

  lemma NoSweep(h: Handler, ev: Event, next: Handler)
    requires HandlerStep(h, ev, next) && ev.Cache?
    ensures !ev.op.Sweep?
  {
  }

  lemma OwnStuck(w: World, a: Action, v: World)
    requires WorldInv(w) && WorldStep(w, a, v) && a.Act? && Selected(w, a.n) && Stuck(w, a.n)
    ensures a.next.setup == w.handlers[a.n].setup && (InSelection(a.next.pc) ==> a.next.candidate.generation == 0)
    ensures a.ev.Cache? && a.ev.op.Begin? ==> a.ev.op.answer.secret == []
  {
    hide WorldInv, HandlerStep, Step, Barred, AgentPIN;
    StoreInv(w);
    VersionSource(w.handlers[a.n], a.ev, a.next);
    if a.ev.Cache? && a.ev.op.Begin? {
      BeganWhere(w.handlers[a.n], a.ev, a.next);
      CallerIs(w.handlers[a.n], a.ev, a.next);
      BarredMisses(w.store, a.ev.op, v.store);
    }
  }

  lemma CallerIs(h: Handler, ev: Event, next: Handler)
    requires HandlerStep(h, ev, next) && ev.Cache? && ev.op.Begin?
    ensures ev.op.caller == h.setup.caller
  {
    hide Plain, Bound, Refusal, MayEnd, Validate;
  }

  lemma StuckIsWellDirected(w: World, n: nat)
    requires WorldInv(w) && Stuck(w, n)
    ensures !Misdirected(w, n)
  {
    OneOk(w, n);
    hide WorldInv, IdentityOk, CandidateOk, Barred;
  }

  // ---------------------------------------------------------------- along a continuation

  /** What keeps a request from a later hit and from a misdirected rejection. */
  ghost predicate Safe(w: World, n: nat, attended: bool) {
    n in w.handlers && (Knows(w, w.handlers[n]) || Harmless(w.handlers[n]) || (attended && Stuck(w, n)))
  }

  lemma {:induction false} SafeAlong(ws: seq<World>, acts: seq<Action>, n: nat, attended: bool, j: nat)
    requires Leads(ws, acts, n, attended) && WorldInv(ws[0]) && Safe(ws[0], n, attended) && j < |ws|
    ensures WorldInv(ws[j]) && Safe(ws[j], n, attended) && Selected(ws[j], n)
  {
    hide WorldInv, WorldStep, Knows, Harmless, Stuck, Selected, Attends;
    assert Selected(ws[j], n);
    if Knows(ws[0], ws[0].handlers[n]) {
      KnowsAlong(ws, acts, n, j);
    } else if Harmless(ws[0].handlers[n]) {
      HarmlessAlong(ws, acts, n, j);
    } else {
      StuckAlong(ws, acts, n, j);
    }
    StillListed(ws[j], n);
  }

  lemma StillListed(w: World, n: nat)
    requires Selected(w, n)
    ensures n in w.handlers
  {
  }

  lemma {:induction false} StuckAlong(ws: seq<World>, acts: seq<Action>, n: nat, j: nat)
    requires Leads(ws, acts, n, true) && WorldInv(ws[0]) && Stuck(ws[0], n) && j < |ws|
    ensures WorldInv(ws[j]) && Stuck(ws[j], n)
  {
    hide WorldInv, WorldStep, Stuck, Selected, Attends;
    if j > 0 {
      StuckAlong(ws, acts, n, j - 1);
      assert Selected(ws[j - 1], n) && Selected(ws[j], n);
      WorldKeeps(ws[j - 1], acts[j - 1], ws[j]);
      StuckStays(ws[j - 1], acts[j - 1], ws[j], n);
    }
  }

  lemma SafeForever(v: World, n: nat, u: World, attended: bool)
    requires WorldInv(v) && Safe(v, n, attended) && Reaches(v, n, u, attended)
    ensures WorldInv(u) && Safe(u, n, attended) && Selected(u, n)
  {
    hide WorldInv, WorldStep, OneSelection, AllAttend, Safe, Selected;
    var ws, acts :| Leads(ws, acts, n, attended) && ws[0] == v && ws[|ws| - 1] == u;
    SafeAlong(ws, acts, n, attended, |ws| - 1);
  }

  lemma SafeIsWellDirected(u: World, n: nat, attended: bool)
    requires WorldInv(u) && Safe(u, n, attended) && Selected(u, n)
    ensures !Misdirected(u, n)
  {
    hide WorldInv, Knows, Harmless, Stuck, Misdirected, Selected;
    if Knows(u, u.handlers[n]) {
      KnowingIsWellDirected(u, n);
    } else if Harmless(u.handlers[n]) {
      HarmlessIsWellDirected(u, n);
    } else {
      StuckIsWellDirected(u, n);
    }
  }

  lemma SafeNeverHits(u: World, b: Action, x: World, n: nat, attended: bool)
    requires WorldInv(u) && Safe(u, n, attended) && Selected(u, n)
    ensures !LooksAndHits(u, b, x, n)
  {
    hide WorldInv, Knows, Harmless, Stuck, HandlerStep, Step;
    if LooksAndHits(u, b, x, n) {
      StoreInv(u);
      if Knows(u, u.handlers[n]) {
        KnowingMisses(u, b, x, n);
      } else if Harmless(u.handlers[n]) {
        OneOk(u, n);
        HarmlessLook(u.handlers[n], b.ev, b.next);
      } else {
        OwnStuck(u, b, x);
      }
    }
  }

  lemma KnowingMisses(u: World, b: Action, x: World, n: nat)
    requires WorldInv(u) && Selected(u, n) && Knows(u, u.handlers[n]) && WorldStep(u, b, x)
    requires b.Act? && b.n == n && b.ev.Cache? && b.ev.op.Begin?
    ensures b.ev.op.answer.secret == []
  {
    hide WorldInv, HandlerStep, Step, Usable, UsesVersion;
    StoreInv(u);
    BeganWhere(u.handlers[n], b.ev, b.next);
    NothingToHit(u, b.ev.op, x, u.handlers[n].id);
    AnswerShape(u.store, b.ev.op, x.store);
  }

  // ---------------------------------------------------------------- exactly when a look withholds

  /** The branches by which Begin keeps a live credential from the caller: no room for a ticket, no room
      for a retry record, or a retry whose record names another version. */
  predicate KeptFrom(s: State, id: Identity, caller: string, now: int)
    requires id.key in s.entries
  {
    || |Unexpired(s.tickets, now)| >= MAX_TICKETS
    || (IsTracked(id) && !IsRetry(s, id, caller) && |s.seen| >= MAX_CALLERS)
    || (IsRetry(s, id, caller) && s.seen[SeenKey(caller, id.key)] != s.entries[id.key].generation)
  }

  /** Begin withholds a usable credential exactly in those branches. */
  lemma WithholdsIff(s: State, op: Op, t: State)
    requires Inv(s) && DisabledEmpty(s) && op.Begin? && Step(s, op, t)
    ensures op.answer.generation == 0 && Live(t, op.id) && op.later < t.entries[op.id.key].expires
       <==> Live(s, op.id) && op.later < s.entries[op.id.key].expires && KeptFrom(s, op.id, op.caller, op.now)
  {
    hide Step, Inv, Evolves, KeptFrom, DisabledEmpty;
    BeginKeeps(s, op.id, op.caller, op.now, op.later, op.answer, t);
    if Live(s, op.id) && op.later < s.entries[op.id.key].expires {
      WithholdsLive(s, op, t);
    }
  }

  lemma WithholdsLive(s: State, op: Op, t: State)
    requires Inv(s) && DisabledEmpty(s) && op.Begin? && Step(s, op, t)
    requires Live(s, op.id) && op.later < s.entries[op.id.key].expires
    ensures op.answer.generation == 0 && Live(t, op.id) <==> KeptFrom(s, op.id, op.caller, op.now)
    ensures op.answer.generation == 0 && Live(t, op.id) ==> t.entries[op.id.key] == s.entries[op.id.key]
  {
    hide Inv, BeginAfter, IsTracked;
    var m :| Expired(s, op.now, m) && (t, op.answer) == BeginAfter(m, op.id, op.caller, op.later);
    ExpireKeeps(s, op.now, m);
    assert m.entries[op.id.key] == s.entries[op.id.key];
    WithheldLive(m, op.id, op.caller, op.later);
  }

  lemma WithheldLive(m: State, id: Identity, caller: string, later: int)
    requires Inv(m) && m.ttl > 0 && Live(m, id)
    ensures var (t, r) := BeginAfter(m, id, caller, later);
      r.generation == 0 && Live(t, id) <==>
        || |m.tickets| >= MAX_TICKETS
        || (IsTracked(id) && !IsRetry(m, id, caller) && |m.seen| >= MAX_CALLERS)
        || (IsRetry(m, id, caller) && m.seen[SeenKey(caller, id.key)] != m.entries[id.key].generation)
    ensures var (t, r) := BeginAfter(m, id, caller, later);
      r.generation == 0 && Live(t, id) ==> t.entries[id.key] == m.entries[id.key]
  {
    InvEntry(m, id.key);
    hide Inv, AgentPIN;
  }

  lemma LivePositive(s: State, id: Identity)
    requires Inv(s) && DisabledEmpty(s) && Live(s, id)
    ensures s.entries[id.key].generation != 0 && s.ttl > 0
  {
    InvEntry(s, id.key);
  }

  lemma WithheldIff(w: World, a: Action, v: World, n: nat)
    requires WorldInv(w) && WorldStep(w, a, v) && a.Act? && a.n == n && n in w.handlers
    requires w.handlers[n].pc == Beginning && Selected(v, n)
    ensures Withheld(v, v.handlers[n]) <==>
      var h := w.handlers[n];
      && h.setup.eligible && !h.cancelled
      && Live(w.store, h.id) && v.now < w.store.entries[h.id.key].expires
      && a.ev.Cache? && a.ev.op.Begin? && KeptFrom(w.store, h.id, h.setup.caller, a.ev.op.now)
  {
    hide WorldInv, Step, WorldStep, HandlerStep, LookupOk, KeptFrom, Live;
    FirstLook(w, a, v, n);
    StoreInv(w);
    SameLatch(w, a, v, n);
    if w.handlers[n].setup.eligible {
      WithholdsIff(w.store, a.ev.op, v.store);
    }
  }

  lemma SameLatch(w: World, a: Action, v: World, n: nat)
    requires WorldStep(w, a, v) && a.Act? && a.n == n && n in w.handlers && n in v.handlers
    ensures v.handlers[n].cancelled == w.handlers[n].cancelled
  {
    hide HandlerStep, CacheMoves;
    LatchStays(w.handlers[n], a.ev, a.next);
  }

  /** The branches by which Begin keeps a live credential for the time being: no room for a ticket, or none
      for a record although somebody else holds one; a caller with a record of its own is left out. */
  ghost predicate KeptForRoom(s: State, id: Identity, caller: string, now: int) {
    && !IsRetry(s, id, caller)
    && (|Unexpired(s.tickets, now)| >= MAX_TICKETS || (IsTracked(id) && |s.seen| >= MAX_CALLERS))
    && (IsTracked(id) && |s.seen| >= MAX_CALLERS ==> exists sk :: sk in s.seen && sk.caller != caller)
  }

  ghost predicate Kept(s: State, id: Identity, caller: string, now: int, attended: bool)
    requires id.key in s.entries
  {
    if attended then KeptForRoom(s, id, caller, now) else KeptFrom(s, id, caller, now)
  }

  lemma KeptIs(s: State, id: Identity, caller: string, now: int)
    requires id.key in s.entries
    ensures KeptForRoom(s, id, caller, now) <==> KeptFrom(s, id, caller, now) && RoomLater(s, id, caller)
  {
    hide AgentPIN;
  }

  /** A look that withholds a credential does not change whether there can be room later. */
  lemma SameRoom(s: State, op: Op, t: State)
    requires Inv(s) && op.Begin? && Step(s, op, t) && op.answer.generation == 0 && Live(t, op.id)
    ensures RoomLater(t, op.id, op.caller) <==> RoomLater(s, op.id, op.caller)
  {
    hide Inv, Step, Expired, HitAnswer, LeaseAnswer, AgentPIN;
    var m := BeginVia(s, op, t);
    ExpireSeen(s, op.now, m);
    if !TurnedAway(op.answer) {
      LeftRecord(m, op, t);
    }
  }

  lemma LeftRecord(m: State, op: Op, t: State)
    requires op.Begin? && !TurnedAway(op.answer) && op.answer.generation == 0 && Live(t, op.id) && Inv(m)
    requires if op.answer.reason == Hit then HitAnswer(m, op.id, op.caller, t, op.answer)
             else LeaseAnswer(m, op.id, op.caller, op.later, t, op.answer)
    ensures IsRetry(m, op.id, op.caller)
    ensures SeenKey(op.caller, op.id.key) in t.seen
  {
    InvEntries(m);
    hide AgentPIN, LeasedEntries, Inv;
  }

  lemma InvEntries(m: State)
    requires Inv(m)
    ensures forall k | k in m.entries :: m.entries[k].generation >= 1
  {
  }

  lemma NotRoomIsStuck(v: World, n: nat)
    requires n in v.handlers && v.handlers[n].candidate.generation == 0
    requires !RoomLater(v.store, v.handlers[n].id, v.handlers[n].setup.caller)
    ensures Stuck(v, n)
  {
    hide AgentPIN;
  }

  // ---------------------------------------------------------------- main results

  /** Some continuation of the selection comes to reject an untried credential. */
  ghost predicate CanMisdirect(v: World, n: nat, attended: bool) {
    exists u :: Reaches(v, n, u, attended) && Misdirected(u, n)
  }

  /** Some continuation of the selection has a later look that hits. */
  ghost predicate CanHitLater(v: World, n: nat, attended: bool) {
    exists u, b, x :: Reaches(v, n, u, attended) && LooksAndHits(u, b, x, n)
  }

  /** The first look is one whose request may use the cache and is not cancelled, and it keeps a usable
      credential from its caller. */
  ghost predicate WithheldByLook(w: World, a: Action, v: World, n: nat, attended: bool)
    requires a.Act? && n in w.handlers
  {
    var h := w.handlers[n];
    && h.setup.eligible && !h.cancelled
    && Live(w.store, h.id) && v.now < w.store.entries[h.id.key].expires
    && a.ev.Cache? && a.ev.op.Begin? && Kept(w.store, h.id, h.setup.caller, a.ev.op.now, attended)
  }

  lemma WithheldHere(w: World, a: Action, v: World, n: nat, attended: bool)
    requires WorldInv(w) && WorldStep(w, a, v) && a.Act? && a.n == n && n in w.handlers
    requires w.handlers[n].pc == Beginning && Selected(v, n)
    ensures WithheldByLook(w, a, v, n, attended) <==>
      && Withheld(v, v.handlers[n])
      && (attended ==> RoomLater(v.store, v.handlers[n].id, v.handlers[n].setup.caller))
  {
    hide WorldInv, Step, WorldStep, HandlerStep, LookupOk, KeptFrom, KeptForRoom, RoomLater;
    WithheldIff(w, a, v, n);
    FirstLook(w, a, v, n);
    StoreInv(w);
    var h := w.handlers[n];
    if attended && Withheld(v, v.handlers[n]) {
      SameRoom(w.store, a.ev.op, v.store);
    }
    if attended && Live(w.store, h.id) && a.ev.Cache? && a.ev.op.Begin? {
      KeptIs(w.store, h.id, h.setup.caller, a.ev.op.now);
    }
  }

  lemma Outcomes(w: World, a: Action, v: World, n: nat, attended: bool)
    requires WorldInv(w) && WorldStep(w, a, v) && a.Act? && a.n == n && n in w.handlers
    requires w.handlers[n].pc == Beginning && Selected(v, n)
    ensures CanMisdirect(v, n, attended) <==> WithheldByLook(w, a, v, n, attended)
    ensures CanHitLater(v, n, attended) <==> WithheldByLook(w, a, v, n, attended)
  {
    hide WorldInv, Step, WorldStep, HandlerStep, LookupOk, Misdirected, Reaches, JustLooked, Knows, Harmless, Stuck;
    hide WithheldByLook, RoomLater, LooksAndHits;
    WithheldHere(w, a, v, n, attended);
    FirstLook(w, a, v, n);
    WorldKeeps(w, a, v);
    StoreInv(v);
    if WithheldByLook(w, a, v, n, attended) {
      LivePositive(v.store, v.handlers[n].id);
      var u, b, x, y := WithheldIsRejected(v, n, attended);
    } else {
      if Withheld(v, v.handlers[n]) {
        NotRoomIsStuck(v, n);
      } else {
        GoodLook(w, a, v, n);
      }
      assert Safe(v, n, attended);
      hide Safe;
      NothingHappens(v, n, attended);
    }
  }

  lemma NothingHappens(v: World, n: nat, attended: bool)
    requires WorldInv(v) && Safe(v, n, attended)
    ensures !CanMisdirect(v, n, attended) && !CanHitLater(v, n, attended)
  {
    hide WorldInv, Safe, Reaches, Misdirected, LooksAndHits;
    forall u | Reaches(v, n, u, attended) ensures !Misdirected(u, n) {
      SafeForever(v, n, u, attended);
      SafeIsWellDirected(u, n, attended);
    }
    forall u, b, x | Reaches(v, n, u, attended) ensures !LooksAndHits(u, b, x, n) {
      SafeForever(v, n, u, attended);
      SafeNeverHits(u, b, x, n, attended);
    }
  }

  /** Right after the first look into the cache, some later refused PIN can make the request reject a
      credential it never tried exactly when it may use the cache, its user has not cancelled, and that
      look withheld a usable credential: with `attended`, as long as no sweep finds the caller of an
      unfinished request dead, for want of room that can still be made; without, also because the
      caller's record names another version. In every other case a refused PIN only ever rejects the
      version just tried. */
  lemma MisdirectedIff(w: World, a: Action, v: World, n: nat, attended: bool)
    requires WorldInv(w) && WorldStep(w, a, v) && a.Act? && a.n == n && n in w.handlers
    requires w.handlers[n].pc == Beginning && Selected(v, n)
    ensures CanMisdirect(v, n, attended) <==> WithheldByLook(w, a, v, n, attended)
  {
    hide *;
    Outcomes(w, a, v, n, attended);
  }

  /** Under the same condition, and only then, a later look of the selection can hit. */
  lemma LaterHitIff(w: World, a: Action, v: World, n: nat, attended: bool)
    requires WorldInv(w) && WorldStep(w, a, v) && a.Act? && a.n == n && n in w.handlers
    requires w.handlers[n].pc == Beginning && Selected(v, n)
    ensures CanHitLater(v, n, attended) <==> WithheldByLook(w, a, v, n, attended)
  {
    hide *;
    Outcomes(w, a, v, n, attended);
  }

  /** The same in every run of the service, for every first look of a verified request into the cache. */
  lemma MisdirectedInRunsIff(ws: seq<World>, acts: seq<Action>, j: nat, attended: bool)
    requires RunFromStart(ws, acts) && j < |acts| && acts[j].Act? && acts[j].n in ws[j].handlers
    requires ws[j].handlers[acts[j].n].pc == Beginning && Selected(ws[j + 1], acts[j].n)
    ensures CanMisdirect(ws[j + 1], acts[j].n, attended)
       <==> WithheldByLook(ws[j], acts[j], ws[j + 1], acts[j].n, attended)
    ensures CanHitLater(ws[j + 1], acts[j].n, attended)
       <==> WithheldByLook(ws[j], acts[j], ws[j + 1], acts[j].n, attended)
  {
    hide WorldInv, WorldStep, WithheldByLook, CanMisdirect, CanHitLater;
    WorldReachable(ws, acts, j);
    assert WorldStep(ws[j], acts[j], ws[j + 1]);
    Outcomes(ws[j], acts[j], ws[j + 1], acts[j].n, attended);
  }
}
