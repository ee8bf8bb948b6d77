/** One input request of the service as a step machine (Service.Handle, internal/service/service.go),
    and the world it shares with other requests, cache clients and the sweeper. */
module HandleModel {
  import opened Text
  import opened Askpass
  import opened CacheIdentity
  import opened CacheModel

  datatype Device = Device(path: string, connection: string)

  datatype Status = Accepted | Invalid | Blocked | TemporaryBlock | Unavailable

  /** One call of the device's PIN check. */
  datatype Trial = Trial(device: Device, value: seq<byte>, status: Status)

  /** Where a request stands between two of its shared actions. */
  datatype Pc =
    | WaitSlot | Selecting | Beginning | Top | CheckBefore | Rebegin | Probing | Dropping
    | Verifying | Judging | CheckAfter | Rejecting | Retrying | Failing | Vanished
    | Closing | Sending | Awaiting | Storing
    | Done(code: Option<nat>)

  /** What is fixed when the request reaches the cache code: `base` is the resolved identity. */
  datatype Setup = Setup(caller: string, base: Identity, verify: bool, eligible: bool)

  /** The locals of Handle. `found` is what the key resolves to after the delivery. `cached` records that the
      value is the one the cache handed out, `trial` the latest PIN check, `confirmed` that the version was
      current after it. */
  datatype Handler = Handler(
    setup: Setup,
    pc: Pc,
    id: Identity,
    device: Device,
    candidate: Lookup,
    value: seq<byte>,
    remember: bool,
    cancelled: bool,
    cached: bool,
    trial: Option<Trial>,
    confirmed: bool,
    found: Option<Identity>)

  const NO_DEVICE := Device("", "")
  const NO_LOOKUP := Lookup(0, [], 0, 0, Miss)

  function Bound(base: Identity, connection: string): Identity {
    base.(stamp := DeviceStamp(base.stamp, connection))
  }

  function Initial(setup: Setup): Handler {
    Handler(setup, if setup.verify then WaitSlot else Beginning, setup.base, NO_DEVICE, NO_LOOKUP,
            [], false, false, false, None, false, None)
  }

  /** What a step does outside the request itself. */
  datatype Event = Quiet | Cache(op: Op) | Check(trial: Trial)

  /** The label selectDevice. */
  function Restart(h: Handler): Handler {
    h.(pc := Selecting, id := h.setup.base, value := [], remember := false, cached := false)
  }

  predicate Refusal(s: Status) {
    s == Invalid || s == Blocked || s == TemporaryBlock
  }

  /** Ways to end early: with a result code, or silently when the connection or its context is gone. */
  predicate MayEnd(h: Handler, code: Option<nat>) {
    match h.pc
    case WaitSlot => code == None
    case Selecting => code == None || code == Some(1) || code == Some(2)
    case Top => code == None || (h.value == [] && (code == Some(1) || code == Some(2)))
    case Probing => code == None
    case Judging => code == if h.cancelled then Some(1) else None
    case Failing => code == Some(1) || code == Some(2)
    case Vanished => code == Some(1)
    case Closing => code == None || (h.cancelled && code == Some(1))
    case Sending => code == None
    case Awaiting => code == None
    case _ => false
  }

  ghost predicate SelectStep(h: Handler, next: Handler) {
    || next == h
    || exists d: Device :: d.connection != ""
         && next == h.(pc := Beginning, device := d, id := Bound(h.setup.base, d.connection))
  }

  ghost predicate BeginStep(h: Handler, ev: Event, next: Handler) {
    if h.setup.eligible then
      && ev.Cache? && ev.op.Begin? && ev.op.id == h.id && ev.op.caller == h.setup.caller
      && next == h.(pc := Top, candidate := ev.op.answer, value := ev.op.answer.secret,
                    cached := ev.op.answer.secret != [])
    else
      ev == Quiet && next == h.(pc := Top, candidate := NO_LOOKUP, value := [], cached := false)
  }

  ghost predicate TopStep(h: Handler, next: Handler) {
    var onward := if h.setup.verify then CheckBefore else Closing;
    if h.value != [] then next == h.(pc := onward)
    else
      || next == h
      || (h.setup.verify && next == Restart(h))
      || exists v: seq<byte> :: Validate(v)
           && next == h.(pc := onward, value := v, remember := next.remember, cached := false)
  }

  /** Whether the version used is still current; with no version there is nothing to ask. */
  ghost predicate VersionStep(h: Handler, ev: Event, next: Handler, onward: Handler) {
    if h.candidate.generation == 0 then ev == Quiet && next == onward
    else
      && ev.Cache? && ev.op.Current? && ev.op.id == h.id && ev.op.g == h.candidate.generation
      && next == if ev.op.ok then onward else h.(pc := Rebegin, value := [])
  }

  ghost predicate RejectStep(h: Handler, ev: Event) {
    if h.candidate.generation == 0 then ev == Quiet
    else ev == Cache(Reject(h.id, h.candidate.generation))
  }

  ghost predicate RebeginStep(h: Handler, ev: Event, next: Handler, pc: Pc) {
    && ev.Cache? && ev.op.Begin? && ev.op.id == h.id && ev.op.caller == h.setup.caller
    && next == h.(pc := pc, candidate := ev.op.answer)
  }

  ghost predicate RetryStep(h: Handler, ev: Event, next: Handler)
    requires h.trial.Some?
  {
    var pc := if h.trial.value.status == Invalid then Top else Failing;
    if h.setup.eligible then RebeginStep(h, ev, next, pc)
    else ev == Quiet && next == h.(pc := pc)
  }

  ghost predicate JudgeStep(h: Handler, next: Handler)
    requires h.trial.Some?
  {
    var status := h.trial.value.status;
    && !h.cancelled
    && next == if status == Accepted then h.(pc := CheckAfter)
               else h.(value := [], pc := if !Refusal(status) then Failing
                                          else if h.candidate.generation != 0 then Rejecting else Retrying)
  }

  /** The key still resolves to the identity the request works under, bound to its device if it has one. */
  predicate Unchanged(h: Handler) {
    h.found.Some? && h.id == if h.setup.verify then Bound(h.found.value, h.device.connection) else h.found.value
  }

  /** After delivery: keep the answer if asked to and the file still resolves to the same identity,
      forget the key if the user declined. */
  ghost predicate StoreStep(h: Handler, ev: Event, next: Handler) {
    && next == h.(pc := Done(Some(0)))
    && if h.candidate.token == 0 then ev == Quiet
       else if h.remember && h.value != [] then
         if !Unchanged(h) then ev == Quiet
         else && ev.Cache? && ev.op.Commit? && ev.op.token == h.candidate.token && ev.op.id == h.id
              && ev.op.caller == h.setup.caller && ev.op.secret == h.value
       else if !h.remember then ev == Cache(Forget(Some(h.id.key)))
       else ev == Quiet
  }

  predicate EndStep(h: Handler, ev: Event, next: Handler) {
    next.pc.Done? && ev == Quiet && MayEnd(h, next.pc.code) && next == h.(pc := next.pc)
  }

  /** The slot, the device, the first look into the cache, the dialog. */
  ghost predicate OpeningStep(h: Handler, ev: Event, next: Handler) {
    match h.pc
    case WaitSlot => ev == Quiet && next == Restart(h)
    case Selecting => ev == Quiet && SelectStep(h, next)
    case Beginning => BeginStep(h, ev, next)
    case Top => ev == Quiet && TopStep(h, next)
    case _ => false
  }

  /** Is the version current, is the device still there, try the PIN. */
  ghost predicate TryingStep(h: Handler, ev: Event, next: Handler) {
    match h.pc
    case CheckBefore => VersionStep(h, ev, next, h.(pc := Probing))
    case Rebegin => RebeginStep(h, ev, next, Top)
    case Probing => ev == Quiet && (next == h.(pc := Dropping) || next == h.(pc := Verifying))
    case Dropping => RejectStep(h, ev) && next == h.(pc := Vanished, value := [])
    case Verifying =>
      && ev.Check? && ev.trial.device == h.device && ev.trial.value == h.value
      && next == h.(pc := Judging, trial := Some(ev.trial), confirmed := false)
    case _ => false
  }

  /** What the device's verdict leads to. */
  ghost predicate VerdictStep(h: Handler, ev: Event, next: Handler) {
    match h.pc
    case Judging => h.trial.Some? && ev == Quiet && JudgeStep(h, next)
    case CheckAfter => VersionStep(h, ev, next, h.(pc := Closing, confirmed := true))
    case Rejecting => RejectStep(h, ev) && next == h.(pc := Retrying)
    case Retrying => h.trial.Some? && RetryStep(h, ev, next)
    case _ => false
  }

  /** Deliver, wait for the acknowledgment, store or forget. */
  ghost predicate DeliveryStep(h: Handler, ev: Event, next: Handler) {
    match h.pc
    case Closing => ev == Quiet && !h.cancelled && next == h.(pc := Sending)
    case Sending => ev == Quiet && next == h.(pc := Awaiting)
    case Awaiting => ev == Quiet && FileShown(next.found) && next == h.(pc := Storing, found := next.found)
    case Storing => StoreStep(h, ev, next)
    case _ => false
  }

  /** File metadata is printed without NUL. */
  predicate FileShown(found: Option<Identity>) {
    found.Some? ==> Plain(found.value.stamp)
  }

  ghost predicate HandlerStep(h: Handler, ev: Event, next: Handler) {
    || EndStep(h, ev, next)
    || OpeningStep(h, ev, next)
    || TryingStep(h, ev, next)
    || VerdictStep(h, ev, next)
    || DeliveryStep(h, ev, next)
  }

  /** The one-element hardware channel is held from the device selection to the return. */
  predicate Holds(h: Handler) {
    h.setup.verify && h.pc != WaitSlot && !h.pc.Done?
  }

  // ---------------------------------------------------------------- the shared world

  /** `verifying` tells whether the service verifies PINs; `accepted` records every (connection, bytes) a
      device has accepted so far. */
  datatype World = World(
    verifying: bool,
    store: State,
    now: int,
    handlers: map<nat, Handler>,
    slot: Option<nat>,
    accepted: set<(string, seq<byte>)>)

  datatype Action =
    | Arrive(n: nat, setup: Setup)
    | Act(n: nat, ev: Event, next: Handler)
    | CancelUI(n: nat)
    | Control(op: Op)

  function Start(verifying: bool, ttl: int, now: int): World {
    World(verifying, New(ttl), now, map[], None, {})
  }

  /** A request is verified if the service verifies and the prompt has the PIN title; of the keys that may
      be cached, those are the ones of kind pin. */
  predicate Arranged(verifying: bool, setup: Setup) {
    setup.eligible ==> (setup.verify <==> verifying && setup.base.key.kind == "pin")
  }

  function LastClock(op: Op): int
    requires Timed(op)
  {
    if op.Begin? || op.Commit? then op.later else op.now
  }

  /** An operation on the cache at a clock that never goes back. */
  ghost predicate CacheMoves(w: World, op: Op, store: State, now: int) {
    && Step(w.store, op, store)
    && if Timed(op) then w.now <= op.now && now == LastClock(op) else w.now == now
  }

  /** Version-1 clients begin and commit only for resolved identities; forgetting and sweeping are free. */
  predicate ControlOp(op: Op) {
    match op
    case Begin(id, _, _, _, _) => Plain(id.stamp)
    case Commit(_, id, _, _, _, _, _) => Plain(id.stamp)
    case Forget(_) => true
    case Sweep(_, _) => true
    case _ => false
  }

  function Learn(w: World, ev: Event): set<(string, seq<byte>)> {
    if ev.Check? && ev.trial.status == Accepted
    then w.accepted + {(ev.trial.device.connection, ev.trial.value)} else w.accepted
  }

  ghost predicate Effects(w: World, n: nat, ev: Event, next: Handler, v: World)
    requires n in w.handlers
  {
    var h := w.handlers[n];
    && v.verifying == w.verifying
    && v.handlers == w.handlers[n := next]
    && v.accepted == Learn(w, ev)
    && (Holds(next) && !Holds(h) ==> w.slot == None)
    && v.slot == (if Holds(next) then Some(n) else if Holds(h) then None else w.slot)
    && if ev.Cache? then CacheMoves(w, ev.op, v.store, v.now) else v.store == w.store && v.now == w.now
  }

  ghost predicate WorldStep(w: World, a: Action, v: World) {
    match a
    case Arrive(n, setup) =>
      && n !in w.handlers && Plain(setup.base.stamp) && Arranged(w.verifying, setup)
      && v == w.(handlers := w.handlers[n := Initial(setup)])
    case Act(n, ev, next) =>
      n in w.handlers && HandlerStep(w.handlers[n], ev, next) && Effects(w, n, ev, next, v)
    case CancelUI(n) =>
      n in w.handlers && v == w.(handlers := w.handlers[n := w.handlers[n].(cancelled := true)])
    case Control(op) =>
      ControlOp(op) && CacheMoves(w, op, v.store, v.now) && v == w.(store := v.store, now := v.now)
  }

  /** ws[i] becomes ws[i+1] by acts[i]. */
  ghost predicate WorldRun(ws: seq<World>, acts: seq<Action>) {
    |ws| == |acts| + 1 && forall i | 0 <= i < |acts| :: WorldStep(ws[i], acts[i], ws[i + 1])
  }

  ghost predicate RunFromStart(ws: seq<World>, acts: seq<Action>) {
    WorldRun(ws, acts) && ws[0] == Start(ws[0].verifying, ws[0].store.ttl, ws[0].now)
  }
}
