/** What a verified request may rely on while it holds the hardware slot. */
module HandleSlot {
  import opened Askpass
  import opened CacheIdentity
  import opened CacheModel
  import opened CacheInvariant
  import opened CacheHistory
  import opened HandleModel
  import opened HandleSafety

  // ---------------------------------------------------------------- reliance

  /** Nobody but the slot holder can put a live credential under the holder's device-bound identity. */
  lemma NobodyElseStores(w: World, a: Action, v: World, n: nat)
    requires WorldInv(w) && WorldStep(w, a, v) && n in w.handlers
    requires Holds(w.handlers[n]) && InSelection(w.handlers[n].pc) && !(a.Act? && a.n == n)
    ensures var id := w.handlers[n].id;
            Live(v.store, id) ==> Live(w.store, id) && v.store.entries[id.key] == w.store.entries[id.key]
  {
    hide Inv, HandlerStep, StoreBound, TrialOk, CandidateOk, AcceptedOk, VersionOk, Plain, DeviceStamp, Step;
    var h := w.handlers[n];
    match a {
      case Arrive(_, _) =>
      case CancelUI(_) =>
      case Act(m, ev, next) =>
        if ev.Cache? {
          CacheKeeps(w, ev.op, v.store, v.now);
          if ev.op.Commit? {
            CommitSource(w.handlers[m], ev, next);
            OthersIdentity(w.handlers[m], h);
          }
        }
      case Control(op) =>
        CacheKeeps(w, op, v.store, v.now);
        if op.Commit? {
          DeviceStampInjective(h.setup.base.stamp, h.device.connection, op.id.stamp, "");
        }
    }
  }

  /** An unverified request never uses a device-bound identity. */
  lemma OthersIdentity(m: Handler, h: Handler)
    requires IdentityOk(m) && IdentityOk(h) && h.setup.verify && InSelection(h.pc)
    ensures !m.setup.verify ==> m.id != h.id
  {
    hide Plain, DeviceStamp;
    DeviceStampInjective(h.setup.base.stamp, h.device.connection, m.setup.base.stamp, "");
  }

  // ---------------------------------------------------------------- one selection

  /** From moment 0 on, request n works on one device and identity, never going back to the selection. */
  ghost predicate OneSelection(ws: seq<World>, n: nat) {
    forall i | 0 <= i < |ws| :: Selected(ws[i], n)
  }

  /** Request n has looked into the cache for its device and still holds the slot. */
  predicate Selected(w: World, n: nat) {
    n in w.handlers && w.handlers[n].setup.verify && InSelection(w.handlers[n].pc)
  }

  /** The live credential under the request's identity that has not expired yet. */
  predicate Usable(w: World, id: Identity) {
    Live(w.store, id) && w.now < w.store.entries[id.key].expires
  }

  /** The request is about to reject, after a refused PIN, a live credential other than the bytes refused. */
  predicate Misdirected(w: World, n: nat) {
    n in w.handlers &&
    var h := w.handlers[n];
    && h.pc == Rejecting && h.trial.Some?
    && IsCurrent(w.store, h.id, h.candidate.generation)
    && w.store.entries[h.id.key].secret != h.trial.value.value
  }

  /** The value at hand, while there is one to try or to deliver. */
  predicate HasValue(pc: Pc) {
    pc == CheckBefore || pc == Probing || pc == Verifying || pc == Judging || pc == CheckAfter || Cleared(pc)
  }

  /** A handed-out value is what is tried, and what a pending rejection is about. */
  predicate UsesVersion(h: Handler) {
    h.candidate.generation != 0 ==>
      && h.cached
      && (HasValue(h.pc) || h.pc == Top ==> h.value == h.candidate.secret)
      && (h.pc == Rejecting ==> h.trial.Some? && h.trial.value.value == h.candidate.secret)
  }

  /** The request knows the usable credential, if there is one: it is the one it was handed. */
  ghost predicate Knows(w: World, h: Handler) {
    && UsesVersion(h)
    && (h.candidate.generation == 0 || h.pc == Rebegin || h.pc == Retrying ==> !Usable(w, h.id))
    && (h.candidate.generation != 0 && Usable(w, h.id) ==>
          w.store.entries[h.id.key].generation == h.candidate.generation)
  }

  lemma UsesTop(h: Handler, ev: Event, next: Handler)
    requires h.pc == Top && OpeningStep(h, ev, next) && InSelection(next.pc) && UsesVersion(h) && LookupOk(h.candidate)
    ensures UsesVersion(next)
  {
    hide Validate;
  }

  lemma UsesTrying(h: Handler, ev: Event, next: Handler)
    requires TryingStep(h, ev, next) && h.pc != Rebegin && UsesVersion(h)
    ensures UsesVersion(next)
  {
  }

  lemma UsesVerdict(h: Handler, ev: Event, next: Handler)
    requires VerdictStep(h, ev, next) && TrialOk(h) && UsesVersion(h) && SameVersion(h, next)
    requires h.pc == Retrying ==> h.candidate.generation == 0
    ensures UsesVersion(next)
  {
    hide Refusal;
  }

  lemma UsesDelivery(h: Handler, ev: Event, next: Handler)
    requires DeliveryStep(h, ev, next) && InSelection(next.pc) && UsesVersion(h)
    ensures UsesVersion(next)
  {
    hide StoreStep;
    if h.pc == Storing { StoreEnds(h, ev, next); }
  }

  /** Staying in the selection, a request keeps using the version it has. */
  lemma UsesKept(h: Handler, ev: Event, next: Handler)
    requires HandlerOk(h) && HandlerStep(h, ev, next) && InSelection(h.pc) && InSelection(next.pc)
    requires UsesVersion(h) && SameVersion(h, next)
    requires h.pc == Rebegin || h.pc == Retrying ==> next.candidate.generation == 0
    ensures UsesVersion(next)
  {
    if next.candidate.generation != 0 {
      hide EndStep, OpeningStep, TryingStep, VerdictStep, DeliveryStep, UsesVersion, IdentityOk, TrialOk, LookupOk;
      if EndStep(h, ev, next) { EndPc(h, ev, next); }
      else if OpeningStep(h, ev, next) { OpeningPc(h, ev, next); UsesTop(h, ev, next); }
      else if TryingStep(h, ev, next) { UsesTrying(h, ev, next); }
      else if VerdictStep(h, ev, next) { UsesVerdict(h, ev, next); }
      else { UsesDelivery(h, ev, next); }
    }
  }

  // ---------------------------------------------------------------- what is usable afterwards was usable before

  lemma NoNewUsable(w: World, a: Action, v: World, n: nat)
    requires WorldInv(w) && WorldStep(w, a, v) && Selected(w, n) && Selected(v, n)
    ensures v.handlers[n].id == w.handlers[n].id
    ensures var id := w.handlers[n].id;
            Usable(v, id) ==> Usable(w, id) && v.store.entries[id.key] == w.store.entries[id.key]
  {
    TimePasses(w, a, v);
    if a.Act? && a.n == n {
      OwnNoNew(w, a, v);
    } else {
      hide WorldInv, HandlerStep, Step;
      NobodyElseStores(w, a, v, n);
    }
  }

  lemma TimePasses(w: World, a: Action, v: World)
    requires WorldStep(w, a, v)
    ensures w.now <= v.now
  {
    hide HandlerStep, Step, Plain;
    if a.Act? && a.ev.Cache? { ClockMoves(w, a.ev.op, v); }
    if a.Control? { ClockMoves(w, a.op, v); }
  }

  lemma ClockMoves(w: World, op: Op, v: World)
    requires CacheMoves(w, op, v.store, v.now)
    ensures w.now <= v.now
  {
    hide Expired, BeginAfter, CommitAfter;
  }

  lemma OwnNoNew(w: World, a: Action, v: World)
    requires WorldInv(w) && a.Act? && WorldStep(w, a, v)
    requires Selected(w, a.n) && Selected(v, a.n)
    ensures v.handlers[a.n].id == w.handlers[a.n].id
    ensures NoNewSecrets(w.store, v.store)
  {
    hide Inv, HandlerStep, StoreBound, TrialOk, CandidateOk, AcceptedOk, VersionOk, Plain, Step, Bound, SlotOk;
    var h, next := w.handlers[a.n], a.next;
    VersionSource(h, a.ev, next);
    if a.ev.Cache? {
      CacheKeeps(w, a.ev.op, v.store, v.now);
      if a.ev.op.Commit? {
        CommitEnds(h, a.ev, next);
      }
    }
  }

  lemma CommitEnds(h: Handler, ev: Event, next: Handler)
    requires HandlerStep(h, ev, next) && ev.Cache?
    ensures ev.op.Commit? ==> next.pc.Done?
  {
  }

  // ---------------------------------------------------------------- knowing the usable credential

  /** A Begin cannot hit when nothing is usable. */
  lemma NothingToHit(w: World, op: Op, v: World, id: Identity)
    requires Inv(w.store) && CacheMoves(w, op, v.store, v.now) && op.Begin? && op.id == id && !Usable(w, id)
    ensures op.answer.generation == 0
  {
    hide Inv, Step;
    AnswerShape(w.store, op, v.store);
    if op.answer.secret != [] {
      HitFacts(w.store, op, v.store);
    }
  }

  /** A version found not current, or rejected, is not usable any more. */
  lemma NotCurrentAnyMore(w: World, op: Op, v: World, id: Identity, g: nat)
    requires Inv(w.store) && CacheMoves(w, op, v.store, v.now)
    requires (op.Current? && op.id == id && op.g == g && !op.ok) || op == Reject(id, g)
    requires Usable(w, id) ==> w.store.entries[id.key].generation == g
    requires Usable(v, id) ==> Usable(w, id) && v.store.entries[id.key] == w.store.entries[id.key]
    ensures !Usable(v, id)
  {
  }

  predicate FoundStale(h: Handler, ev: Event) {
    ev.Cache? &&
    (|| (ev.op.Current? && ev.op.id == h.id && ev.op.g == h.candidate.generation && !ev.op.ok)
     || ev.op == Reject(h.id, h.candidate.generation))
  }

  /** Rebegin and Retrying are entered with a version just found stale, or with none. */
  lemma IntoRebegin(h: Handler, ev: Event, next: Handler)
    requires HandlerStep(h, ev, next) && (next.pc == Rebegin || next.pc == Retrying)
    requires h.candidate.generation != 0
    ensures FoundStale(h, ev)
  {
    hide EndStep, OpeningStep, TryingStep, VerdictStep, DeliveryStep, FoundStale;
    if EndStep(h, ev, next) { EndPc(h, ev, next); }
    else if OpeningStep(h, ev, next) { OpeningPc(h, ev, next); }
    else if TryingStep(h, ev, next) { StaleTrying(h, ev, next); }
    else if VerdictStep(h, ev, next) { StaleVerdict(h, ev, next); }
    else { DeliveryPc(h, ev, next); }
  }

  lemma StaleTrying(h: Handler, ev: Event, next: Handler)
    requires TryingStep(h, ev, next) && (next.pc == Rebegin || next.pc == Retrying) && h.candidate.generation != 0
    ensures FoundStale(h, ev)
  {
  }

  lemma StaleVerdict(h: Handler, ev: Event, next: Handler)
    requires VerdictStep(h, ev, next) && (next.pc == Rebegin || next.pc == Retrying) && h.candidate.generation != 0
    ensures FoundStale(h, ev)
  {
    hide Refusal;
  }

  lemma OwnKnows(w: World, a: Action, v: World)
    requires WorldInv(w) && a.Act? && WorldStep(w, a, v) && Selected(w, a.n) && Selected(v, a.n)
    requires Knows(w, w.handlers[a.n])
    ensures Knows(v, v.handlers[a.n])
  {
    hide Inv, HandlerStep, StoreBound, SlotOk, VersionOk, AcceptedOk, HandlerOk, Step, UsesVersion, Usable, LookupOk;
    var h, ev, next := w.handlers[a.n], a.ev, a.next;
    VersionSource(h, ev, next);
    NoNewUsable(w, a, v, a.n);
    if JustBegan(ev, next) {
      BeganKnows(w, a, v);
    } else {
      assert SameVersion(h, next);
      NotBegun(h, ev, next);
      UsesKept(h, ev, next);
      if (next.pc == Rebegin || next.pc == Retrying) && h.candidate.generation != 0 {
        IntoRebegin(h, ev, next);
        StaleKnows(w, ev.op, v, h);
      }
    }
  }

  /** Leaving Rebegin or Retrying means a new Begin, unless there is nothing to ask for. */
  lemma NotBegun(h: Handler, ev: Event, next: Handler)
    requires HandlerOk(h) && HandlerStep(h, ev, next) && InSelection(h.pc) && InSelection(next.pc)
    requires !JustBegan(ev, next)
    ensures h.pc != Rebegin
    ensures h.pc == Retrying ==> next.candidate.generation == 0
  {
    if h.pc == Rebegin || h.pc == Retrying {
      hide Plain, Bound, Refusal, MayEnd;
    }
  }

  lemma StaleKnows(w: World, op: Op, v: World, h: Handler)
    requires Inv(w.store) && CacheMoves(w, op, v.store, v.now) && FoundStale(h, Cache(op))
    requires Usable(w, h.id) ==> w.store.entries[h.id.key].generation == h.candidate.generation
    requires Usable(v, h.id) ==> Usable(w, h.id) && v.store.entries[h.id.key] == w.store.entries[h.id.key]
    ensures !Usable(v, h.id)
  {
    hide Inv, Step, Usable;
    NotCurrentAnyMore(w, op, v, h.id, h.candidate.generation);
  }

  lemma BeganKnows(w: World, a: Action, v: World)
    requires WorldInv(w) && a.Act? && WorldStep(w, a, v) && Selected(w, a.n) && Selected(v, a.n)
    requires Knows(w, w.handlers[a.n]) && JustBegan(a.ev, a.next)
    requires a.next.id == w.handlers[a.n].id
    requires Usable(v, a.next.id) ==> Usable(w, a.next.id)
    ensures Knows(v, a.next)
  {
    hide Inv, StoreBound, SlotOk, VersionOk, AcceptedOk, HandlerOk, Step, Usable, LookupOk, HandlerStep;
    BeganWhere(w.handlers[a.n], a.ev, a.next);
    NothingToHit(w, a.ev.op, v, a.next.id);
  }

  lemma BeganWhere(h: Handler, ev: Event, next: Handler)
    requires HandlerStep(h, ev, next) && ev.Cache? && ev.op.Begin? && InSelection(h.pc)
    ensures (h.pc == Rebegin || h.pc == Retrying) && ev.op.id == h.id
  {
    hide Plain, Bound, Refusal, MayEnd;
  }

  /** Knowing is kept by every step of everyone. */
  lemma KnowsKept(w: World, a: Action, v: World, n: nat)
    requires WorldInv(w) && WorldStep(w, a, v) && Selected(w, n) && Selected(v, n)
    requires Knows(w, w.handlers[n])
    ensures Knows(v, v.handlers[n])
  {
    hide WorldInv, HandlerStep, Step, Usable, UsesVersion;
    if a.Act? && a.n == n {
      OwnKnows(w, a, v);
    } else {
      NoNewUsable(w, a, v, n);
      SameUses(w.handlers[n], v.handlers[n]);
    }
  }

  lemma SameUses(h: Handler, g: Handler)
    requires UsesVersion(h) && (g == h || g == h.(cancelled := true))
    ensures UsesVersion(g)
  {
  }

  // ---------------------------------------------------------------- never misdirected while it knows

  lemma {:induction false} KnowsAlong(ws: seq<World>, acts: seq<Action>, n: nat, j: nat)
    requires WorldRun(ws, acts) && WorldInv(ws[0]) && OneSelection(ws, n) && Knows(ws[0], ws[0].handlers[n]) && j < |ws|
    ensures WorldInv(ws[j]) && Knows(ws[j], ws[j].handlers[n])
  {
    hide WorldInv, WorldStep, Knows, Selected;
    if j > 0 {
      KnowsAlong(ws, acts, n, j - 1);
      WorldKeeps(ws[j - 1], acts[j - 1], ws[j]);
      assert Selected(ws[j - 1], n) && Selected(ws[j], n);
      KnowsKept(ws[j - 1], acts[j - 1], ws[j], n);
    }
  }

  /** While the request knows the usable credential, a rejection after a refused PIN can only erase the
      version whose bytes were just tried. */
  lemma KnowingIsWellDirected(w: World, n: nat)
    requires WorldInv(w) && Selected(w, n) && Knows(w, w.handlers[n])
    ensures !Misdirected(w, n)
  {
    hide Inv, StoreBound, SlotOk, AcceptedOk;
    var h := w.handlers[n];
    assert VersionOk(w.store, h) && TrialOk(h);
    hide HandlerOk;
  }

  /** While it knows, no later Begin of the selection hits. */
  lemma NoRebeginHits(ws: seq<World>, acts: seq<Action>, n: nat, j: nat)
    requires WorldRun(ws, acts) && WorldInv(ws[0]) && OneSelection(ws, n) && Knows(ws[0], ws[0].handlers[n])
    requires j < |acts| && acts[j].Act? && acts[j].n == n && acts[j].ev.Cache? && acts[j].ev.op.Begin?
    ensures acts[j].ev.op.answer.secret == [] && acts[j].ev.op.answer.generation == 0
  {
    hide WorldInv, HandlerStep, Step, Usable, UsesVersion;
    KnowsAlong(ws, acts, n, j);
    assert Selected(ws[j], n) && WorldStep(ws[j], acts[j], ws[j + 1]);
    BeganWhere(ws[j].handlers[n], acts[j].ev, acts[j].next);
    StoreInv(ws[j]);
    NothingToHit(ws[j], acts[j].ev.op, ws[j + 1], ws[j].handlers[n].id);
    AnswerShape(ws[j].store, acts[j].ev.op, ws[j + 1].store);
  }

  lemma StoreInv(w: World)
    requires WorldInv(w)
    ensures Inv(w.store) && DisabledEmpty(w.store)
  {
  }

  // ---------------------------------------------------------------- requests that cannot get there

  /** A request without a version that may not use the cache, or whose user has cancelled, never asks the
      cache again and never rejects anything. */
  predicate Harmless(h: Handler) {
    && h.candidate.generation == 0
    && (!h.setup.eligible || (h.cancelled && h.pc != Rejecting && h.pc != Retrying && h.pc != Rebegin))
  }

  lemma HarmlessStep(h: Handler, ev: Event, next: Handler)
    requires HandlerOk(h) && HandlerStep(h, ev, next) && InSelection(h.pc) && InSelection(next.pc) && Harmless(h)
    ensures Harmless(next)
  {
    hide EndStep, OpeningStep, TryingStep, VerdictStep, DeliveryStep, IdentityOk, TrialOk, LookupOk;
    VersionSource(h, ev, next);
    if ev.Cache? && ev.op.Begin? {
      BeganWhere(h, ev, next);
      BeginNeedsEligible(h, ev, next);
    }
    LatchStays(h, ev, next);
    if h.setup.eligible {
      if EndStep(h, ev, next) { EndPc(h, ev, next); }
      if OpeningStep(h, ev, next) { OpeningPc(h, ev, next); }
      if TryingStep(h, ev, next) { TryingWithout(h, ev, next); }
      if VerdictStep(h, ev, next) { CancelledVerdict(h, ev, next); }
      if DeliveryStep(h, ev, next) { DeliveryPc(h, ev, next); }
    }
  }

  lemma CancelledVerdict(h: Handler, ev: Event, next: Handler)
    requires VerdictStep(h, ev, next) && h.cancelled && h.pc != Rejecting && h.pc != Retrying
    requires h.candidate.generation == 0
    ensures next.pc != Rejecting && next.pc != Retrying && next.pc != Rebegin
  {
  }

  lemma TryingWithout(h: Handler, ev: Event, next: Handler)
    requires TryingStep(h, ev, next) && h.candidate.generation == 0 && h.pc != Rebegin
    ensures next.pc != Rebegin && next.pc != Rejecting && next.pc != Retrying
  {
  }

  lemma HarmlessLook(h: Handler, ev: Event, next: Handler)
    requires HandlerOk(h) && HandlerStep(h, ev, next) && InSelection(h.pc) && Harmless(h)
    ensures !(ev.Cache? && ev.op.Begin?)
  {
    hide HandlerStep, HandlerOk;
    if ev.Cache? && ev.op.Begin? {
      BeganWhere(h, ev, next);
      BeginNeedsEligible(h, ev, next);
    }
  }

  lemma LatchStays(h: Handler, ev: Event, next: Handler)
    requires HandlerStep(h, ev, next)
    ensures next.cancelled == h.cancelled
  {
    hide Plain, Bound, Refusal, MayEnd, Validate;
    if OpeningStep(h, ev, next) {
      hide EndStep, TryingStep, VerdictStep, DeliveryStep;
    } else if TryingStep(h, ev, next) {
      hide EndStep, VerdictStep, DeliveryStep;
    } else if VerdictStep(h, ev, next) {
      hide EndStep, DeliveryStep;
    }
  }

  lemma BeginNeedsEligible(h: Handler, ev: Event, next: Handler)
    requires HandlerOk(h) && HandlerStep(h, ev, next) && InSelection(h.pc) && ev.Cache? && ev.op.Begin?
    ensures h.setup.eligible
  {
    hide HandlerStep, IdentityOk, LookupOk;
    BeganWhere(h, ev, next);
    if h.pc == Retrying {
      RetryNeedsEligible(h, ev, next);
    }
  }

  lemma RetryNeedsEligible(h: Handler, ev: Event, next: Handler)
    requires HandlerStep(h, ev, next) && h.pc == Retrying && ev.Cache?
    ensures h.setup.eligible
  {
    hide Plain, Bound, Refusal, MayEnd, Validate;
  }

  lemma {:induction false} HarmlessAlong(ws: seq<World>, acts: seq<Action>, n: nat, j: nat)
    requires WorldRun(ws, acts) && WorldInv(ws[0]) && OneSelection(ws, n) && Harmless(ws[0].handlers[n]) && j < |ws|
    ensures WorldInv(ws[j]) && Harmless(ws[j].handlers[n])
  {
    hide WorldInv, Harmless, HandlerStep;
    if j > 0 {
      HarmlessAlong(ws, acts, n, j - 1);
      assert Selected(ws[j - 1], n) && Selected(ws[j], n) && WorldStep(ws[j - 1], acts[j - 1], ws[j]);
      WorldKeeps(ws[j - 1], acts[j - 1], ws[j]);
      OneOk(ws[j - 1], n);
      if acts[j - 1].Act? && acts[j - 1].n == n {
        HarmlessStep(ws[j - 1].handlers[n], acts[j - 1].ev, acts[j - 1].next);
      } else {
        HarmlessCancel(ws[j - 1].handlers[n]);
      }
    }
  }

  lemma OneOk(w: World, n: nat)
    requires WorldInv(w) && n in w.handlers
    ensures HandlerOk(w.handlers[n])
  {
  }

  lemma HarmlessCancel(h: Handler)
    requires Harmless(h)
    ensures Harmless(h.(cancelled := true))
  {
  }
}
