/** What lies behind a PIN the service sends: over any interleaving of requests. */
module HandleDelivery {
  import opened Text
  import opened Askpass
  import opened CacheIdentity
  import opened CacheModel
  import opened CacheInvariant
  import opened CacheHistory
  import opened HandleModel
  import opened HandleSafety

  // ---------------------------------------------------------------- one step back

  /** Which group of lines a step belongs to shows in where it leads. */
  lemma OnlyGroup(h: Handler, ev: Event, next: Handler)
    requires HandlerStep(h, ev, next)
    ensures next.pc == Sending ==> DeliveryStep(h, ev, next)
    ensures next.pc == Closing && next.setup.verify ==> VerdictStep(h, ev, next)
    ensures next.pc == CheckAfter ==> VerdictStep(h, ev, next)
    ensures next.pc in {Probing, Dropping, Verifying, Judging} ==> TryingStep(h, ev, next)
  {
    hide EndStep, OpeningStep, TryingStep, VerdictStep, DeliveryStep;
    if EndStep(h, ev, next) { EndPc(h, ev, next); }
    if OpeningStep(h, ev, next) { OpeningPc(h, ev, next); }
    if TryingStep(h, ev, next) { TryingPc(h, ev, next); }
    if VerdictStep(h, ev, next) { VerdictPc(h, ev, next); }
    if DeliveryStep(h, ev, next) { DeliveryPc(h, ev, next); }
  }

  lemma IntoSending(h: Handler, ev: Event, next: Handler)
    requires HandlerStep(h, ev, next) && next.pc == Sending
    ensures h.pc == Closing && !h.cancelled && next == h.(pc := Sending) && ev == Quiet
  {
    assert DeliveryStep(h, ev, next) by {
      hide EndStep, OpeningStep, TryingStep, VerdictStep, DeliveryStep;
      OnlyGroup(h, ev, next);
    }
    hide HandlerStep, StoreStep, MayEnd;
    if h.pc == Storing { StoreEnds(h, ev, next); }
  }

  lemma IntoClosing(h: Handler, ev: Event, next: Handler)
    requires HandlerStep(h, ev, next) && next.pc == Closing && next.setup.verify
    ensures h.pc == CheckAfter && !ev.Check? && next == h.(pc := Closing, confirmed := true)
    ensures h.candidate.generation != 0 ==>
              ev.Cache? && ev.op.Current? && ev.op.id == h.id && ev.op.g == h.candidate.generation && ev.op.ok
  {
    assert VerdictStep(h, ev, next) by {
      hide EndStep, OpeningStep, TryingStep, VerdictStep, DeliveryStep;
      OnlyGroup(h, ev, next);
    }
    hide HandlerStep, StoreStep, MayEnd;
  }

  lemma IntoCheckAfter(h: Handler, ev: Event, next: Handler)
    requires HandlerStep(h, ev, next) && next.pc == CheckAfter
    ensures h.pc == Judging && h.trial.Some? && h.trial.value.status == Accepted && !h.cancelled
    ensures next == h.(pc := CheckAfter) && ev == Quiet
  {
    assert VerdictStep(h, ev, next) by {
      hide EndStep, OpeningStep, TryingStep, VerdictStep, DeliveryStep;
      OnlyGroup(h, ev, next);
    }
    hide HandlerStep, StoreStep, MayEnd;
  }

  lemma IntoJudging(h: Handler, ev: Event, next: Handler)
    requires HandlerStep(h, ev, next) && next.pc == Judging
    ensures h.pc == Verifying && ev.Check? && ev.trial.device == h.device && ev.trial.value == h.value
    ensures next == h.(pc := Judging, trial := Some(ev.trial), confirmed := false)
  {
    assert TryingStep(h, ev, next) by {
      hide EndStep, OpeningStep, TryingStep, VerdictStep, DeliveryStep;
      OnlyGroup(h, ev, next);
    }
    hide HandlerStep, StoreStep, MayEnd;
  }

  /** The same request but for the cancellation latch. */
  predicate Same(h: Handler, g: Handler) {
    h == g.(cancelled := h.cancelled)
  }

  /** n's own step number i left it as it is (latch aside) at moment j. */
  ghost predicate LastStep(ws: seq<World>, acts: seq<Action>, i: nat, j: nat, n: nat)
    requires |ws| == |acts| + 1 && i < j < |ws|
  {
    && acts[i].Act? && acts[i].n == n && n in ws[i].handlers && n in ws[j].handlers
    && HandlerStep(ws[i].handlers[n], acts[i].ev, acts[i].next)
    && Same(ws[j].handlers[n], acts[i].next)
    && forall m | i < m < j :: !(acts[m].Act? && acts[m].n == n)
  }

  lemma {:induction false} Came(ws: seq<World>, acts: seq<Action>, j: nat, n: nat) returns (i: nat)
    requires RunFromStart(ws, acts) && j < |ws| && n in ws[j].handlers
    requires !Same(ws[j].handlers[n], Initial(ws[j].handlers[n].setup))
    ensures i < j && LastStep(ws, acts, i, j, n)
  {
    hide HandlerStep, CacheMoves, Plain;
    assert WorldStep(ws[j - 1], acts[j - 1], ws[j]);
    if acts[j - 1].Act? && acts[j - 1].n == n {
      i := j - 1;
    } else {
      i := Came(ws, acts, j - 1, n);
    }
  }

  // ---------------------------------------------------------------- the chain behind a delivery

  /** The steps of request n that led to its result at moment j: the device accepts, the version (if the
      bytes are the cache's) is confirmed afterwards, the last look at the user's cancellation finds none. */
  datatype Chain = Chain(tried: nat, confirmed: nat, cleared: nat)

  ghost predicate Behind(ws: seq<World>, acts: seq<Action>, c: Chain, j: nat, n: nat)
    requires |ws| == |acts| + 1 && j < |ws| && n in ws[j].handlers
  {
    var h := ws[j].handlers[n];
    && c.tried < c.confirmed < c.cleared < j
    && (forall m | c.tried < m < j && acts[m].Act? && acts[m].n == n :: !acts[m].ev.Check?)
    && acts[c.tried].Act? && acts[c.tried].n == n
    && acts[c.tried].ev == Check(Trial(h.device, h.value, Accepted))
    && n in ws[c.cleared].handlers && !ws[c.cleared].handlers[n].cancelled
    && n in ws[c.confirmed].handlers && ws[c.confirmed].handlers[n].pc == CheckAfter
    && ws[c.confirmed].handlers[n].id == h.id && ws[c.confirmed].handlers[n].candidate == h.candidate
    && (h.candidate.generation != 0 ==> ConfirmedAt(acts[c.confirmed], n, h.id, h.candidate.generation))
  }

  predicate ConfirmedAt(a: Action, n: nat, id: Identity, g: nat) {
    a.Act? && a.n == n && a.ev.Cache? && a.ev.op.Current? && a.ev.op.id == id && a.ev.op.g == g && a.ev.op.ok
  }

  /** The accepting device call and the confirmation behind a request that is past its last check. */
  ghost predicate Checked(ws: seq<World>, acts: seq<Action>, i: nat, m: nat, d: nat, n: nat)
    requires |ws| == |acts| + 1 && d < |ws| && n in ws[d].handlers
  {
    var h := ws[d].handlers[n];
    && i < m < d
    && (forall k | i < k < d && acts[k].Act? && acts[k].n == n :: !acts[k].ev.Check?)
    && acts[i].Act? && acts[i].n == n && acts[i].ev == Check(Trial(h.device, h.value, Accepted))
    && n in ws[m].handlers && ws[m].handlers[n].pc == CheckAfter
    && ws[m].handlers[n].id == h.id && ws[m].handlers[n].candidate == h.candidate
    && (h.candidate.generation != 0 ==> ConfirmedAt(acts[m], n, h.id, h.candidate.generation))
  }

  lemma FindCheck(ws: seq<World>, acts: seq<Action>, d: nat, n: nat) returns (i: nat, m: nat)
    requires RunFromStart(ws, acts) && d < |ws| && n in ws[d].handlers
    requires ws[d].handlers[n].pc == Closing && ws[d].handlers[n].setup.verify
    ensures Checked(ws, acts, i, m, d, n)
  {
    hide HandlerStep, WorldStep;
    m := Came(ws, acts, d, n);
    IntoClosing(ws[m].handlers[n], acts[m].ev, acts[m].next);
    var q := Came(ws, acts, m, n);
    IntoCheckAfter(ws[q].handlers[n], acts[q].ev, acts[q].next);
    i := Came(ws, acts, q, n);
    IntoJudging(ws[i].handlers[n], acts[i].ev, acts[i].next);
  }

  lemma FindChain(ws: seq<World>, acts: seq<Action>, j: nat, n: nat) returns (c: Chain)
    requires RunFromStart(ws, acts) && j < |ws| && n in ws[j].handlers
    requires ws[j].handlers[n].pc == Sending && ws[j].handlers[n].setup.verify
    ensures Behind(ws, acts, c, j, n)
  {
    hide HandlerStep, WorldStep;
    var d := Came(ws, acts, j, n);
    IntoSending(ws[d].handlers[n], acts[d].ev, acts[d].next);
    var i, m := FindCheck(ws, acts, d, n);
    c := Chain(i, m, d);
  }

  /** In verified mode a secret goes out only if the latest device call accepted exactly those bytes on the
      selected device, the user's last look at cancellation came after it and found none, and, when the
      bytes are the cache's, their version was confirmed after that call. */
  lemma DeliveredPinsWereVerified(ws: seq<World>, acts: seq<Action>, j: nat, n: nat)
    requires RunFromStart(ws, acts) && j < |ws| && n in ws[j].handlers
    requires ws[j].handlers[n].pc == Sending && ws[j].handlers[n].setup.verify
    ensures exists c :: Behind(ws, acts, c, j, n)
  {
    hide RunFromStart, Behind;
    var c := FindChain(ws, acts, j, n);
  }

  // ---------------------------------------------------------------- forgetting suppresses

  lemma {:induction false} StoreSince(ws: seq<World>, acts: seq<Action>, i: nat, j: nat, k: Key)
    requires RunFromStart(ws, acts) && i <= j < |ws|
    requires k in ws[j].store.entries && ws[j].store.entries[k].generation <= ws[i].store.seqno
    ensures k in ws[i].store.entries && ws[i].store.entries[k] == ws[j].store.entries[k]
    decreases j
  {
    hide WorldStep, WorldInv;
    if i < j {
      NumbersGrow(ws, acts, i, j - 1);
      WorldReachable(ws, acts, j - 1);
      WorldKeeps(ws[j - 1], acts[j - 1], ws[j]);
      StoreSince(ws, acts, i, j - 1, k);
    }
  }

  lemma {:induction false} NumbersGrow(ws: seq<World>, acts: seq<Action>, i: nat, j: nat)
    requires RunFromStart(ws, acts) && i <= j < |ws|
    ensures ws[i].store.seqno <= ws[j].store.seqno
    decreases j
  {
    hide WorldStep, WorldInv;
    if i < j {
      NumbersGrow(ws, acts, i, j - 1);
      WorldReachable(ws, acts, j - 1);
      WorldKeeps(ws[j - 1], acts[j - 1], ws[j]);
    }
  }

  /** A delivered cached PIN was, from the moment its version existed until the check after verification,
      in the cache all the time: any Forget, Reject or expiry finished before that check would have
      suppressed the answer. At the check it had not expired. */
  lemma ForgettingSuppresses(ws: seq<World>, acts: seq<Action>, c: Chain, j: nat, n: nat, p: nat)
    requires RunFromStart(ws, acts) && j < |ws| && n in ws[j].handlers && Behind(ws, acts, c, j, n)
    requires ws[j].handlers[n].pc == Sending && ws[j].handlers[n].candidate.generation != 0
    requires p <= c.confirmed && ws[j].handlers[n].candidate.generation <= ws[p].store.seqno
    ensures var h := ws[j].handlers[n];
            && IsCurrent(ws[p].store, h.id, h.candidate.generation)
            && acts[c.confirmed].ev.op.now < ws[p].store.entries[h.id.key].expires
            && (h.cached && h.value != [] ==> ws[p].store.entries[h.id.key].secret == h.value)
  {
    hide Inv, Step, HandlerStep, Plain, WorldInv;
    assert WorldStep(ws[c.confirmed], acts[c.confirmed], ws[c.confirmed + 1]);
    CurrentFacts(ws[c.confirmed].store, acts[c.confirmed].ev.op, ws[c.confirmed + 1].store);
    StoreSince(ws, acts, p, c.confirmed, ws[j].handlers[n].id.key);
    WorldReachable(ws, acts, c.confirmed);
    VersionBytes(ws[c.confirmed], n, ws[j].handlers[n].id.key);
    WorldReachable(ws, acts, j);
    CachedBytes(ws[j], n);
  }

  lemma VersionBytes(w: World, n: nat, k: Key)
    requires WorldInv(w) && n in w.handlers && w.handlers[n].pc == CheckAfter && w.handlers[n].candidate.generation != 0
    requires k in w.store.entries && w.store.entries[k].generation == w.handlers[n].candidate.generation
    ensures w.store.entries[k].secret == w.handlers[n].candidate.secret
  {
    hide Inv, HandlerOk, AcceptedOk, StoreBound, SlotOk;
  }

  lemma CachedBytes(w: World, n: nat)
    requires WorldInv(w) && n in w.handlers && w.handlers[n].pc == Sending
    ensures w.handlers[n].cached && w.handlers[n].value != [] ==>
              w.handlers[n].value == w.handlers[n].candidate.secret
  {
    hide Inv, VersionOk, AcceptedOk, StoreBound, SlotOk, TrialOk, IdentityOk;
  }

  /** What a request commits was typed in it, never handed out by the cache, and the user asked to keep it. */
  lemma CommittedPinsWereTyped(ws: seq<World>, acts: seq<Action>, j: nat)
    requires RunFromStart(ws, acts) && j < |acts|
    requires acts[j].Act? && acts[j].ev.Cache? && acts[j].ev.op.Commit?
    ensures acts[j].n in ws[j].handlers
    ensures var h := ws[j].handlers[acts[j].n];
            h.pc == Storing && !h.cached && h.remember && h.value == acts[j].ev.op.secret != []
  {
    hide HandlerStep, Effects, Inv, VersionOk, AcceptedOk, StoreBound, SlotOk, TrialOk, IdentityOk;
    WorldReachable(ws, acts, j);
    assert WorldStep(ws[j], acts[j], ws[j + 1]);
    CommitSource(ws[j].handlers[acts[j].n], acts[j].ev, acts[j].next);
  }
}
