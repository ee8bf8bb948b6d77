/** What a request does with the cache's and the user's answers, over any interleaving of requests. */
module HandleAnswers {
  import opened Text
  import opened Askpass
  import opened CacheIdentity
  import opened CacheModel
  import opened CacheInvariant
  import opened HandleModel
  import opened HandleSafety
  import opened HandleDelivery
  import opened HandleSlot
  import opened HandleVerdict

  // ---------------------------------------------------------------- rejections have a cause

  /** A request rejects a version only because a device has just refused the PIN, or because its device has gone. */
  lemma RejectionsHaveCause(ws: seq<World>, acts: seq<Action>, j: nat, n: nat)
    requires RunFromStart(ws, acts) && j < |acts| && Own(acts[j], n) && acts[j].ev.Cache? && acts[j].ev.op.Reject?
    ensures n in ws[j].handlers
    ensures var h := ws[j].handlers[n];
            && acts[j].ev.op == Reject(h.id, h.candidate.generation)
            && (h.pc == Dropping
                || (h.trial.Some? && h.trial.value.device == h.device
                    && h.trial.value.status in {Invalid, Blocked, TemporaryBlock}))
  {
    hide WorldStep, HandlerStep, HandlerOk, WorldInv;
    ActsInWorld(ws, acts, j, n);
    OneStep(ws, acts, j, n);
    WorldReachable(ws, acts, j);
    HandleVerdict.OneOk(ws[j], n);
    RejectCause(ws[j].handlers[n], acts[j].ev, acts[j].next);
  }

  lemma RejectCause(h: Handler, ev: Event, next: Handler)
    requires HandlerOk(h) && HandlerStep(h, ev, next) && ev.Cache? && ev.op.Reject?
    ensures ev.op == Reject(h.id, h.candidate.generation)
    ensures h.pc == Dropping
            || (h.trial.Some? && h.trial.value.device == h.device
                && h.trial.value.status in {Invalid, Blocked, TemporaryBlock})
  {
    hide Plain, Bound, MayEnd;
  }

  // ---------------------------------------------------------------- hits are used

  /** The request uses what the cache handed it in this answer. */
  predicate Using(h: Handler, r: Lookup) {
    h.candidate == r && (HasValue(h.pc) || h.pc == Top ==> h.value == r.secret)
    && (InSelection(h.pc) || h.pc.Done?)
  }

  lemma UsingStep(h: Handler, ev: Event, next: Handler, r: Lookup)
    requires HandlerOk(h) && HandlerStep(h, ev, next) && Using(h, r) && r.secret != [] && LookupOk(r)
    requires !(ev.Cache? && ev.op.Begin?)
    ensures Using(next, r)
  {
    hide EndStep, OpeningStep, TryingStep, VerdictStep, DeliveryStep, HandlerOk, LookupOk;
    if EndStep(h, ev, next) { UsingEnd(h, ev, next, r); }
    else if OpeningStep(h, ev, next) { UsingOpening(h, ev, next, r); }
    else if TryingStep(h, ev, next) { UsingTrying(h, ev, next, r); }
    else if VerdictStep(h, ev, next) {
      if h.pc == Retrying { HitIsEligible(h, r); }
      UsingVerdict(h, ev, next, r);
    }
    else { UsingDelivery(h, ev, next, r); }
  }

  lemma UsingEnd(h: Handler, ev: Event, next: Handler, r: Lookup)
    requires EndStep(h, ev, next) && Using(h, r)
    ensures Using(next, r)
  {
    hide MayEnd;
  }

  lemma UsingOpening(h: Handler, ev: Event, next: Handler, r: Lookup)
    requires OpeningStep(h, ev, next) && Using(h, r) && r.secret != []
    ensures Using(next, r)
  {
    hide Validate, Bound;
  }

  lemma UsingTrying(h: Handler, ev: Event, next: Handler, r: Lookup)
    requires TryingStep(h, ev, next) && Using(h, r) && !(ev.Cache? && ev.op.Begin?)
    ensures Using(next, r)
  {
    if h.pc == CheckBefore {
      hide RebeginStep, RejectStep;
    } else {
      hide VersionStep;
    }
  }

  lemma UsingVerdict(h: Handler, ev: Event, next: Handler, r: Lookup)
    requires VerdictStep(h, ev, next) && Using(h, r) && !(ev.Cache? && ev.op.Begin?)
    requires h.pc == Retrying ==> h.setup.eligible
    ensures Using(next, r)
  {
    hide Refusal;
  }

  lemma HitIsEligible(h: Handler, r: Lookup)
    requires HandlerOk(h) && Using(h, r) && r.secret != [] && h.pc == Retrying
    ensures h.setup.eligible
  {
    hide IdentityOk, TrialOk, LookupOk;
  }

  lemma UsingDelivery(h: Handler, ev: Event, next: Handler, r: Lookup)
    requires DeliveryStep(h, ev, next) && Using(h, r)
    ensures Using(next, r)
  {
    hide StoreStep;
    if h.pc == Storing { StoreEnds(h, ev, next); }
  }

  /** acts[j] is the first look of request n in a selection, and it hits. */
  ghost predicate FirstHit(ws: seq<World>, acts: seq<Action>, j: nat, n: nat)
    requires |ws| == |acts| + 1 && j < |acts|
  {
    && Own(acts[j], n) && n in ws[j].handlers && ws[j].handlers[n].pc == Beginning
    && acts[j].ev.Cache? && acts[j].ev.op.Begin? && acts[j].ev.op.answer.secret != []
  }

  ghost predicate NoLookSince(acts: seq<Action>, j: nat, l: nat, n: nat)
    requires l <= |acts|
  {
    forall m | j < m < l && Own(acts[m], n) :: !(acts[m].ev.Cache? && acts[m].ev.op.Begin?)
  }

  lemma {:induction false} StaysUsing(ws: seq<World>, acts: seq<Action>, j: nat, l: nat, n: nat)
    requires RunFromStart(ws, acts) && j < l <= |acts| && FirstHit(ws, acts, j, n) && NoLookSince(acts, j, l, n)
    ensures n in ws[l].handlers && Using(ws[l].handlers[n], acts[j].ev.op.answer)
    decreases l
  {
    hide WorldStep, HandlerStep, HandlerOk, WorldInv, Using, LookupOk;
    if l == j + 1 {
      OneStep(ws, acts, j, n);
      HitGives(ws[j].handlers[n], acts[j].ev, acts[j].next);
    } else {
      StaysUsing(ws, acts, j, l - 1, n);
      OneStep(ws, acts, l - 1, n);
      WorldReachable(ws, acts, l - 1);
      HandleVerdict.OneOk(ws[l - 1], n);
      AnswerOk(ws, acts, j, n);
      if Own(acts[l - 1], n) {
        UsingStep(ws[l - 1].handlers[n], acts[l - 1].ev, acts[l - 1].next, acts[j].ev.op.answer);
      } else {
        UsingSame(ws[l - 1].handlers[n], ws[l].handlers[n], acts[j].ev.op.answer);
      }
    }
  }

  lemma UsingSame(h: Handler, g: Handler, r: Lookup)
    requires Using(h, r) && Same(g, h)
    ensures Using(g, r)
  {
  }

  lemma HitGives(h: Handler, ev: Event, next: Handler)
    requires HandlerStep(h, ev, next) && h.pc == Beginning && ev.Cache? && ev.op.Begin?
    ensures Using(next, ev.op.answer)
  {
  }

  lemma AnswerOk(ws: seq<World>, acts: seq<Action>, j: nat, n: nat)
    requires RunFromStart(ws, acts) && j < |acts| && Own(acts[j], n) && acts[j].ev.Cache? && acts[j].ev.op.Begin?
    ensures LookupOk(acts[j].ev.op.answer)
  {
    hide WorldStep, WorldInv, Step, LookupOk;
    StepOf(ws, acts, j, n);
    WorldReachable(ws, acts, j);
    StoreInv(ws[j]);
    AnswerShape(ws[j].store, acts[j].ev.op, ws[j + 1].store);
  }

  /** What the first look of a selection hands out is what the request tries, and what it sends, until it looks
      again; its user is not asked. */
  lemma HitsAreUsed(ws: seq<World>, acts: seq<Action>, j: nat, l: nat, n: nat)
    requires RunFromStart(ws, acts) && j < l < |acts| && FirstHit(ws, acts, j, n) && NoLookSince(acts, j, l, n)
    requires Own(acts[l], n)
    ensures acts[l].ev.Check? ==> acts[l].ev.trial.value == acts[j].ev.op.answer.secret
    ensures acts[l].next.pc == Sending ==> acts[l].next.value == acts[j].ev.op.answer.secret
    ensures acts[l].next.pc != Selecting
  {
    hide WorldStep, HandlerStep;
    StaysUsing(ws, acts, j, l, n);
    OneStep(ws, acts, l, n);
    var h := ws[l].handlers[n];
    if acts[l].ev.Check? { Tried(h, acts[l].ev, acts[l].next); }
    if acts[l].next.pc == Sending { IntoSending(h, acts[l].ev, acts[l].next); }
    if acts[l].next.pc == Selecting { IntoSelecting(h, acts[l].ev, acts[l].next); }
  }

  lemma Tried(h: Handler, ev: Event, next: Handler)
    requires HandlerStep(h, ev, next) && ev.Check?
    ensures h.pc == Verifying && ev.trial.value == h.value && ev.trial.device == h.device
  {
  }

  lemma IntoSelecting(h: Handler, ev: Event, next: Handler)
    requires HandlerStep(h, ev, next) && next.pc == Selecting
    ensures h.pc == WaitSlot || h.pc == Selecting || (h.pc == Top && h.value == [])
  {
    hide EndStep, OpeningStep, TryingStep, VerdictStep, DeliveryStep;
    if EndStep(h, ev, next) { EndPc(h, ev, next); }
    else if OpeningStep(h, ev, next) { OpeningSelects(h, ev, next); }
    else if TryingStep(h, ev, next) { TryingPc(h, ev, next); }
    else if VerdictStep(h, ev, next) { VerdictPc(h, ev, next); }
    else { DeliveryPc(h, ev, next); }
  }

  lemma OpeningSelects(h: Handler, ev: Event, next: Handler)
    requires OpeningStep(h, ev, next) && next.pc == Selecting
    ensures h.pc == WaitSlot || h.pc == Selecting || (h.pc == Top && h.value == [])
  {
    hide Validate, Bound;
  }

  // ---------------------------------------------------------------- the cache is asked again

  /** The latest thing request n did with the cache before j is the look that answered r. */
  ghost predicate LatestLook(acts: seq<Action>, i: nat, j: nat, n: nat, id: Identity, r: Lookup) {
    && i < j <= |acts| && Own(acts[i], n) && acts[i].ev.Cache? && acts[i].ev.op.Begin?
    && acts[i].ev.op.id == id && acts[i].ev.op.answer == r
    && forall m | i < m < j && Own(acts[m], n) :: !acts[m].ev.Cache?
  }

  lemma IntoTop(h: Handler, ev: Event, next: Handler)
    requires HandlerOk(h) && HandlerStep(h, ev, next) && next.pc == Top && h.setup.eligible
    ensures (ev.Cache? && ev.op.Begin? && ev.op.id == next.id && ev.op.answer == next.candidate)
            || (h.pc == Top && next == h && ev == Quiet)
  {
    hide EndStep, OpeningStep, TryingStep, VerdictStep, DeliveryStep, HandlerOk;
    if EndStep(h, ev, next) { EndPc(h, ev, next); }
    else if OpeningStep(h, ev, next) { OpeningTop(h, ev, next); }
    else if TryingStep(h, ev, next) { TryingTop(h, ev, next); }
    else if VerdictStep(h, ev, next) { VerdictTop(h, ev, next); }
    else { DeliveryPc(h, ev, next); }
  }

  lemma OpeningTop(h: Handler, ev: Event, next: Handler)
    requires OpeningStep(h, ev, next) && next.pc == Top && h.setup.eligible
    ensures (ev.Cache? && ev.op.Begin? && ev.op.id == next.id && ev.op.answer == next.candidate)
            || (h.pc == Top && next == h && ev == Quiet)
  {
    hide Validate, Bound;
  }

  lemma TryingTop(h: Handler, ev: Event, next: Handler)
    requires TryingStep(h, ev, next) && next.pc == Top
    ensures ev.Cache? && ev.op.Begin? && ev.op.id == next.id && ev.op.answer == next.candidate
  {
  }

  lemma VerdictTop(h: Handler, ev: Event, next: Handler)
    requires VerdictStep(h, ev, next) && next.pc == Top && h.setup.eligible
    ensures ev.Cache? && ev.op.Begin? && ev.op.id == next.id && ev.op.answer == next.candidate
  {
    hide Refusal;
  }

  /** Whenever a request that may use the cache waits for a PIN, it has just asked the cache: the version or token
      it works with is the answer of its latest look, and it has done nothing with the cache since. */
  lemma {:induction false} AttemptsStartFromALook(ws: seq<World>, acts: seq<Action>, j: nat, n: nat) returns (i: nat)
    requires RunFromStart(ws, acts) && j < |ws| && n in ws[j].handlers
    requires ws[j].handlers[n].pc == Top && ws[j].handlers[n].setup.eligible
    ensures LatestLook(acts, i, j, n, ws[j].handlers[n].id, ws[j].handlers[n].candidate)
  {
    hide WorldStep, HandlerStep, HandlerOk, WorldInv;
    var l := Came(ws, acts, j, n);
    OneStep(ws, acts, l, n);
    WorldReachable(ws, acts, l);
    HandleVerdict.OneOk(ws[l], n);
    IntoTop(ws[l].handlers[n], acts[l].ev, acts[l].next);
    if acts[l].ev.Cache? {
      i := l;
    } else {
      i := AttemptsStartFromALook(ws, acts, l, n);
    }
  }

  // ---------------------------------------------------------------- who may use the cache and which device

  /** A request for a key that may not be cached never touches the cache. */
  lemma OnlyEligibleUseCache(ws: seq<World>, acts: seq<Action>, j: nat, n: nat)
    requires RunFromStart(ws, acts) && j < |acts| && Own(acts[j], n) && acts[j].ev.Cache?
    ensures n in ws[j].handlers && ws[j].handlers[n].setup.eligible
  {
    hide WorldStep, HandlerStep, HandlerOk, WorldInv;
    ActsInWorld(ws, acts, j, n);
    OneStep(ws, acts, j, n);
    WorldReachable(ws, acts, j);
    HandleVerdict.OneOk(ws[j], n);
    EligibleHere(ws[j].handlers[n], acts[j].ev, acts[j].next);
  }

  lemma EligibleHere(h: Handler, ev: Event, next: Handler)
    requires HandlerOk(h) && HandlerStep(h, ev, next) && ev.Cache?
    ensures h.setup.eligible
  {
    CandidateIs(h);
    hide HandlerOk, Validate, Bound, MayEnd, Refusal;
  }

  lemma CandidateIs(h: Handler)
    requires HandlerOk(h)
    ensures InSelection(h.pc) && (h.candidate.generation != 0 || h.candidate.token != 0) ==> h.setup.eligible
    ensures h.pc == Rebegin ==> h.candidate.generation != 0
  {
    hide IdentityOk;
  }

  /** The request has settled on a device whose connection is known. */
  predicate Connected(h: Handler) {
    h.setup.verify && (h.pc == Beginning || InSelection(h.pc)) ==> h.device.connection != ""
  }

  lemma ConnectedStep(h: Handler, ev: Event, next: Handler)
    requires HandlerStep(h, ev, next) && Connected(h)
    ensures Connected(next)
  {
    hide EndStep, OpeningStep, TryingStep, VerdictStep, DeliveryStep;
    VersionSource(h, ev, next);
    if EndStep(h, ev, next) { EndPc(h, ev, next); }
    else if OpeningStep(h, ev, next) { ConnectedOpening(h, ev, next); }
    else if TryingStep(h, ev, next) { TryingPc(h, ev, next); }
    else if VerdictStep(h, ev, next) { VerdictPc(h, ev, next); }
    else { DeliveryPc(h, ev, next); }
  }

  lemma ConnectedOpening(h: Handler, ev: Event, next: Handler)
    requires OpeningStep(h, ev, next) && Connected(h)
    ensures Connected(next)
  {
    hide Validate, Bound;
  }

  lemma {:induction false} AllConnected(ws: seq<World>, acts: seq<Action>, j: nat, n: nat)
    requires RunFromStart(ws, acts) && j < |ws| && n in ws[j].handlers
    ensures Connected(ws[j].handlers[n])
  {
    hide HandlerStep, CacheMoves, Plain, Arranged, Learn, Connected;
    if j > 0 {
      assert WorldStep(ws[j - 1], acts[j - 1], ws[j]);
      if n in ws[j - 1].handlers {
        AllConnected(ws, acts, j - 1, n);
        OneStep(ws, acts, j - 1, n);
        if Own(acts[j - 1], n) {
          ConnectedStep(ws[j - 1].handlers[n], acts[j - 1].ev, acts[j - 1].next);
        } else {
          ConnectedSame(ws[j - 1].handlers[n], ws[j].handlers[n]);
        }
      } else {
        InitialConnected(ws[j].handlers[n].setup);
      }
    }
  }

  lemma ConnectedSame(h: Handler, g: Handler)
    requires Connected(h) && Same(g, h)
    ensures Connected(g)
  {
  }

  lemma InitialConnected(setup: Setup)
    ensures Connected(Initial(setup))
  {
  }

  /** No PIN is ever tried on a device whose connection cannot be told. */
  lemma TriedDevicesAreKnown(ws: seq<World>, acts: seq<Action>, j: nat, n: nat)
    requires RunFromStart(ws, acts) && j < |acts| && Own(acts[j], n) && acts[j].ev.Check?
    ensures acts[j].ev.trial.device.connection != ""
  {
    hide WorldStep, HandlerStep;
    ActsInWorld(ws, acts, j, n);
    OneStep(ws, acts, j, n);
    AllConnected(ws, acts, j, n);
    Tried(ws[j].handlers[n], acts[j].ev, acts[j].next);
    VerifyingHolds(ws, acts, j, n);
  }

  // ---------------------------------------------------------------- keeping and forgetting

  lemma SavesAs(h: Handler, ev: Event, next: Handler)
    requires HandlerStep(h, ev, next) && h.pc == Storing
    ensures next.pc == Done(Some(0))
    ensures ev.Cache? && ev.op.Commit? <==> h.candidate.token != 0 && h.remember && h.value != [] && Unchanged(h)
    ensures ev.Cache? && ev.op.Forget? <==> h.candidate.token != 0 && !h.remember
    ensures ev.Cache? && ev.op.Forget? ==> ev.op.key == Some(h.id.key)
  {
    hide Unchanged;
  }

  /** The identity found again is the one the request set out with. */
  lemma UnchangedIs(h: Handler)
    requires IdentityOk(h) && h.pc == Storing && FileShown(h.found)
    ensures Unchanged(h) <==> h.found == Some(h.setup.base)
  {
    hide DeviceStamp;
    if h.found.Some? && h.setup.verify {
      DeviceStampInjective(h.setup.base.stamp, h.device.connection, h.found.value.stamp, h.device.connection);
    }
  }

  lemma ShownStep(ws: seq<World>, acts: seq<Action>, j: nat, n: nat)
    requires RunFromStart(ws, acts) && j < |ws| && n in ws[j].handlers && ws[j].handlers[n].pc == Storing
    ensures FileShown(ws[j].handlers[n].found)
  {
    hide WorldStep, HandlerStep, Plain;
    var l := Came(ws, acts, j, n);
    OneStep(ws, acts, l, n);
    IntoStoring(ws[l].handlers[n], acts[l].ev, acts[l].next);
  }

  lemma IntoStoring(h: Handler, ev: Event, next: Handler)
    requires HandlerStep(h, ev, next) && next.pc == Storing
    ensures FileShown(next.found)
  {
    hide EndStep, OpeningStep, TryingStep, VerdictStep, DeliveryStep, Plain;
    if EndStep(h, ev, next) { EndPc(h, ev, next); }
    else if OpeningStep(h, ev, next) { OpeningPc(h, ev, next); }
    else if TryingStep(h, ev, next) { TryingPc(h, ev, next); }
    else if VerdictStep(h, ev, next) { VerdictPc(h, ev, next); }
    else { StoringShown(h, ev, next); }
  }

  lemma StoringShown(h: Handler, ev: Event, next: Handler)
    requires DeliveryStep(h, ev, next) && next.pc == Storing
    ensures FileShown(next.found)
  {
    hide StoreStep, Plain;
    if h.pc == Storing { StoreEnds(h, ev, next); }
  }

  /** After the delivery an answer is offered to the cache if and only if the request holds a token, its user asked
      to keep it, it is not empty, and the key resolves to the very identity it did at the start. */
  lemma KeptIff(ws: seq<World>, acts: seq<Action>, j: nat, n: nat)
    requires RunFromStart(ws, acts) && j < |acts| && Own(acts[j], n)
    requires n in ws[j].handlers && ws[j].handlers[n].pc == Storing
    ensures var h := ws[j].handlers[n];
            acts[j].ev.Cache? && acts[j].ev.op.Commit? <==>
              h.candidate.token != 0 && h.remember && h.value != [] && h.found == Some(h.setup.base)
  {
    hide WorldStep, HandlerStep, WorldInv, TrialOk, CandidateOk, IdentityOk, FileShown;
    OneStep(ws, acts, j, n);
    WorldReachable(ws, acts, j);
    HandleVerdict.OneOk(ws[j], n);
    ShownStep(ws, acts, j, n);
    SavesAs(ws[j].handlers[n], acts[j].ev, acts[j].next);
    UnchangedIs(ws[j].handlers[n]);
  }

  /** If its user declined to keep it, nothing of the key is left in the cache. */
  lemma DeclinedIsForgotten(ws: seq<World>, acts: seq<Action>, j: nat, n: nat)
    requires RunFromStart(ws, acts) && j < |acts| && Own(acts[j], n)
    requires n in ws[j].handlers && ws[j].handlers[n].pc == Storing
    requires ws[j].handlers[n].candidate.token != 0 && !ws[j].handlers[n].remember
    ensures var k, s := ws[j].handlers[n].id.key, ws[j + 1].store;
            k !in s.entries && forall tok | tok in s.tickets :: s.tickets[tok].identity.key != k
  {
    hide WorldStep, HandlerStep;
    OneStep(ws, acts, j, n);
    SavesAs(ws[j].handlers[n], acts[j].ev, acts[j].next);
    StepOf(ws, acts, j, n);
  }

  // ---------------------------------------------------------------- after the verdict

  /** After a refusal the user is asked again if the PIN was wrong, and shown an error if it is blocked. */
  lemma OnlyWrongPinsAreAskedAgain(ws: seq<World>, acts: seq<Action>, j: nat, n: nat)
    requires RunFromStart(ws, acts) && j < |acts| && Own(acts[j], n)
    requires n in ws[j].handlers && ws[j].handlers[n].pc == Retrying
    ensures ws[j].handlers[n].trial.Some?
    ensures acts[j].next.pc == Top <==> ws[j].handlers[n].trial.value.status == Invalid
    ensures acts[j].next.pc == Failing <==> ws[j].handlers[n].trial.value.status in {Blocked, TemporaryBlock}
  {
    hide WorldStep, HandlerStep, HandlerOk, WorldInv;
    OneStep(ws, acts, j, n);
    WorldReachable(ws, acts, j);
    HandleVerdict.OneOk(ws[j], n);
    RetryingLeads(ws[j].handlers[n], acts[j].ev, acts[j].next);
  }

  lemma RetryingLeads(h: Handler, ev: Event, next: Handler)
    requires HandlerOk(h) && HandlerStep(h, ev, next) && h.pc == Retrying
    ensures h.trial.Some?
    ensures next.pc == Top <==> h.trial.value.status == Invalid
    ensures next.pc == Failing <==> h.trial.value.status in {Blocked, TemporaryBlock}
  {
    hide IdentityOk, CandidateOk;
  }
}
