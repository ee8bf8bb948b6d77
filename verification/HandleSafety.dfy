/** What every step of the concurrent service keeps, and what a delivered or stored PIN has gone through. */
module HandleSafety {
  import opened Text
  import opened Askpass
  import opened CacheIdentity
  import opened CacheModel
  import opened CacheInvariant
  import opened CacheHistory
  import opened HandleModel

  /** The request has a device (if it needs one) and has looked into the cache. */
  predicate InSelection(pc: Pc) {
    pc != WaitSlot && pc != Selecting && pc != Beginning && !pc.Done?
  }

  /** Past the last check; the answer is on its way out or delivered. */
  predicate Cleared(pc: Pc) {
    pc == Closing || pc == Sending || pc == Awaiting || pc == Storing
  }

  predicate LookupOk(r: Lookup) {
    (r.generation != 0 <==> r.secret != []) && (r.generation != 0 ==> r.token == 0)
  }

  predicate IdentityOk(h: Handler) {
    && Plain(h.setup.base.stamp)
    && (h.setup.verify && (InSelection(h.pc) || h.pc == Beginning) ==> h.id == Bound(h.setup.base, h.device.connection))
    && (!h.setup.verify ==>
          h.id == h.setup.base && (h.pc == Beginning || h.pc == Top || Cleared(h.pc) || h.pc.Done?))
  }

  predicate TrialOk(h: Handler) {
    && (h.pc == Judging ==> h.trial.Some? && h.trial.value.device == h.device && h.trial.value.value == h.value)
    && (h.setup.verify && (h.pc == CheckAfter || Cleared(h.pc)) ==> h.trial == Some(Trial(h.device, h.value, Accepted)))
    && (h.setup.verify && Cleared(h.pc) && h.candidate.generation != 0 ==> h.confirmed)
    && (h.pc == Rejecting || h.pc == Retrying ==>
          h.value == [] && h.trial.Some? && Refusal(h.trial.value.status) && h.trial.value.device == h.device)
    && (h.pc == Rejecting ==> h.candidate.generation != 0)
    && (h.pc == Rebegin ==> h.value == [] && h.candidate.generation != 0)
  }

  predicate CandidateOk(h: Handler) {
    && LookupOk(h.candidate)
    && (InSelection(h.pc) && h.candidate != NO_LOOKUP ==> h.setup.eligible)
    && (InSelection(h.pc) && h.cached && h.value != [] ==> h.value == h.candidate.secret)
  }

  predicate HandlerOk(h: Handler) {
    IdentityOk(h) && TrialOk(h) && CandidateOk(h)
  }

  /** The version a request was handed still stands for the same bytes under the same identity,
      wherever it still exists. */
  ghost predicate VersionOk(s: State, h: Handler) {
    InSelection(h.pc) && h.candidate.generation != 0 ==>
      && h.candidate.generation <= s.seqno
      && forall k | k in s.entries && s.entries[k].generation == h.candidate.generation ::
           k == h.id.key && s.entries[k].identity == h.id && s.entries[k].secret == h.candidate.secret
  }

  /** A device with this connection has accepted these bytes. */
  predicate Proven(w: World, connection: string, value: seq<byte>) {
    (connection, value) in w.accepted
  }

  predicate AcceptedOk(w: World, h: Handler) {
    && (h.trial.Some? && h.trial.value.status == Accepted ==>
          Proven(w, h.trial.value.device.connection, h.trial.value.value))
    && (h.setup.verify && InSelection(h.pc) && h.candidate.generation != 0 ==>
          Proven(w, h.device.connection, h.candidate.secret))
  }

  /** Every live credential bound to a device connection was accepted over that connection. */
  ghost predicate StoreBound(w: World) {
    forall k, b, c | k in w.store.entries && w.store.entries[k].secret != [] && Plain(b)
                     && w.store.entries[k].identity.stamp == DeviceStamp(b, c) ::
      Proven(w, c, w.store.entries[k].secret)
  }

  ghost predicate SlotOk(w: World) {
    && (w.slot.Some? ==> w.slot.value in w.handlers)
    && (forall n | n in w.handlers :: Holds(w.handlers[n]) <==> w.slot == Some(n))
  }

  /** A store with lifetime zero never holds anything. */
  predicate DisabledEmpty(s: State) {
    s.ttl <= 0 ==> s.entries == map[] && s.tickets == map[]
  }

  ghost predicate HandlersOk(w: World) {
    forall n | n in w.handlers ::
      HandlerOk(w.handlers[n]) && VersionOk(w.store, w.handlers[n]) && AcceptedOk(w, w.handlers[n])
  }

  /** Requests are verified as the service is set up. */
  predicate SetupsOk(w: World) {
    forall n | n in w.handlers :: Arranged(w.verifying, w.handlers[n].setup)
  }

  ghost predicate WorldInv(w: World) {
    Inv(w.store) && DisabledEmpty(w.store) && SlotOk(w) && StoreBound(w) && HandlersOk(w) && SetupsOk(w)
  }

  // ---------------------------------------------------------------- one request

  lemma AnswerShape(s: State, op: Op, t: State)
    requires Inv(s) && op.Begin? && Step(s, op, t)
    ensures LookupOk(op.answer)
  {
    hide Inv, Step, Expired, LeasedEntries, IsRetry, IsTracked;
    var m := BeginVia(s, op, t);
    if op.answer.reason == Hit {
      InvEntry(m, op.id.key);
    }
  }

  /** What the cache may have answered in this event. */
  predicate EventOk(ev: Event) {
    ev.Cache? && ev.op.Begin? ==> LookupOk(ev.op.answer)
  }

  lemma EndKeeps(h: Handler, ev: Event, next: Handler)
    requires HandlerOk(h) && EndStep(h, ev, next)
    ensures HandlerOk(next)
  {
    hide Plain, MayEnd;
  }

  lemma SelectingKeeps(h: Handler, ev: Event, next: Handler)
    requires HandlerOk(h) && OpeningStep(h, ev, next) && EventOk(ev)
    requires h.pc == WaitSlot || h.pc == Selecting
    ensures HandlerOk(next)
  {
    hide Plain, Refusal, DeviceStamp, LookupOk, EventOk;
  }

  lemma BeginningKeeps(h: Handler, ev: Event, next: Handler)
    requires HandlerOk(h) && OpeningStep(h, ev, next) && EventOk(ev)
    requires h.pc == Beginning
    ensures HandlerOk(next)
  {
    hide Plain, Refusal, DeviceStamp;
  }

  lemma TopKeeps(h: Handler, ev: Event, next: Handler)
    requires HandlerOk(h) && OpeningStep(h, ev, next) && EventOk(ev)
    requires h.pc == Top
    ensures HandlerOk(next)
  {
    TopIdentity(h, ev, next);
    TopTrial(h, ev, next);
    TopCandidate(h, ev, next);
    hide IdentityOk, TrialOk, CandidateOk, OpeningStep;
  }

  lemma TopIdentity(h: Handler, ev: Event, next: Handler)
    requires IdentityOk(h) && OpeningStep(h, ev, next) && h.pc == Top
    ensures IdentityOk(next)
  {
    hide Plain, Refusal, DeviceStamp, Validate;
  }

  lemma TopTrial(h: Handler, ev: Event, next: Handler)
    requires h.pc == Top && OpeningStep(h, ev, next) && (h.setup.verify || IdentityOk(h))
    ensures TrialOk(next)
  {
    hide Plain, Refusal, DeviceStamp, LookupOk, Validate, Bound, IdentityOk;
  }

  lemma TopCandidate(h: Handler, ev: Event, next: Handler)
    requires CandidateOk(h) && OpeningStep(h, ev, next) && h.pc == Top
    ensures CandidateOk(next)
  {
    hide Plain, Refusal, DeviceStamp, LookupOk, Validate, Bound;
  }

  lemma CheckBeforeKeeps(h: Handler, ev: Event, next: Handler)
    requires HandlerOk(h) && TryingStep(h, ev, next) && EventOk(ev)
    requires h.pc == CheckBefore || h.pc == Rebegin
    ensures HandlerOk(next)
  {
    hide Plain, Refusal, Bound;
  }

  lemma ProbingKeeps(h: Handler, ev: Event, next: Handler)
    requires HandlerOk(h) && TryingStep(h, ev, next) && EventOk(ev)
    requires h.pc == Probing || h.pc == Dropping
    ensures HandlerOk(next)
  {
    hide Plain, Refusal, Bound, LookupOk, EventOk;
  }

  lemma VerifyingKeeps(h: Handler, ev: Event, next: Handler)
    requires HandlerOk(h) && TryingStep(h, ev, next) && EventOk(ev)
    requires h.pc == Verifying
    ensures HandlerOk(next)
  {
    hide Plain, Refusal, Bound, LookupOk, EventOk;
  }

  lemma JudgingKeeps(h: Handler, ev: Event, next: Handler)
    requires HandlerOk(h) && VerdictStep(h, ev, next) && EventOk(ev)
    requires h.pc == Judging
    ensures HandlerOk(next)
  {
    hide Plain, Bound, LookupOk, EventOk;
  }

  lemma CheckAfterKeeps(h: Handler, ev: Event, next: Handler)
    requires HandlerOk(h) && VerdictStep(h, ev, next) && EventOk(ev)
    requires h.pc == CheckAfter || h.pc == Rejecting
    ensures HandlerOk(next)
  {
    hide Plain, Bound, LookupOk, EventOk, Refusal;
  }

  lemma RetryingKeeps(h: Handler, ev: Event, next: Handler)
    requires HandlerOk(h) && VerdictStep(h, ev, next) && EventOk(ev)
    requires h.pc == Retrying
    ensures HandlerOk(next)
  {
    hide Plain, Bound;
  }

  lemma DeliveryKeeps(h: Handler, ev: Event, next: Handler)
    requires HandlerOk(h) && DeliveryStep(h, ev, next)
    ensures HandlerOk(next)
  {
    hide Plain, Bound, StoreStep;
    if h.pc == Storing {
      StoreEnds(h, ev, next);
    }
  }

  lemma StoreEnds(h: Handler, ev: Event, next: Handler)
    requires StoreStep(h, ev, next)
    ensures next == h.(pc := Done(Some(0)))
  {
  }

  /** A request keeps its own invariant, whatever the user, the device and the cache answer. */
  lemma HandlerKeeps(h: Handler, ev: Event, next: Handler)
    requires HandlerOk(h) && HandlerStep(h, ev, next) && EventOk(ev)
    ensures HandlerOk(next)
  {
    hide HandlerOk, EventOk, EndStep, OpeningStep, TryingStep, VerdictStep, DeliveryStep;
    if EndStep(h, ev, next) {
      EndKeeps(h, ev, next);
    } else if OpeningStep(h, ev, next) {
      OpeningPc(h, ev, next);
      match h.pc
      case Beginning => BeginningKeeps(h, ev, next);
      case Top => TopKeeps(h, ev, next);
      case _ => SelectingKeeps(h, ev, next);
    } else if TryingStep(h, ev, next) {
      TryingPc(h, ev, next);
      match h.pc
      case Verifying => VerifyingKeeps(h, ev, next);
      case CheckBefore => CheckBeforeKeeps(h, ev, next);
      case Rebegin => CheckBeforeKeeps(h, ev, next);
      case _ => ProbingKeeps(h, ev, next);
    } else if VerdictStep(h, ev, next) {
      VerdictPc(h, ev, next);
      match h.pc
      case Judging => JudgingKeeps(h, ev, next);
      case Retrying => RetryingKeeps(h, ev, next);
      case _ => CheckAfterKeeps(h, ev, next);
    } else {
      DeliveryKeeps(h, ev, next);
    }
  }

  predicate JustBegan(ev: Event, next: Handler) {
    ev.Cache? && ev.op.Begin? && ev.op.id == next.id && next.candidate == ev.op.answer
  }

  predicate SameVersion(h: Handler, next: Handler) {
    InSelection(h.pc) && next.candidate == h.candidate && next.id == h.id
  }

  /** Within a selection the version is the one just asked for, or the same as before. */
  predicate VersionFrom(h: Handler, ev: Event, next: Handler) {
    InSelection(next.pc) ==>
      && next.device == h.device && next.id == h.id
      && (|| JustBegan(ev, next) || SameVersion(h, next)
          || (h.pc == Beginning && next.candidate == NO_LOOKUP))
  }

  lemma OpeningPc(h: Handler, ev: Event, next: Handler)
    requires OpeningStep(h, ev, next)
    ensures h.pc == WaitSlot || h.pc == Selecting || h.pc == Beginning || h.pc == Top
    ensures next.pc == Selecting || next.pc == Beginning || next.pc == Top
            || next.pc == if h.setup.verify then CheckBefore else Closing
    ensures next.setup == h.setup && VersionFrom(h, ev, next)
  {
    hide Validate, Bound, IsTracked, Plain;
  }

  lemma TryingPc(h: Handler, ev: Event, next: Handler)
    requires TryingStep(h, ev, next)
    ensures h.pc == CheckBefore || h.pc == Rebegin || h.pc == Probing || h.pc == Dropping || h.pc == Verifying
    ensures next.pc == Probing || next.pc == Rebegin || next.pc == Top || next.pc == Dropping
            || next.pc == Verifying || next.pc == Vanished || next.pc == Judging
    ensures next.setup == h.setup && VersionFrom(h, ev, next)
  {
  }

  lemma VerdictPc(h: Handler, ev: Event, next: Handler)
    requires VerdictStep(h, ev, next)
    ensures h.pc == Judging || h.pc == CheckAfter || h.pc == Rejecting || h.pc == Retrying
    ensures next.pc == CheckAfter || next.pc == Failing || next.pc == Rejecting || next.pc == Retrying
            || next.pc == Closing || next.pc == Rebegin || next.pc == Top
    ensures next.setup == h.setup && VersionFrom(h, ev, next)
  {
    hide Refusal;
  }

  lemma DeliveryPc(h: Handler, ev: Event, next: Handler)
    requires DeliveryStep(h, ev, next)
    ensures Cleared(h.pc) && next.setup == h.setup && VersionFrom(h, ev, next)
    ensures next.pc == Sending || next.pc == Awaiting || next.pc == Storing || next.pc.Done?
  {
    hide StoreStep;
    if h.pc == Storing {
      StoreEnds(h, ev, next);
    }
  }

  lemma VersionSource(h: Handler, ev: Event, next: Handler)
    requires HandlerStep(h, ev, next)
    ensures next.setup == h.setup && VersionFrom(h, ev, next)
  {
    hide VersionFrom, EndStep, OpeningStep, TryingStep, VerdictStep, DeliveryStep;
    if EndStep(h, ev, next) { EndPc(h, ev, next); }
    else if OpeningStep(h, ev, next) { OpeningPc(h, ev, next); }
    else if TryingStep(h, ev, next) { TryingPc(h, ev, next); }
    else if VerdictStep(h, ev, next) { VerdictPc(h, ev, next); }
    else { DeliveryPc(h, ev, next); }
  }

  lemma EndPc(h: Handler, ev: Event, next: Handler)
    requires EndStep(h, ev, next)
    ensures next.setup == h.setup && next.pc.Done? && VersionFrom(h, ev, next)
  {
    hide MayEnd;
  }

  // ---------------------------------------------------------------- the world

  /** Store moves keep what a request's version stands for. */
  lemma VersionStable(s: State, t: State, h: Handler)
    requires Evolves(s, t) && VersionOk(s, h)
    ensures VersionOk(t, h)
  {
  }

  lemma VersionBegun(s: State, op: Op, t: State, next: Handler)
    requires Inv(s) && Inv(t) && Step(s, op, t) && op.Begin?
    requires next.candidate == op.answer && next.id == op.id
    ensures VersionOk(t, next)
  {
    hide Step;
    AnswerShape(s, op, t);
    if op.answer.secret != [] {
      HitFacts(s, op, t);
    }
  }

  lemma CacheKeeps(w: World, op: Op, store: State, now: int)
    requires Inv(w.store) && CacheMoves(w, op, store, now)
    ensures Inv(store) && Evolves(w.store, store) && OnlyStored(w.store, op, store)
    ensures op.Begin? ==> LookupOk(op.answer)
  {
    hide Inv, Step, Evolves, OnlyStored, LookupOk;
    StepKeeps(w.store, op, store);
    if op.Begin? {
      AnswerShape(w.store, op, store);
    }
  }

  lemma StaysEmpty(s: State, op: Op, t: State)
    requires Inv(s) && DisabledEmpty(s) && Step(s, op, t)
    ensures DisabledEmpty(t)
  {
    hide Inv;
    StepFacts(s, op, t);
    if s.ttl <= 0 {
      hide Validate, MayCommit, AtCapacity, Respond, Admit;
      assert OverdueKeys(s, if op.Begin? || op.Current? || op.Commit? || op.Sweep? then op.now else 0) == {};
    }
  }

  /** A credential stored for a device connection was accepted over that connection. */
  ghost predicate ProvenCommit(w: World, op: Op) {
    Stores(op) ==>
      forall b, c | Plain(b) && op.id.stamp == DeviceStamp(b, c) :: Proven(w, c, op.secret)
  }

  /** A request commits only its own delivered answer, under its own identity and token. */
  lemma CommitSource(h: Handler, ev: Event, next: Handler)
    requires HandlerStep(h, ev, next) && ev.Cache? && ev.op.Commit?
    ensures h.pc == Storing && ev.op.id == h.id && ev.op.secret == h.value && h.value != []
    ensures ev.op.token == h.candidate.token != 0 && ev.op.caller == h.setup.caller && h.remember
  {
  }

  lemma CommitIsProven(w: World, h: Handler, ev: Event, next: Handler)
    requires HandlerOk(h) && AcceptedOk(w, h) && HandlerStep(h, ev, next) && ev.Cache?
    ensures ProvenCommit(w, ev.op)
  {
    hide HandlerStep, Plain, DeviceStamp;
    if ev.op.Commit? {
      CommitSource(h, ev, next);
      forall b, c | Plain(b) && ev.op.id.stamp == DeviceStamp(b, c) ensures Proven(w, c, ev.op.secret) {
        DeviceStampInjective(h.setup.base.stamp, h.device.connection, b, c);
        DeviceStampInjective(b, c, h.setup.base.stamp, "");
      }
    }
  }

  lemma ControlIsProven(w: World, op: Op)
    requires ControlOp(op)
    ensures ProvenCommit(w, op)
  {
    hide Plain, DeviceStamp;
    if op.Commit? {
      forall b, c | Plain(b) ensures op.id.stamp != DeviceStamp(b, c) {
        DeviceStampInjective(b, c, op.id.stamp, "");
      }
    }
  }

  lemma StoreBoundKept(w: World, op: Op, v: World)
    requires StoreBound(w) && OnlyStored(w.store, op, v.store) && ProvenCommit(w, op) && w.accepted <= v.accepted
    ensures StoreBound(v)
  {
    hide Plain, DeviceStamp;
  }

  /** The version just handed out is live, so its bytes were accepted over the connection in the identity. */
  lemma BegunIsProven(w: World, op: Op, v: World, next: Handler)
    requires Inv(w.store) && CacheMoves(w, op, v.store, v.now) && op.Begin? && StoreBound(v)
    requires HandlerOk(next) && next.setup.verify && InSelection(next.pc)
    requires next.candidate == op.answer && next.id == op.id && next.candidate.generation != 0
    ensures Proven(v, next.device.connection, next.candidate.secret)
  {
    hide Inv, Step, Plain, DeviceStamp, TrialOk, Expired;
    AnswerShape(w.store, op, v.store);
    HitFacts(w.store, op, v.store);
    assert Plain(next.setup.base.stamp);
  }

  // ---------------------------------------------------------------- actions

  lemma SlotKept(w: World, n: nat, ev: Event, next: Handler, v: World)
    requires n in w.handlers && SlotOk(w) && Effects(w, n, ev, next, v)
    ensures SlotOk(v)
  {
    hide CacheMoves;
  }

  lemma SetupsKept(w: World, n: nat, ev: Event, next: Handler, v: World)
    requires n in w.handlers && SetupsOk(w) && HandlerStep(w.handlers[n], ev, next) && Effects(w, n, ev, next, v)
    ensures SetupsOk(v)
  {
    hide CacheMoves, HandlerStep, Learn, Arranged;
    VersionSource(w.handlers[n], ev, next);
  }

  lemma HandlersKept(w: World, n: nat, ev: Event, next: Handler, v: World)
    requires n in w.handlers && HandlersOk(w) && Inv(w.store) && Inv(v.store) && Evolves(w.store, v.store)
    requires HandlerStep(w.handlers[n], ev, next) && Effects(w, n, ev, next, v) && EventOk(ev) && StoreBound(v)
    ensures HandlersOk(v)
  {
    hide HandlerOk, HandlerStep, VersionOk, AcceptedOk, EventOk, StoreBound, Inv, Evolves, CacheMoves, Learn;
    forall m | m in v.handlers
      ensures HandlerOk(v.handlers[m]) && VersionOk(v.store, v.handlers[m]) && AcceptedOk(v, v.handlers[m]) {
      var h := w.handlers[m];
      VersionStable(w.store, v.store, h);
      LearnGrows(w, ev);
      AcceptedGrows(w, v, h);
      if m == n {
        HandlerKeeps(h, ev, next);
        OwnVersionOk(w, n, ev, next, v);
        OwnAcceptedOk(w, n, ev, next, v);
      }
    }
  }

  lemma LearnGrows(w: World, ev: Event)
    ensures w.accepted <= Learn(w, ev)
  {
  }

  lemma AcceptedGrows(w: World, v: World, h: Handler)
    requires AcceptedOk(w, h) && w.accepted <= v.accepted
    ensures AcceptedOk(v, h)
  {
  }

  lemma OwnVersionOk(w: World, n: nat, ev: Event, next: Handler, v: World)
    requires n in w.handlers && Inv(w.store) && Inv(v.store) && Effects(w, n, ev, next, v)
    requires HandlerStep(w.handlers[n], ev, next) && VersionOk(v.store, w.handlers[n])
    ensures VersionOk(v.store, next)
  {
    hide HandlerStep, Inv, Step, LookupOk;
    VersionSource(w.handlers[n], ev, next);
    if InSelection(next.pc) && JustBegan(ev, next) {
      VersionBegun(w.store, ev.op, v.store, next);
    }
  }

  lemma OwnAcceptedOk(w: World, n: nat, ev: Event, next: Handler, v: World)
    requires n in w.handlers && Inv(w.store) && Effects(w, n, ev, next, v) && StoreBound(v)
    requires HandlerStep(w.handlers[n], ev, next) && HandlerOk(next) && AcceptedOk(v, w.handlers[n])
    ensures AcceptedOk(v, next)
  {
    hide HandlerStep, Inv, Step, StoreBound, HandlerOk, CacheMoves;
    VersionSource(w.handlers[n], ev, next);
    TrialSource(w.handlers[n], ev, next);
    if next.setup.verify && InSelection(next.pc) && JustBegan(ev, next) && next.candidate.generation != 0 {
      BegunIsProven(w, ev.op, v, next);
    }
  }

  /** The latest trial changes only by a device call. */
  predicate TrialFrom(h: Handler, ev: Event, next: Handler) {
    && (next.trial == h.trial || (ev.Check? && next.trial == Some(ev.trial)))
    && (ev.Check? ==> h.pc == Verifying && next.trial == Some(ev.trial))
  }

  lemma TrialSource(h: Handler, ev: Event, next: Handler)
    requires HandlerStep(h, ev, next)
    ensures TrialFrom(h, ev, next)
  {
    hide OpeningStep, TryingStep, VerdictStep, DeliveryStep, MayEnd;
    if OpeningStep(h, ev, next) {
      OpeningTrial(h, ev, next);
    } else if TryingStep(h, ev, next) {
      TryingTrial(h, ev, next);
    } else if VerdictStep(h, ev, next) {
      VerdictTrial(h, ev, next);
    } else if DeliveryStep(h, ev, next) {
      DeliveryTrial(h, ev, next);
    }
  }

  lemma OpeningTrial(h: Handler, ev: Event, next: Handler)
    requires OpeningStep(h, ev, next)
    ensures TrialFrom(h, ev, next)
  {
    hide Validate, Bound;
  }

  lemma TryingTrial(h: Handler, ev: Event, next: Handler)
    requires TryingStep(h, ev, next)
    ensures TrialFrom(h, ev, next)
  {
  }

  lemma VerdictTrial(h: Handler, ev: Event, next: Handler)
    requires VerdictStep(h, ev, next)
    ensures TrialFrom(h, ev, next)
  {
    hide Refusal;
  }

  lemma DeliveryTrial(h: Handler, ev: Event, next: Handler)
    requires DeliveryStep(h, ev, next)
    ensures TrialFrom(h, ev, next)
  {
  }


  lemma ActKeeps(w: World, n: nat, ev: Event, next: Handler, v: World)
    requires WorldInv(w) && n in w.handlers && HandlerStep(w.handlers[n], ev, next) && Effects(w, n, ev, next, v)
    ensures WorldInv(v) && Evolves(w.store, v.store)
  {
    hide Inv, Evolves, HandlerOk, VersionOk, AcceptedOk, SlotOk, HandlerStep, OnlyStored, ProvenCommit, LookupOk;
    hide DisabledEmpty, SetupsOk;
    SlotKept(w, n, ev, next, v);
    SetupsKept(w, n, ev, next, v);
    LearnGrows(w, ev);
    if ev.Cache? {
      CacheKeeps(w, ev.op, v.store, v.now);
      StaysEmpty(w.store, ev.op, v.store);
      CommitIsProven(w, w.handlers[n], ev, next);
      StoreBoundKept(w, ev.op, v);
    } else {
      EvolvesRefl(w.store);
    }
    HandlersKept(w, n, ev, next, v);
  }

  lemma ControlKeeps(w: World, op: Op, v: World)
    requires WorldInv(w) && ControlOp(op) && CacheMoves(w, op, v.store, v.now)
    requires v == w.(store := v.store, now := v.now)
    ensures WorldInv(v) && Evolves(w.store, v.store)
  {
    hide Inv, Evolves, HandlerOk, VersionOk, AcceptedOk, OnlyStored, ProvenCommit, LookupOk, DisabledEmpty, Step;
    CacheKeeps(w, op, v.store, v.now);
    StaysEmpty(w.store, op, v.store);
    ControlIsProven(w, op);
    StoreBoundKept(w, op, v);
    forall n | n in v.handlers ensures VersionOk(v.store, v.handlers[n]) && AcceptedOk(v, v.handlers[n]) {
      VersionStable(w.store, v.store, w.handlers[n]);
      AcceptedGrows(w, v, w.handlers[n]);
    }
  }

  lemma ArriveKeeps(w: World, n: nat, setup: Setup, v: World)
    requires WorldInv(w) && n !in w.handlers && Plain(setup.base.stamp) && Arranged(w.verifying, setup)
    requires v == w.(handlers := w.handlers[n := Initial(setup)])
    ensures WorldInv(v)
  {
    hide Inv, Plain, StoreBound, DisabledEmpty;
    assert StoreBound(v) by { SameStoreBound(w, v); }
    hide HandlerOk, VersionOk, AcceptedOk;
    forall m | m in w.handlers ensures AcceptedOk(v, w.handlers[m]) {
      AcceptedGrows(w, v, w.handlers[m]);
    }
    InitialOk(v, setup);
  }

  lemma SameStoreBound(w: World, v: World)
    requires StoreBound(w) && v.store == w.store && v.accepted == w.accepted
    ensures StoreBound(v)
  {
  }

  lemma InitialOk(w: World, setup: Setup)
    requires Plain(setup.base.stamp)
    ensures HandlerOk(Initial(setup)) && VersionOk(w.store, Initial(setup)) && AcceptedOk(w, Initial(setup))
  {
    hide Plain;
  }

  lemma CancelKeeps(w: World, n: nat, v: World)
    requires WorldInv(w) && n in w.handlers
    requires v == w.(handlers := w.handlers[n := w.handlers[n].(cancelled := true)])
    ensures WorldInv(v)
  {
    CancelHandlers(w, n, v);
    CancelSlot(w, n, v);
    SameStoreBound(w, v);
    hide Inv, StoreBound, DisabledEmpty, HandlersOk, SlotOk, SetupsOk;
  }

  lemma CancelSlot(w: World, n: nat, v: World)
    requires SlotOk(w) && SetupsOk(w) && n in w.handlers
    requires v == w.(handlers := w.handlers[n := w.handlers[n].(cancelled := true)])
    ensures SlotOk(v) && SetupsOk(v)
  {
    hide Arranged;
    assert Holds(v.handlers[n]) <==> Holds(w.handlers[n]);
    hide Holds;
  }

  lemma CancelHandlers(w: World, n: nat, v: World)
    requires HandlersOk(w) && n in w.handlers
    requires v == w.(handlers := w.handlers[n := w.handlers[n].(cancelled := true)])
    ensures HandlersOk(v)
  {
    CancelledOk(w, v, w.handlers[n]);
    hide HandlerOk, VersionOk, AcceptedOk;
    forall m | m in w.handlers ensures AcceptedOk(v, w.handlers[m]) {
      AcceptedGrows(w, v, w.handlers[m]);
    }
  }

  lemma CancelledOk(w: World, v: World, h: Handler)
    requires HandlerOk(h) && VersionOk(w.store, h) && AcceptedOk(w, h)
    requires v.store == w.store && v.accepted == w.accepted
    ensures var c := h.(cancelled := true); HandlerOk(c) && VersionOk(v.store, c) && AcceptedOk(v, c)
  {
    hide Plain, Bound;
  }

  /** Every action of every request, client, sweeper and user keeps the whole invariant. */
  lemma WorldKeeps(w: World, a: Action, v: World)
    requires WorldInv(w) && WorldStep(w, a, v)
    ensures WorldInv(v) && Evolves(w.store, v.store)
  {
    hide WorldInv, Evolves, HandlerStep, Effects, CacheMoves, Plain, Arranged;
    EvolvesRefl(w.store);
    match a {
      case Arrive(n, setup) => ArriveKeeps(w, n, setup, v);
      case Act(n, ev, next) => ActKeeps(w, n, ev, next, v);
      case CancelUI(n) => CancelKeeps(w, n, v);
      case Control(op) => ControlKeeps(w, op, v);
    }
  }

  lemma {:induction false} WorldReachable(ws: seq<World>, acts: seq<Action>, j: nat)
    requires RunFromStart(ws, acts) && j < |ws|
    ensures WorldInv(ws[j])
  {
    hide WorldInv, WorldStep;
    if j == 0 {
      StartOk(ws[0]);
    } else {
      WorldReachable(ws, acts, j - 1);
      WorldKeeps(ws[j - 1], acts[j - 1], ws[j]);
    }
  }

  lemma StartOk(w: World)
    requires w == Start(w.verifying, w.store.ttl, w.now)
    ensures WorldInv(w)
  {
    NewInv(w.store.ttl);
  }

  // ---------------------------------------------------------------- safety of whole runs

  /** Every live credential stored for a device connection was accepted by a device with exactly that
      connection, in every reachable world. */
  lemma StoredPinsWereAccepted(ws: seq<World>, acts: seq<Action>, j: nat, k: Key, base: string, connection: string)
    requires RunFromStart(ws, acts) && j < |ws|
    requires k in ws[j].store.entries && ws[j].store.entries[k].secret != []
    requires Plain(base) && ws[j].store.entries[k].identity.stamp == DeviceStamp(base, connection)
    ensures exists i :: 0 <= i < j && AcceptedBy(acts[i], connection, ws[j].store.entries[k].secret)
  {
    hide WorldStep, Plain, DeviceStamp;
    WorldReachable(ws, acts, j);
    var i := AcceptedHistory(ws, acts, j, connection, ws[j].store.entries[k].secret);
  }

  /** The action is a device with this connection accepting these bytes. */
  predicate AcceptedBy(a: Action, connection: string, value: seq<byte>) {
    && a.Act? && a.ev.Check? && a.ev.trial.status == Accepted
    && a.ev.trial.device.connection == connection && a.ev.trial.value == value
  }

  lemma {:induction false} AcceptedHistory(ws: seq<World>, acts: seq<Action>, j: nat, connection: string,
                                           value: seq<byte>)
    returns (i: nat)
    requires RunFromStart(ws, acts) && j < |ws| && Proven(ws[j], connection, value)
    ensures i < j && AcceptedBy(acts[i], connection, value)
  {
    hide HandlerStep, CacheMoves;
    if Proven(ws[j - 1], connection, value) {
      i := AcceptedHistory(ws, acts, j - 1, connection, value);
    } else {
      i := j - 1;
    }
  }

  /** A cached PIN reaches a device only over the connection it was accepted on before. */
  lemma CachedPinsStayOnTheirDevice(ws: seq<World>, acts: seq<Action>, j: nat)
    requires RunFromStart(ws, acts) && j < |acts| && acts[j].Act? && acts[j].ev.Check?
    requires acts[j].n in ws[j].handlers
    requires ws[j].handlers[acts[j].n].cached && ws[j].handlers[acts[j].n].value != []
    ensures exists i :: 0 <= i < j && AcceptedBy(acts[i], acts[j].ev.trial.device.connection, acts[j].ev.trial.value)
  {
    hide HandlerStep, Plain, StoreBound, Inv, SlotOk, VersionOk, Effects;
    WorldReachable(ws, acts, j);
    var h := ws[j].handlers[acts[j].n];
    assert WorldStep(ws[j], acts[j], ws[j + 1]);
    CheckSource(h, acts[j].ev, acts[j].next);
    var i := AcceptedHistory(ws, acts, j, h.device.connection, h.value);
  }

  /** A device call tries the current value on the selected device. */
  lemma CheckSource(h: Handler, ev: Event, next: Handler)
    requires HandlerStep(h, ev, next) && ev.Check?
    requires HandlerOk(h)
    ensures h.pc == Verifying && h.setup.verify && ev.trial.device == h.device && ev.trial.value == h.value
  {
    hide Plain;
  }
}
