/** What the service must do with an answer: versions a device refused leave the cache, versions tried were current,
    hits are used, and answers are kept or forgotten as the user asked; over any interleaving of requests. */
module HandleVerdict {
  import opened Text
  import opened Askpass
  import opened CacheIdentity
  import opened CacheModel
  import opened CacheInvariant
  import opened CacheHistory
  import opened HandleModel
  import opened HandleSafety
  import opened HandleDelivery

  // ---------------------------------------------------------------- one request through a run

  predicate Own(a: Action, n: nat) {
    a.Act? && a.n == n
  }

  /** A request stays in the world, and only its own steps change more of it than the cancellation. */
  lemma OneStep(ws: seq<World>, acts: seq<Action>, l: nat, n: nat)
    requires RunFromStart(ws, acts) && l < |acts| && n in ws[l].handlers
    ensures n in ws[l + 1].handlers && ws[l + 1].handlers[n].setup == ws[l].handlers[n].setup
    ensures if Own(acts[l], n)
            then HandlerStep(ws[l].handlers[n], acts[l].ev, acts[l].next) && ws[l + 1].handlers[n] == acts[l].next
            else Same(ws[l + 1].handlers[n], ws[l].handlers[n])
  {
    hide HandlerStep, CacheMoves, Plain, Arranged, Learn;
    assert WorldStep(ws[l], acts[l], ws[l + 1]);
    if Own(acts[l], n) { VersionSource(ws[l].handlers[n], acts[l].ev, acts[l].next); }
  }

  lemma {:induction false} StaysIn(ws: seq<World>, acts: seq<Action>, i: nat, j: nat, n: nat)
    requires RunFromStart(ws, acts) && i <= j < |ws| && n in ws[i].handlers
    ensures n in ws[j].handlers
    decreases j
  {
    hide HandlerStep, WorldStep;
    if i < j {
      StaysIn(ws, acts, i, j - 1, n);
      OneStep(ws, acts, j - 1, n);
    }
  }

  // ---------------------------------------------------------------- versions that are gone

  /** No entry carries this number, and none ever will again. */
  ghost predicate Gone(s: State, g: nat) {
    g <= s.seqno && forall k | k in s.entries :: s.entries[k].generation != g
  }

  lemma GoneOn(s: State, t: State, g: nat)
    requires Evolves(s, t) && Gone(s, g)
    ensures Gone(t, g)
  {
  }

  /** The request is about to reject version g, or has just done so. */
  ghost predicate Condemns(w: World, n: nat, g: nat) {
    n in w.handlers &&
    var h := w.handlers[n];
    || (h.pc == Judging && h.candidate.generation == g && h.trial.Some?
        && h.trial.value.status in {Invalid, Blocked, TemporaryBlock})
    || (h.pc in {Rejecting, Dropping} && h.candidate.generation == g)
    || (h.pc == Retrying && Gone(w.store, g))
  }

  /** It has come to the next attempt or to the error message, and version g is gone. */
  ghost predicate Rid(w: World, n: nat, g: nat) {
    n in w.handlers && w.handlers[n].pc in {Top, Failing, Vanished} && Gone(w.store, g)
  }

  /** It ended right after the device call, with nothing told: its user had cancelled, or it was cut off. */
  predicate Cut(w: World, v: World, n: nat) {
    && n in w.handlers && n in v.handlers && w.handlers[n].pc == Judging
    && (v.handlers[n].pc == Done(None) || (v.handlers[n].pc == Done(Some(1)) && w.handlers[n].cancelled))
  }

  lemma Rejects(w: World, h: Handler, op: Op, t: State)
    requires VersionOk(w.store, h) && InSelection(h.pc) && h.candidate.generation != 0
    requires op == Reject(h.id, h.candidate.generation) && Step(w.store, op, t)
    ensures Gone(t, h.candidate.generation)
  {
  }

  lemma FromJudging(h: Handler, ev: Event, next: Handler)
    requires HandlerStep(h, ev, next) && h.pc == Judging && h.candidate.generation != 0
    requires h.trial.Some? && h.trial.value.status in {Invalid, Blocked, TemporaryBlock}
    ensures ev == Quiet && next.candidate == h.candidate
    ensures next.pc == Rejecting || next.pc == Done(None) || (next.pc == Done(Some(1)) && h.cancelled)
  {
  }

  lemma FromRejecting(h: Handler, ev: Event, next: Handler)
    requires HandlerStep(h, ev, next) && h.pc in {Rejecting, Dropping} && h.candidate.generation != 0
    ensures ev == Cache(Reject(h.id, h.candidate.generation)) && next.pc in {Retrying, Vanished}
  {
  }

  lemma FromRetrying(h: Handler, ev: Event, next: Handler)
    requires HandlerStep(h, ev, next) && h.pc == Retrying
    ensures next.pc in {Top, Failing}
  {
  }

  lemma CondemnedStep(ws: seq<World>, acts: seq<Action>, l: nat, n: nat, g: nat)
    requires RunFromStart(ws, acts) && l < |acts| && Condemns(ws[l], n, g) && g != 0
    ensures Condemns(ws[l + 1], n, g) || Rid(ws[l + 1], n, g) || Cut(ws[l], ws[l + 1], n)
  {
    hide WorldStep, WorldInv, HandlerStep, Evolves, Gone, Step;
    OneStep(ws, acts, l, n);
    WorldReachable(ws, acts, l);
    WorldKeeps(ws[l], acts[l], ws[l + 1]);
    var h := ws[l].handlers[n];
    if h.pc == Retrying { GoneOn(ws[l].store, ws[l + 1].store, g); }
    if Own(acts[l], n) {
      if h.pc == Judging {
        FromJudging(h, acts[l].ev, acts[l].next);
      } else if h.pc == Retrying {
        FromRetrying(h, acts[l].ev, acts[l].next);
      } else {
        FromRejecting(h, acts[l].ev, acts[l].next);
        StepOf(ws, acts, l, n);
        OneOk(ws[l], n);
        Rejects(ws[l], h, acts[l].ev.op, ws[l + 1].store);
      }
    }
  }

  lemma StepOf(ws: seq<World>, acts: seq<Action>, l: nat, n: nat)
    requires RunFromStart(ws, acts) && l < |acts| && Own(acts[l], n) && acts[l].ev.Cache?
    ensures Step(ws[l].store, acts[l].ev.op, ws[l + 1].store)
  {
    hide HandlerStep, Step;
    assert WorldStep(ws[l], acts[l], ws[l + 1]);
  }

  lemma OneOk(w: World, n: nat)
    requires WorldInv(w) && n in w.handlers
    ensures HandlerOk(w.handlers[n]) && VersionOk(w.store, w.handlers[n])
  {
    hide Inv, DisabledEmpty, StoreBound, SlotOk, SetupsOk, HandlerOk, VersionOk, AcceptedOk;
  }

  /** Between moments i and j request n is at no new attempt and at no error message. */
  ghost predicate NoneYet(ws: seq<World>, i: nat, j: nat, n: nat)
    requires j <= |ws|
  {
    forall m | i < m < j && n in ws[m].handlers :: ws[m].handlers[n].pc !in {Top, Failing, Vanished}
  }

  ghost predicate CutOff(ws: seq<World>, i: nat, j: nat, n: nat)
    requires j < |ws|
  {
    exists l :: i < l < j && Cut(ws[l], ws[l + 1], n)
  }

  lemma {:induction false} FollowVerdict(ws: seq<World>, acts: seq<Action>, i: nat, j: nat, n: nat, g: nat)
    requires RunFromStart(ws, acts) && i < j < |ws| && g != 0
    requires Condemns(ws[i + 1], n, g) && NoneYet(ws, i, j, n)
    ensures n in ws[j].handlers && (Condemns(ws[j], n, g) || Rid(ws[j], n, g) || CutOff(ws, i, j, n))
    decreases j
  {
    hide WorldStep, Condemns, Rid, Cut, Gone;
    assert n in ws[i + 1].handlers by { InHandlers(ws[i + 1], n, g); }
    StaysIn(ws, acts, i + 1, j, n);
    if i + 1 < j {
      FollowVerdict(ws, acts, i, j - 1, n, g);
      if Condemns(ws[j - 1], n, g) {
        CondemnedStep(ws, acts, j - 1, n, g);
      } else if Rid(ws[j - 1], n, g) {
        RidIsThere(ws[j - 1], n, g);
      }
    }
  }

  lemma InHandlers(w: World, n: nat, g: nat)
    requires Condemns(w, n, g)
    ensures n in w.handlers
  {
  }

  lemma RidIsThere(w: World, n: nat, g: nat)
    requires Rid(w, n, g)
    ensures n in w.handlers && w.handlers[n].pc in {Top, Failing, Vanished}
  {
  }

  /** acts[i] is a device refusing the PIN of a request that uses version g of the cache. */
  ghost predicate Refuses(ws: seq<World>, acts: seq<Action>, i: nat, n: nat, g: nat)
    requires |ws| == |acts| + 1 && i < |acts|
  {
    && Own(acts[i], n) && n in ws[i].handlers && g != 0 && ws[i].handlers[n].candidate.generation == g
    && acts[i].ev.Check? && acts[i].ev.trial.status in {Invalid, Blocked, TemporaryBlock}
  }

  lemma RefusalCondemns(ws: seq<World>, acts: seq<Action>, i: nat, n: nat, g: nat)
    requires RunFromStart(ws, acts) && i < |acts| && Refuses(ws, acts, i, n, g)
    ensures Condemns(ws[i + 1], n, g)
  {
    hide WorldStep, HandlerStep, Gone;
    OneStep(ws, acts, i, n);
    TriesHere(ws[i].handlers[n], acts[i].ev, acts[i].next);
  }

  lemma TriesHere(h: Handler, ev: Event, next: Handler)
    requires HandlerStep(h, ev, next) && ev.Check?
    ensures h.pc == Verifying && next == h.(pc := Judging, trial := Some(ev.trial), confirmed := false)
  {
  }

  /** In every run, once a device has answered that a PIN is invalid, or that it is blocked for good or for now,
      to a request using version g, no entry carries g when the request is next at an attempt or at the error
      message; until then it is about to reject g, unless it ended before, cancelled or cut off. */
  lemma RefusedVersionsLeave(ws: seq<World>, acts: seq<Action>, i: nat, j: nat, n: nat, g: nat)
    requires RunFromStart(ws, acts) && i < j < |ws| && i < |acts| && Refuses(ws, acts, i, n, g)
    requires NoneYet(ws, i, j, n)
    ensures n in ws[j].handlers
    ensures ws[j].handlers[n].pc in {Top, Failing} ==>
              forall k | k in ws[j].store.entries :: ws[j].store.entries[k].generation != g
    ensures CutOff(ws, i, j, n)
            || ws[j].handlers[n].pc in {Top, Failing, Vanished, Judging, Rejecting, Dropping, Retrying}
  {
    hide WorldStep, CutOff;
    RefusalCondemns(ws, acts, i, n, g);
    FollowVerdict(ws, acts, i, j, n, g);
    if CutOff(ws, i, j, n) { CutIsOver(ws, acts, i, j, n); }
  }

  /** The same when the device has gone before the PIN could be tried: the version used is rejected before the
      error message. */
  lemma VersionsOfGoneDevicesLeave(ws: seq<World>, acts: seq<Action>, i: nat, j: nat, n: nat)
    requires RunFromStart(ws, acts) && i < j < |ws| && n in ws[i].handlers
    requires Own(acts[i], n) && acts[i].next.pc == Dropping && NoneYet(ws, i, j, n)
    requires ws[i].handlers[n].candidate.generation != 0
    ensures n in ws[j].handlers
    ensures ws[j].handlers[n].pc in {Top, Failing, Vanished} ==>
              forall k | k in ws[j].store.entries ::
                ws[j].store.entries[k].generation != ws[i].handlers[n].candidate.generation
  {
    hide WorldStep, HandlerStep, CutOff;
    OneStep(ws, acts, i, n);
    IntoDropping(ws[i].handlers[n], acts[i].ev, acts[i].next);
    FollowVerdict(ws, acts, i, j, n, ws[i].handlers[n].candidate.generation);
    if CutOff(ws, i, j, n) { CutIsOver(ws, acts, i, j, n); }
  }

  lemma IntoDropping(h: Handler, ev: Event, next: Handler)
    requires HandlerStep(h, ev, next) && next.pc == Dropping
    ensures h.pc == Probing && next == h.(pc := Dropping) && ev == Quiet
  {
    assert TryingStep(h, ev, next) by {
      hide EndStep, OpeningStep, TryingStep, VerdictStep, DeliveryStep;
      OnlyGroup(h, ev, next);
    }
    hide HandlerStep;
  }

  lemma CutIsOver(ws: seq<World>, acts: seq<Action>, i: nat, j: nat, n: nat)
    requires RunFromStart(ws, acts) && j < |ws| && CutOff(ws, i, j, n)
    ensures n in ws[j].handlers && ws[j].handlers[n].pc.Done?
  {
    hide WorldStep;
    var l :| i < l < j && Cut(ws[l], ws[l + 1], n);
    DoneStays(ws, acts, l + 1, j, n);
  }

  lemma {:induction false} DoneStays(ws: seq<World>, acts: seq<Action>, i: nat, j: nat, n: nat)
    requires RunFromStart(ws, acts) && i <= j < |ws| && n in ws[i].handlers && ws[i].handlers[n].pc.Done?
    ensures n in ws[j].handlers && ws[j].handlers[n].pc == ws[i].handlers[n].pc
    decreases j
  {
    hide WorldStep, HandlerStep;
    if i < j {
      DoneStays(ws, acts, i, j - 1, n);
      OneStep(ws, acts, j - 1, n);
      if Own(acts[j - 1], n) { NothingAfterDone(ws[j - 1].handlers[n], acts[j - 1].ev, acts[j - 1].next); }
    }
  }

  lemma NothingAfterDone(h: Handler, ev: Event, next: Handler)
    requires h.pc.Done?
    ensures !HandlerStep(h, ev, next)
  {
  }

  // ---------------------------------------------------------------- versions tried were current

  lemma IntoVerifying(h: Handler, ev: Event, next: Handler)
    requires HandlerStep(h, ev, next) && next.pc == Verifying
    ensures h.pc == Probing && next == h.(pc := Verifying) && ev == Quiet
  {
    assert TryingStep(h, ev, next) by {
      hide EndStep, OpeningStep, TryingStep, VerdictStep, DeliveryStep;
      OnlyGroup(h, ev, next);
    }
    hide HandlerStep;
  }

  lemma IntoProbing(h: Handler, ev: Event, next: Handler)
    requires HandlerStep(h, ev, next) && next.pc == Probing
    ensures h.pc == CheckBefore && next == h.(pc := Probing)
    ensures h.candidate.generation != 0 ==>
              ev.Cache? && ev.op.Current? && ev.op.id == h.id && ev.op.g == h.candidate.generation && ev.op.ok
    ensures h.candidate.generation == 0 ==> ev == Quiet
  {
    assert TryingStep(h, ev, next) by {
      hide EndStep, OpeningStep, TryingStep, VerdictStep, DeliveryStep;
      OnlyGroup(h, ev, next);
    }
    hide HandlerStep;
  }

  /** The check at c found version g of this identity current, and request n has done nothing with cache or device
      from then on to j. */
  ghost predicate FoundCurrent(acts: seq<Action>, c: nat, j: nat, n: nat, id: Identity, g: nat) {
    && c < j <= |acts| && ConfirmedAt(acts[c], n, id, g)
    && forall m | c < m < j && Own(acts[m], n) :: acts[m].ev == Quiet
  }

  /** A PIN is tried with a version of the cache only right after that version was found current. */
  lemma TriedVersionsWereCurrent(ws: seq<World>, acts: seq<Action>, j: nat, n: nat)
    requires RunFromStart(ws, acts) && j < |acts| && Own(acts[j], n) && acts[j].ev.Check?
    ensures n in ws[j].handlers
    ensures var h := ws[j].handlers[n];
            h.candidate.generation != 0 ==> exists c :: FoundCurrent(acts, c, j, n, h.id, h.candidate.generation)
  {
    hide WorldStep, HandlerStep;
    ActsInWorld(ws, acts, j, n);
    OneStep(ws, acts, j, n);
    TriesHere(ws[j].handlers[n], acts[j].ev, acts[j].next);
    if ws[j].handlers[n].candidate.generation != 0 {
      var c, q := CheckBehind(ws, acts, j, n);
    }
  }

  lemma ActsInWorld(ws: seq<World>, acts: seq<Action>, j: nat, n: nat)
    requires RunFromStart(ws, acts) && j < |acts| && Own(acts[j], n)
    ensures n in ws[j].handlers
  {
    hide HandlerStep, Effects;
    assert WorldStep(ws[j], acts[j], ws[j + 1]);
  }

  lemma CheckBehind(ws: seq<World>, acts: seq<Action>, j: nat, n: nat) returns (c: nat, q: nat)
    requires RunFromStart(ws, acts) && j < |ws| && n in ws[j].handlers && ws[j].handlers[n].pc == Verifying
    requires ws[j].handlers[n].candidate.generation != 0
    ensures c < q < j && FoundCurrent(acts, c, j, n, ws[j].handlers[n].id, ws[j].handlers[n].candidate.generation)
    ensures Tries(ws, acts, c, q, j, n)
  {
    hide WorldStep, HandlerStep;
    q := Came(ws, acts, j, n);
    IntoVerifying(ws[q].handlers[n], acts[q].ev, acts[q].next);
    c := Came(ws, acts, q, n);
    IntoProbing(ws[c].handlers[n], acts[c].ev, acts[c].next);
    VerifyingHolds(ws, acts, j, n);
  }

  /** Own steps c and q lead request n, which holds the slot, from its check to its device call. */
  ghost predicate Tries(ws: seq<World>, acts: seq<Action>, c: nat, q: nat, j: nat, n: nat)
    requires |ws| == |acts| + 1 && c < q < j < |ws|
  {
    && LastStep(ws, acts, c, q, n) && LastStep(ws, acts, q, j, n) && Holds(ws[j].handlers[n])
    && ws[c].handlers[n].pc == CheckBefore && acts[c].next.pc == Probing && acts[q].next.pc == Verifying
    && ws[c].handlers[n].setup == ws[q].handlers[n].setup == ws[j].handlers[n].setup
  }

  lemma TriesHolding(ws: seq<World>, acts: seq<Action>, c: nat, q: nat, j: nat, n: nat, m: nat)
    requires RunFromStart(ws, acts) && c < q < j < |ws| && Tries(ws, acts, c, q, j, n) && c <= m <= j
    ensures n in ws[m].handlers && Holds(ws[m].handlers[n])
    ensures ws[m].handlers[n].pc in if m == c then {CheckBefore} else {Probing, Verifying}
  {
    hide WorldStep, HandlerStep;
    if c < m {
      OneStep(ws, acts, c, n);
      OneStep(ws, acts, q, n);
      if m <= q { Idle(ws, acts, c + 1, m, n); } else { Idle(ws, acts, q + 1, m, n); }
    }
  }

  lemma VerifyingHolds(ws: seq<World>, acts: seq<Action>, j: nat, n: nat)
    requires RunFromStart(ws, acts) && j < |ws| && n in ws[j].handlers && ws[j].handlers[n].pc == Verifying
    ensures Holds(ws[j].handlers[n])
  {
    hide WorldStep, WorldInv, Plain, Bound, TrialOk, CandidateOk;
    WorldReachable(ws, acts, j);
    OneOk(ws[j], n);
  }

  /** Without own steps a request stays where it is. */
  lemma {:induction false} Idle(ws: seq<World>, acts: seq<Action>, i: nat, j: nat, n: nat)
    requires RunFromStart(ws, acts) && i <= j < |ws| && n in ws[i].handlers
    requires forall m | i <= m < j :: !Own(acts[m], n)
    ensures n in ws[j].handlers && Same(ws[j].handlers[n], ws[i].handlers[n])
    decreases j
  {
    hide WorldStep, HandlerStep;
    if i < j {
      Idle(ws, acts, i, j - 1, n);
      OneStep(ws, acts, j - 1, n);
    }
  }

  // ---------------------------------------------------------------- no version is refused twice

  lemma {:induction false} GoneForward(ws: seq<World>, acts: seq<Action>, i: nat, j: nat, g: nat)
    requires RunFromStart(ws, acts) && i <= j < |ws| && Gone(ws[i].store, g)
    ensures Gone(ws[j].store, g)
    decreases j
  {
    hide WorldStep, WorldInv, Gone, Evolves;
    if i < j {
      GoneForward(ws, acts, i, j - 1, g);
      WorldReachable(ws, acts, j - 1);
      WorldKeeps(ws[j - 1], acts[j - 1], ws[j]);
      GoneOn(ws[j - 1].store, ws[j].store, g);
    }
  }

  lemma CheckedIsThere(ws: seq<World>, acts: seq<Action>, c: nat, n: nat, id: Identity, g: nat)
    requires RunFromStart(ws, acts) && c < |acts| && ConfirmedAt(acts[c], n, id, g)
    ensures !Gone(ws[c].store, g)
  {
    hide WorldStep, Step, HandlerStep;
    StepOf(ws, acts, c, n);
    CurrentFacts(ws[c].store, acts[c].ev.op, ws[c + 1].store);
  }

  /** Only one request at a time holds the hardware slot. */
  lemma OneHolder(ws: seq<World>, acts: seq<Action>, j: nat, n: nat, m: nat)
    requires RunFromStart(ws, acts) && j < |ws| && n in ws[j].handlers && m in ws[j].handlers
    requires Holds(ws[j].handlers[n]) && Holds(ws[j].handlers[m])
    ensures n == m
  {
    hide WorldStep, Inv, DisabledEmpty, StoreBound, HandlersOk, SetupsOk, Holds;
    WorldReachable(ws, acts, j);
  }

  lemma CondemningHolds(ws: seq<World>, acts: seq<Action>, j: nat, n: nat, g: nat)
    requires RunFromStart(ws, acts) && j < |ws| && Condemns(ws[j], n, g)
    ensures n in ws[j].handlers && Holds(ws[j].handlers[n])
    ensures ws[j].handlers[n].pc !in {CheckBefore, Top, Failing, Vanished}
  {
    hide WorldStep, WorldInv, Plain, Bound, TrialOk, CandidateOk, Gone;
    WorldReachable(ws, acts, j);
    OneOk(ws[j], n);
  }

  lemma RefusingHolds(ws: seq<World>, acts: seq<Action>, i: nat, n: nat, g: nat)
    requires RunFromStart(ws, acts) && i < |acts| && Refuses(ws, acts, i, n, g)
    ensures Holds(ws[i].handlers[n]) && ws[i].handlers[n].pc == Verifying
  {
    hide WorldStep, HandlerStep;
    OneStep(ws, acts, i, n);
    TriesHere(ws[i].handlers[n], acts[i].ev, acts[i].next);
    VerifyingHolds(ws, acts, i, n);
  }

  /** While version g is in the cache, a request whose PIN was refused with it has been cut off, or is still about
      to reject it. */
  lemma {:induction false} StillRefusing(ws: seq<World>, acts: seq<Action>, i: nat, j: nat, n: nat, g: nat)
    requires RunFromStart(ws, acts) && i < j < |ws| && Refuses(ws, acts, i, n, g) && !Gone(ws[j].store, g)
    ensures CutOff(ws, i, j, n) || Condemns(ws[j], n, g)
    decreases j
  {
    hide WorldStep, Condemns, Cut, Gone, Refuses;
    if j == i + 1 {
      RefusalCondemns(ws, acts, i, n, g);
    } else {
      if Gone(ws[j - 1].store, g) { GoneForward(ws, acts, j - 1, j, g); }
      StillRefusing(ws, acts, i, j - 1, n, g);
      if Condemns(ws[j - 1], n, g) {
        NotZero(ws, acts, i, n, g);
        CondemnedStep(ws, acts, j - 1, n, g);
      }
    }
  }

  lemma NotZero(ws: seq<World>, acts: seq<Action>, i: nat, n: nat, g: nat)
    requires |ws| == |acts| + 1 && i < |acts| && Refuses(ws, acts, i, n, g)
    ensures g != 0
  {
  }

  /** A version of the cache is refused by a device at most once, unless the request it was refused to ended
      between the call and the reject, cancelled or cut off. */
  lemma RefusedOnce(ws: seq<World>, acts: seq<Action>, i: nat, j: nat, n: nat, m: nat, g: nat)
    requires RunFromStart(ws, acts) && i < j < |acts| && Refuses(ws, acts, i, n, g) && Refuses(ws, acts, j, m, g)
    ensures CutOff(ws, i, j, n)
  {
    hide WorldStep, Cut, Gone, Condemns, Holds, ConfirmedAt;
    RefusingHolds(ws, acts, i, n, g);
    RefusingHolds(ws, acts, j, m, g);
    var c, q := CheckBehind(ws, acts, j, m);
    CheckedIsThere(ws, acts, c, m, ws[j].handlers[m].id, g);
    TriesHolding(ws, acts, c, q, j, m, c);
    if c < i {
      TriesHolding(ws, acts, c, q, j, m, i);
      OneHolder(ws, acts, i, n, m);
    } else if c > i {
      StillRefusing(ws, acts, i, c, n, g);
      if Condemns(ws[c], n, g) {
        CondemningHolds(ws, acts, c, n, g);
        OneHolder(ws, acts, c, n, m);
      }
    } else {
      OneHolder(ws, acts, i, n, m);
    }
  }
}
