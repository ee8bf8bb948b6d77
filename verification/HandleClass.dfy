/** Service.Handle in its own form (internal/service/service.go): a loop over attempts inside a loop over device
    selections. Whatever it meets until it ends, it does what HandleScript says and nothing else. */
module HandleClass {
  import opened Text
  import opened Askpass
  import opened CacheIdentity
  import opened CacheModel
  import opened HandleModel
  import opened HandleScript

  datatype Course = Stop | Forward | Repeat | Reselect

  /** What has been done so far, followed by what is still to come, is what the whole script makes of the request. */
  ghost predicate OnCourse(start: Handler, inputs: seq<Input>, n: nat, h: Handler, events: seq<Event>) {
    && n <= |inputs|
    && var whole, rest := Ending(start, inputs), Ending(h, inputs[n..]);
       whole.Some? && rest.Some? && whole.value == (events + rest.value.0, rest.value.1)
  }

  /** The locals of Handle, and how much of what the request meets it has met; the ghost fields are what the machine
      records besides, and what has been done with cache and devices so far. */
  class Request {
    const setup: Setup
    const inputs: seq<Input>
    var met: nat
    var id: Identity
    var device: Device
    var candidate: Lookup
    var value: seq<byte>
    var remember: bool
    var cancelled: bool
    ghost var pc: Pc
    ghost var cached: bool
    ghost var trial: Option<Trial>
    ghost var confirmed: bool
    ghost var found: Option<Identity>
    ghost var events: seq<Event>

    ghost function Now(): Handler
      reads this
    {
      Handler(setup, pc, id, device, candidate, value, remember, cancelled, cached, trial, confirmed, found)
    }

    ghost predicate Valid()
      reads this
    {
      met <= |inputs| && OnCourse(Initial(setup), inputs, met, Now(), events)
    }

    /** A request and everything it meets until it ends. */
    constructor (setup: Setup, inputs: seq<Input>)
      requires Ending(Initial(setup), inputs).Some?
      ensures this.setup == setup && this.inputs == inputs && Valid() && Now() == Initial(setup) && events == []
    {
      this.inputs, met := inputs, 0;
      this.setup, id, device, candidate := setup, setup.base, NO_DEVICE, NO_LOOKUP;
      value, remember, cancelled := [], false, false;
      pc, cached, trial, confirmed := if setup.verify then WaitSlot else Beginning, false, None, false;
      found, events := None, [];
      new;
      Unstarted(Initial(setup), inputs);
    }

    /** What comes next; a cancellation latched meanwhile is taken note of first. */
    method Meet() returns (i: Input)
      requires Valid() && !pc.Done?
      modifies `met, `cancelled, `events
      ensures Valid() && met >= old(met) && Now() == old(Now()).(cancelled := cancelled)
      ensures met < |inputs| && inputs[met] == i && !i.Latched? && Advance(Now(), i).Some?
    {
      hide Advance, OnCourse;
      while true
        invariant Valid() && met >= old(met) && Now() == old(Now()).(cancelled := cancelled)
        decreases |inputs| - met
      {
        Coming(Initial(setup), inputs, met, Now(), events);
        i := inputs[met];
        if !i.Latched? { return; }
        LatchTaken(Now());
        ghost var next := Now().(cancelled := true);
        Taken(Initial(setup), inputs, met, Now(), events, Quiet, next);
        met, cancelled, events := met + 1, true, events + [Quiet];
      }
    }

    /** Take the step, real fields included. */
    method Become(ghost ev: Event, ghost next: Handler, id: Identity, device: Device, candidate: Lookup,
                  value: seq<byte>, remember: bool)
      requires met < |inputs| && Valid() && Advance(Now(), inputs[met]) == Some((ev, next))
      requires next == Handler(setup, next.pc, id, device, candidate, value, remember, cancelled, next.cached,
                               next.trial, next.confirmed, next.found)
      modifies `met, `events, `pc, `cached, `trial, `confirmed, `found, `id, `device, `candidate, `value, `remember
      ensures Valid() && Now() == next && met == old(met) + 1
    {
      hide Advance, OnCourse, Initial;
      Taken(Initial(setup), inputs, met, Now(), events, ev, next);
      met, events := met + 1, events + [ev];
      Put(next, id, device, candidate, value, remember);
    }

    method Put(ghost next: Handler, id: Identity, device: Device, candidate: Lookup, value: seq<byte>, remember: bool)
      requires next == Handler(setup, next.pc, id, device, candidate, value, remember, cancelled, next.cached,
                               next.trial, next.confirmed, next.found)
      modifies `pc, `cached, `trial, `confirmed, `found, `id, `device, `candidate, `value, `remember
      ensures Now() == next
    {
      this.id, this.device, this.candidate, this.value, this.remember := id, device, candidate, value, remember;
      pc, cached, trial, confirmed, found := next.pc, next.cached, next.trial, next.confirmed, next.found;
    }

    /** Take a step that leaves the real fields alone. */
    method Pass(ghost ev: Event, ghost next: Handler)
      requires met < |inputs| && Valid() && Advance(Now(), inputs[met]) == Some((ev, next))
      requires next == Now().(pc := next.pc, cached := next.cached, trial := next.trial, confirmed := next.confirmed,
                              found := next.found)
      modifies `met, `events, `pc, `cached, `trial, `confirmed, `found
      ensures Valid() && Now() == next && met == old(met) + 1
    {
      hide Advance, OnCourse, Initial;
      Taken(Initial(setup), inputs, met, Now(), events, ev, next);
      met, events := met + 1, events + [ev];
      pc, cached, trial, confirmed, found := next.pc, next.cached, next.trial, next.confirmed, next.found;
    }

    /** Return with a result code, or silently when the connection is gone. */
    method Return(ghost code: Option<nat>)
      requires Valid() && met < |inputs| && Advance(Now(), inputs[met]) == Ends(Now(), code)
      modifies `met, `events, `pc, `cached, `trial, `confirmed, `found
      ensures Valid() && pc == Done(code) && met == old(met) + 1
    {
      hide Advance, OnCourse;
      Pass(Quiet, Now().(pc := Done(code)));
    }

    /** The whole request: the slot, then selections until one ends it. It has met everything when it ends, has done
        to cache and devices what the script makes of it, and ends as the script does. */
    method Handle()
      requires Valid() && Now() == Initial(setup) && events == [] && met == 0
      modifies this
      ensures met == |inputs| && Ending(Initial(setup), inputs) == Some((events, Now()))
    {
      hide Advance, OnCourse, Restart;
      if setup.verify {
        var i := Meet();
        AtSlot(Now(), i);
        if !i.acquired {
          Return(None);
          Ended(Initial(setup), inputs, met, Now(), events);
          return;
        }
        RestartIs(Now());
        Become(Quiet, Restart(Now()), setup.base, device, candidate, [], false);
      }
      var again := true;
      while again
        invariant Valid() && if again then pc == if setup.verify then Selecting else Beginning else pc.Done?
        decreases |inputs| - met, again
      {
        again := Select();
      }
      Ended(Initial(setup), inputs, met, Now(), events);
    }

    /** One selection: the device if one is needed, the first look into the cache, then the attempts. */
    method Select() returns (again: bool)
      requires Valid() && pc == if setup.verify then Selecting else Beginning
      modifies this
      ensures Valid() && (if again then pc == Selecting && setup.verify else pc.Done?) && met > old(met)
    {
      hide Advance, OnCourse;
      if setup.verify {
        var chosen := Discover();
        if !chosen { return false; }
      }
      Look();
      again := Attempts();
    }

    /** Discover devices until there is one to use: the only one, or the one the user picks. */
    method Discover() returns (chosen: bool)
      requires Valid() && pc == Selecting && setup.verify
      modifies this
      ensures Valid() && (if chosen then pc == Beginning else pc.Done?) && met > old(met)
    {
      hide Advance, OnCourse, Bound;
      while true
        invariant Valid() && pc == Selecting && met >= old(met)
        decreases |inputs| - met
      {
        var i := Meet();
        AtSelecting(Now(), i);
        var selected: Device;
        if |i.devices| == 1 {
          selected := i.devices[0];
        } else {
          if !i.shown { Return(Some(2)); return false; }
          if i.answer.Lost? { Return(None); return false; }
          if i.answer.Cancel? { Return(Some(1)); return false; }
          if !i.answer.Pick? || i.answer.index >= |i.devices| {
            Pass(Quiet, Now());
            continue;
          }
          selected := i.devices[i.answer.index];
        }
        if selected.connection == "" { Return(Some(1)); return false; }
        Become(Quiet, Now().(pc := Beginning, device := selected, id := Bound(setup.base, selected.connection)),
               Bound(setup.base, selected.connection), selected, candidate, value, remember);
        return true;
      }
    }

    /** The first look into the cache, when the key may be cached. */
    method Look()
      requires Valid() && pc == Beginning
      modifies this
      ensures Valid() && pc == Top && met > old(met)
    {
      hide Advance, OnCourse;
      var i := Meet();
      AtBeginning(Now(), i);
      if setup.eligible {
        Become(Cache(Begin(id, setup.caller, i.now, i.later, i.r)),
               Now().(pc := Top, candidate := i.r, value := i.r.secret, cached := i.r.secret != []),
               id, device, i.r, i.r.secret, remember);
      } else {
        Become(Quiet, Now().(pc := Top, candidate := NO_LOOKUP, value := [], cached := false),
               id, device, NO_LOOKUP, [], remember);
      }
    }

    /** The attempts of one selection. `again` asks for another selection. */
    method Attempts() returns (again: bool)
      requires Valid() && pc == Top
      modifies this
      ensures Valid() && (if again then pc == Selecting && setup.verify else pc.Done?) && met > old(met)
    {
      hide Advance, OnCourse;
      while true
        invariant Valid() && pc == Top && met >= old(met)
        decreases |inputs| - met
      {
        var course := Ask();
        if course == Stop { return false; }
        if course == Reselect { return true; }
        if course == Repeat { continue; }
        if !setup.verify { break; }
        course := Try();
        if course == Stop { return false; }
        if course == Forward { break; }
      }
      Deliver();
      again := false;
    }

    /** Use the value at hand, or show the dialog and take the user's next answer. */
    method Ask() returns (course: Course)
      requires Valid() && pc == Top
      modifies this
      ensures Valid() && met > old(met)
      ensures match course
              case Stop => pc.Done?
              case Forward => pc == if setup.verify then CheckBefore else Closing
              case Repeat => pc == Top
              case Reselect => pc == Selecting && setup.verify
    {
      hide Advance, OnCourse, Restart, Validate;
      var i := Meet();
      AtTop(Now(), i);
      if i.gone { Return(None); return Stop; }
      if |value| == 0 {
        if !i.shown { Return(Some(2)); return Stop; }
        if i.answer.Lost? { Return(None); return Stop; }
        if i.answer.Change? && setup.verify {
          RestartIs(Now());
          Become(Quiet, Restart(Now()), setup.base, device, candidate, [], false);
          return Reselect;
        }
        if !i.answer.Submit? { Return(Some(1)); return Stop; }
        if !Validate(i.answer.value) {
          Pass(Quiet, Now());
          return Repeat;
        }
        Become(Quiet, Typed(Now(), i.answer.value, i.answer.remember), id, device, candidate,
               i.answer.value, i.answer.remember);
        return Forward;
      }
      Pass(Quiet, Now().(pc := if setup.verify then CheckBefore else Closing));
      course := Forward;
    }

    /** Is the version used still current? If not, the value is dropped and the cache is asked again. */
    method StillCurrent(ghost onward: Handler) returns (ok: bool)
      requires Valid() && (pc == CheckBefore || pc == CheckAfter)
      requires onward == if pc == CheckBefore then Now().(pc := Probing) else Now().(pc := Closing, confirmed := true)
      modifies this
      ensures Valid() && met > old(met)
      ensures if ok then Now() == onward.(cancelled := cancelled) else pc == Top
    {
      hide Advance, OnCourse;
      var i := Meet();
      ghost var next := onward.(cancelled := cancelled);
      AtCheck(Now(), i, next);
      if candidate.generation == 0 {
        Pass(Quiet, next);
        return true;
      }
      ok := i.ok;
      if ok {
        Pass(Cache(Current(id, candidate.generation, i.now, true)), next);
      } else {
        Become(Cache(Current(id, candidate.generation, i.now, false)), Now().(pc := Rebegin, value := []),
               id, device, candidate, [], remember);
        AskAgain(Top);
      }
    }

    /** Begin once more; the secret it may return is not used. */
    method AskAgain(ghost next: Pc)
      requires Valid()
      requires (pc == Rebegin && next == Top)
               || (pc == Retrying && trial.Some? && setup.eligible
                   && next == if trial.value.status == Invalid then Top else Failing)
      modifies this
      ensures Valid() && pc == next && met > old(met)
    {
      hide Advance, OnCourse;
      var i := Meet();
      AtAgain(Now(), i, next);
      Become(Cache(Begin(id, setup.caller, i.now, i.later, i.r)), Now().(pc := next, candidate := i.r),
             id, device, i.r, value, remember);
    }

    /** Reject the version used, if there is one. */
    method Refute(ghost next: Pc)
      requires Valid() && ((pc == Dropping && next == Vanished) || (pc == Rejecting && next == Retrying && value == []))
      modifies this
      ensures Valid() && pc == next && value == [] && met > old(met)
      ensures trial == old(trial)
    {
      hide Advance, OnCourse;
      var i := Meet();
      AtReject(Now(), i, next);
      Become(if candidate.generation == 0 then Quiet else Cache(Reject(id, candidate.generation)),
             Now().(pc := next, value := []), id, device, candidate, [], remember);
    }

    /** One verified attempt with the value at hand. */
    method Try() returns (course: Course)
      requires Valid() && pc == CheckBefore
      modifies this
      ensures Valid() && met > old(met)
      ensures match course
              case Stop => pc.Done?
              case Forward => pc == Closing
              case Repeat => pc == Top
              case Reselect => false
    {
      hide Advance, OnCourse;
      var current := StillCurrent(Now().(pc := Probing));
      if !current { return Repeat; }
      course := Present();
    }

    /** Is the device still there? Then let it check the value, else reject the version used and say so. */
    method Present() returns (course: Course)
      requires Valid() && pc == Probing
      modifies this
      ensures Valid() && met > old(met)
      ensures match course
              case Stop => pc.Done?
              case Forward => pc == Closing
              case Repeat => pc == Top
              case Reselect => false
    {
      hide Advance, OnCourse;
      var i := Meet();
      AtProbing(Now(), i);
      if !i.present {
        Pass(Quiet, Now().(pc := Dropping));
        Refute(Vanished);
        i := Meet();
        AtVanished(Now(), i);
        Return(Some(1));
        return Stop;
      }
      if !i.shown { Return(None); return Stop; }
      Pass(Quiet, Now().(pc := Verifying));
      i := Meet();
      AtVerifying(Now(), i);
      ghost var t := Trial(device, value, i.status);
      Pass(Check(t), Now().(pc := Judging, trial := Some(t), confirmed := false));
      course := Judge(i.status);
    }

    /** After the device call: the user's cancellation, the connection, the verdict. */
    method Judge(status: Status) returns (course: Course)
      requires Valid() && pc == Judging && trial.Some? && trial.value.status == status
      modifies this
      ensures Valid() && met > old(met)
      ensures match course
              case Stop => pc.Done?
              case Forward => pc == Closing
              case Repeat => pc == Top
              case Reselect => false
    {
      hide Advance, OnCourse;
      var i := Meet();
      AtJudging(Now(), i);
      if cancelled { Return(Some(1)); return Stop; }
      if i.gone { Return(None); return Stop; }
      if status == Accepted {
        Pass(Quiet, Now().(pc := CheckAfter));
        var current := StillCurrent(Now().(pc := Closing, confirmed := true));
        return if current then Forward else Repeat;
      }
      course := Refused(status);
    }

    /** After a verdict that is not acceptance: reject what was used and look again, then ask again or give up. */
    method Refused(status: Status) returns (course: Course)
      requires Valid() && pc == Judging && trial.Some? && trial.value.status == status != Accepted
      requires met < |inputs| && Advance(Now(), inputs[met]) == Some((Quiet, Judged(Now(), status)))
      modifies this
      ensures Valid() && met > old(met) && if course == Repeat then pc == Top else course == Stop && pc.Done?
    {
      hide Advance, OnCourse;
      Become(Quiet, Judged(Now(), status), id, device, candidate, [], remember);
      if status == Invalid || status == Blocked || status == TemporaryBlock {
        Reconsider(status);
      }
      if status != Invalid {
        var i := Meet();
        AtFailing(Now(), i);
        if !i.ok { Return(Some(2)); return Stop; }
        Return(Some(1));
        return Stop;
      }
      course := Repeat;
    }

    /** Reject what was used, then look again. */
    method Reconsider(status: Status)
      requires Valid() && value == [] && trial.Some? && trial.value.status == status
      requires pc == if candidate.generation != 0 then Rejecting else Retrying
      modifies this
      ensures Valid() && pc == (if status == Invalid then Top else Failing) && met > old(met)
    {
      hide Advance, OnCourse;
      if candidate.generation != 0 {
        Refute(Retrying);
      }
      if setup.eligible {
        AskAgain(if status == Invalid then Top else Failing);
      } else {
        var i := Meet();
        AtRetrying(Now(), i);
        Pass(Quiet, Now().(pc := if status == Invalid then Top else Failing));
      }
    }

    /** Send the answer, wait for the adapter, and store or forget. */
    method Deliver()
      requires Valid() && pc == Closing
      modifies this
      ensures Valid() && pc.Done? && met > old(met)
    {
      hide Advance, OnCourse, FileShown;
      var i := Meet();
      AtClosing(Now(), i);
      if i.gone { Return(None); return; }
      if cancelled { Return(Some(1)); return; }
      Pass(Quiet, Now().(pc := Sending));
      i := Meet();
      AtSending(Now(), i);
      if !i.ok { Return(None); return; }
      Pass(Quiet, Now().(pc := Awaiting));
      i := Meet();
      AtAwaiting(Now(), i);
      if !i.ok { Return(None); return; }
      var current := i.found;
      Pass(Quiet, Now().(pc := Storing, found := current));
      Save(current);
    }

    /** Keep the answer if the user asked to and the key still resolves to the same identity; forget the key if not. */
    method Save(current: Option<Identity>)
      requires Valid() && pc == Storing && found == current
      modifies this
      ensures Valid() && pc.Done? && met > old(met)
    {
      hide Advance, OnCourse, Bound;
      var i := Meet();
      AtStoring(Now(), i);
      ghost var next := Now().(pc := Done(Some(0)));
      if candidate.token != 0 {
        if remember && |value| > 0 {
          if current.Some? {
            var resolved := if setup.verify then Bound(current.value, device.connection) else current.value;
            if resolved == id {
              Pass(Cache(Commit(candidate.token, id, setup.caller, value, i.now, i.later, i.ok)), next);
              return;
            }
          }
        } else if !remember {
          Pass(Cache(Forget(Some(id.key))), next);
          return;
        }
      }
      Pass(Quiet, next);
    }
  }

  // ---------------------------------------------------------------- the script, step by step

  lemma Coming(start: Handler, inputs: seq<Input>, n: nat, h: Handler, events: seq<Event>)
    requires OnCourse(start, inputs, n, h, events) && !h.pc.Done?
    ensures n < |inputs| && Advance(h, inputs[n]).Some?
  {
    hide Advance;
  }

  /** One step done leaves the rest of the script. */
  lemma Taken(start: Handler, inputs: seq<Input>, n: nat, h: Handler, events: seq<Event>, ev: Event, next: Handler)
    requires OnCourse(start, inputs, n, h, events) && n < |inputs| && Advance(h, inputs[n]) == Some((ev, next))
    ensures OnCourse(start, inputs, n + 1, next, events + [ev])
  {
    NotOver(h, inputs[n]);
    assert inputs[n..][0] == inputs[n] && inputs[n..][1..] == inputs[n + 1..];
    hide Advance;
    var rest := Ending(next, inputs[n + 1..]).value;
    assert events + ([ev] + rest.0) == events + [ev] + rest.0;
  }

  lemma Ended(start: Handler, inputs: seq<Input>, n: nat, h: Handler, events: seq<Event>)
    requires OnCourse(start, inputs, n, h, events) && h.pc.Done?
    ensures n == |inputs| && Ending(start, inputs) == Some((events, h))
  {
    assert events + [] == events;
  }

  lemma Unstarted(start: Handler, inputs: seq<Input>)
    requires Ending(start, inputs).Some?
    ensures OnCourse(start, inputs, 0, start, [])
  {
    assert inputs[0..] == inputs;
    assert [] + Ending(start, inputs).value.0 == Ending(start, inputs).value.0;
  }

  lemma RestartIs(h: Handler)
    ensures Restart(h) == h.(pc := Selecting, id := h.setup.base, value := [], remember := false, cached := false)
  {
  }

  lemma AtSlot(h: Handler, i: Input)
    requires h.pc == WaitSlot && !i.Latched? && Advance(h, i).Some?
    ensures i.Slot? && Advance(h, i) == if i.acquired then Some((Quiet, Restart(h))) else Ends(h, None)
  {
  }

  lemma AtSelecting(h: Handler, i: Input)
    requires h.pc == Selecting && !i.Latched? && Advance(h, i).Some?
    ensures i.Choice? && Advance(h, i) == SelectMove(h, i.devices, i.shown, i.answer)
  {
  }

  lemma AtBeginning(h: Handler, i: Input)
    requires h.pc == Beginning && !i.Latched? && Advance(h, i).Some?
    ensures if h.setup.eligible then i.Looked? && Advance(h, i) == LookMove(h, i.r, i.now, i.later)
            else Advance(h, i) == Some((Quiet, h.(pc := Top, candidate := NO_LOOKUP, value := [], cached := false)))
  {
  }

  lemma AtTop(h: Handler, i: Input)
    requires h.pc == Top && !i.Latched? && Advance(h, i).Some?
    ensures i.Asked? && Advance(h, i) == AskMove(h, i.gone, i.shown, i.answer)
  {
  }

  lemma AtCheck(h: Handler, i: Input, onward: Handler)
    requires (h.pc == CheckBefore || h.pc == CheckAfter) && !i.Latched? && Advance(h, i).Some?
    requires onward == if h.pc == CheckBefore then h.(pc := Probing) else h.(pc := Closing, confirmed := true)
    ensures if h.candidate.generation == 0 then Advance(h, i) == Some((Quiet, onward))
            else && i.Checked?
                 && Advance(h, i) == Some((Cache(Current(h.id, h.candidate.generation, i.now, i.ok)),
                                           if i.ok then onward else h.(pc := Rebegin, value := [])))
  {
  }

  lemma AtAgain(h: Handler, i: Input, next: Pc)
    requires !i.Latched? && Advance(h, i).Some?
    requires (h.pc == Rebegin && next == Top)
             || (h.pc == Retrying && h.trial.Some? && h.setup.eligible
                 && next == if h.trial.value.status == Invalid then Top else Failing)
    ensures i.Looked?
    ensures Advance(h, i)
         == Some((Cache(Begin(h.id, h.setup.caller, i.now, i.later, i.r)), h.(pc := next, candidate := i.r)))
  {
  }

  lemma AtRetrying(h: Handler, i: Input)
    requires h.pc == Retrying && h.trial.Some? && !h.setup.eligible && !i.Latched? && Advance(h, i).Some?
    ensures Advance(h, i) == Some((Quiet, h.(pc := if h.trial.value.status == Invalid then Top else Failing)))
  {
  }

  lemma AtReject(h: Handler, i: Input, next: Pc)
    requires !i.Latched? && Advance(h, i).Some?
    requires (h.pc == Dropping && next == Vanished) || (h.pc == Rejecting && next == Retrying && h.value == [])
    ensures Advance(h, i) == RejectMove(h, h.(pc := next, value := []))
  {
  }

  lemma AtProbing(h: Handler, i: Input)
    requires h.pc == Probing && !i.Latched? && Advance(h, i).Some?
    ensures i.Probed?
    ensures Advance(h, i) == if !i.present then Goes(h, Dropping)
                             else if !i.shown then Ends(h, None) else Goes(h, Verifying)
  {
  }

  lemma AtVerifying(h: Handler, i: Input)
    requires h.pc == Verifying && !i.Latched? && Advance(h, i).Some?
    ensures i.Verdict?
    ensures var t := Trial(h.device, h.value, i.status);
            Advance(h, i) == Some((Check(t), h.(pc := Judging, trial := Some(t), confirmed := false)))
  {
  }

  lemma AtJudging(h: Handler, i: Input)
    requires h.pc == Judging && h.trial.Some? && !i.Latched? && Advance(h, i).Some?
    ensures i.Context?
    ensures Advance(h, i) == if h.cancelled then Ends(h, Some(1)) else if i.gone then Ends(h, None)
                             else Some((Quiet, Judged(h, h.trial.value.status)))
  {
  }

  lemma AtFailing(h: Handler, i: Input)
    requires h.pc == Failing && !i.Latched? && Advance(h, i).Some?
    ensures i.Shown? && Advance(h, i) == Ends(h, Some(if i.ok then 1 else 2))
  {
  }

  lemma AtVanished(h: Handler, i: Input)
    requires h.pc == Vanished && !i.Latched? && Advance(h, i).Some?
    ensures Advance(h, i) == Ends(h, Some(1))
  {
  }

  lemma AtClosing(h: Handler, i: Input)
    requires h.pc == Closing && !i.Latched? && Advance(h, i).Some?
    ensures i.Context?
    ensures Advance(h, i) == if i.gone then Ends(h, None)
                             else if h.cancelled then Ends(h, Some(1)) else Goes(h, Sending)
  {
  }

  lemma AtSending(h: Handler, i: Input)
    requires h.pc == Sending && !i.Latched? && Advance(h, i).Some?
    ensures i.Shown? && Advance(h, i) == if i.ok then Goes(h, Awaiting) else Ends(h, None)
  {
  }

  lemma AtAwaiting(h: Handler, i: Input)
    requires h.pc == Awaiting && !i.Latched? && Advance(h, i).Some?
    ensures i.Acked?
    ensures Advance(h, i) == if !i.ok then Ends(h, None) else Some((Quiet, h.(pc := Storing, found := i.found)))
  {
  }

  lemma AtStoring(h: Handler, i: Input)
    requires h.pc == Storing && !i.Latched? && Advance(h, i).Some?
    ensures Advance(h, i) == SaveMove(h, i)
    ensures h.candidate.token != 0 && h.remember && h.value != [] && Unchanged(h) ==> i.Stored?
  {
  }
}
