/** One input request driven by what it meets: a function from the answers of user, devices, cache and connection to
    the steps of the request machine. */
module HandleScript {
  import opened Text
  import opened Askpass
  import opened CacheIdentity
  import opened CacheModel
  import opened HandleModel

  /** What a user does in the dialog; Lost is a dialog or connection that ended. */
  datatype Answer = Submit(value: seq<byte>, remember: bool) | Change | Cancel | Pick(index: nat) | Lost

  /** What the request meets next: the slot; a round of the device selection; an answer of the cache to a look, a
      check or a commit; a round of the dialog; whether the device is still there; its verdict; whether its own
      context is cancelled; whether something could be shown or sent; the acknowledgment with what the key then
      resolves to. Nothing is met at a step that asks for nothing, and the dialog may latch a cancellation at any
      time. */
  datatype Input =
    | Slot(acquired: bool)
    | Choice(devices: seq<Device>, shown: bool, answer: Answer)
    | Looked(r: Lookup, now: int, later: int)
    | Checked(ok: bool, now: int)
    | Stored(ok: bool, now: int, later: int)
    | Asked(gone: bool, shown: bool, answer: Answer)
    | Probed(present: bool, shown: bool)
    | Verdict(status: Status)
    | Context(gone: bool)
    | Shown(ok: bool)
    | Acked(ok: bool, found: Option<Identity>)
    | Nothing
    | Latched

  type Move = Option<(Event, Handler)>

  function Ends(h: Handler, code: Option<nat>): Move {
    Some((Quiet, h.(pc := Done(code))))
  }

  function Goes(h: Handler, pc: Pc): Move {
    Some((Quiet, h.(pc := pc)))
  }

  // ---------------------------------------------------------------- opening

  function Choose(h: Handler, d: Device): Move {
    if d.connection == "" then Ends(h, Some(1))
    else Some((Quiet, h.(pc := Beginning, device := d, id := Bound(h.setup.base, d.connection))))
  }

  /** The only device is taken; of several the user picks one; of none there is nothing to pick. */
  function SelectMove(h: Handler, found: seq<Device>, shown: bool, answer: Answer): Move {
    if |found| == 1 then Choose(h, found[0])
    else if !shown then Ends(h, Some(2))
    else if answer.Lost? then Ends(h, None)
    else if answer.Cancel? then Ends(h, Some(1))
    else if answer.Pick? && answer.index < |found| then Choose(h, found[answer.index])
    else Some((Quiet, h))
  }

  function LookMove(h: Handler, r: Lookup, now: int, later: int): Move {
    Some((Cache(Begin(h.id, h.setup.caller, now, later, r)),
          h.(pc := Top, candidate := r, value := r.secret, cached := r.secret != [])))
  }

  function Onward(h: Handler): Pc {
    if h.setup.verify then CheckBefore else Closing
  }

  function Typed(h: Handler, v: seq<byte>, remember: bool): Handler {
    h.(pc := Onward(h), value := v, remember := remember, cached := false)
  }

  function AskMove(h: Handler, gone: bool, shown: bool, answer: Answer): Move {
    if gone then Ends(h, None)
    else if h.value != [] then Goes(h, Onward(h))
    else if !shown then Ends(h, Some(2))
    else match answer
         case Lost => Ends(h, None)
         case Change => if h.setup.verify then Some((Quiet, Restart(h))) else Ends(h, Some(1))
         case Submit(v, remember) => Some((Quiet, if Validate(v) then Typed(h, v, remember) else h))
         case _ => Ends(h, Some(1))
  }

  function OpeningMove(h: Handler, i: Input): Move {
    match (h.pc, i)
    case (WaitSlot, Slot(acquired)) => if acquired then Some((Quiet, Restart(h))) else Ends(h, None)
    case (Selecting, Choice(devices, shown, answer)) => SelectMove(h, devices, shown, answer)
    case (Beginning, Looked(r, now, later)) => if h.setup.eligible then LookMove(h, r, now, later) else None
    case (Beginning, Nothing) =>
      if h.setup.eligible then None
      else Some((Quiet, h.(pc := Top, candidate := NO_LOOKUP, value := [], cached := false)))
    case (Top, Asked(gone, shown, answer)) => AskMove(h, gone, shown, answer)
    case _ => None
  }

  // ---------------------------------------------------------------- trying

  /** Is the version used still current? Without one there is nothing to ask. */
  function CheckMove(h: Handler, i: Input, onward: Handler): Move {
    if h.candidate.generation == 0 then if i.Nothing? then Some((Quiet, onward)) else None
    else if i.Checked? then
      Some((Cache(Current(h.id, h.candidate.generation, i.now, i.ok)),
            if i.ok then onward else h.(pc := Rebegin, value := [])))
    else None
  }

  function AgainMove(h: Handler, i: Input, pc: Pc): Move {
    if i.Looked? then
      Some((Cache(Begin(h.id, h.setup.caller, i.now, i.later, i.r)), h.(pc := pc, candidate := i.r)))
    else None
  }

  function RejectMove(h: Handler, next: Handler): Move {
    Some((if h.candidate.generation == 0 then Quiet else Cache(Reject(h.id, h.candidate.generation)), next))
  }

  function TryingMove(h: Handler, i: Input): Move {
    match (h.pc, i)
    case (CheckBefore, _) => CheckMove(h, i, h.(pc := Probing))
    case (Rebegin, _) => AgainMove(h, i, Top)
    case (Probing, Probed(present, shown)) =>
      if !present then Goes(h, Dropping) else if !shown then Ends(h, None) else Goes(h, Verifying)
    case (Dropping, Nothing) => RejectMove(h, h.(pc := Vanished, value := []))
    case (Verifying, Verdict(status)) =>
      var t := Trial(h.device, h.value, status);
      Some((Check(t), h.(pc := Judging, trial := Some(t), confirmed := false)))
    case _ => None
  }

  // ---------------------------------------------------------------- the verdict

  function Judged(h: Handler, status: Status): Handler {
    match status
    case Accepted => h.(pc := CheckAfter)
    case Unavailable => h.(pc := Failing, value := [])
    case _ => h.(pc := if h.candidate.generation != 0 then Rejecting else Retrying, value := [])
  }

  /** After a refusal the cache is asked again, and the user too if the PIN was just wrong. */
  function RetryMove(h: Handler, i: Input, status: Status): Move {
    var pc := if status == Invalid then Top else Failing;
    if h.setup.eligible then AgainMove(h, i, pc) else if i.Nothing? then Goes(h, pc) else None
  }

  function VerdictMove(h: Handler, i: Input): Move {
    match (h.pc, i)
    case (Judging, Context(gone)) =>
      if h.cancelled then Ends(h, Some(1))
      else if gone then Ends(h, None)
      else if h.trial == None then None
      else Some((Quiet, Judged(h, h.trial.value.status)))
    case (CheckAfter, _) => CheckMove(h, i, h.(pc := Closing, confirmed := true))
    case (Rejecting, Nothing) => RejectMove(h, h.(pc := Retrying))
    case (Retrying, _) => if h.trial == None then None else RetryMove(h, i, h.trial.value.status)
    case (Failing, Shown(ok)) => Ends(h, Some(if ok then 1 else 2))
    case (Vanished, Nothing) => Ends(h, Some(1))
    case _ => None
  }

  // ---------------------------------------------------------------- delivery

  function SaveMove(h: Handler, i: Input): Move {
    var next := h.(pc := Done(Some(0)));
    if h.candidate.token != 0 && h.remember && h.value != [] && Unchanged(h) then
      if i.Stored? then
        Some((Cache(Commit(h.candidate.token, h.id, h.setup.caller, h.value, i.now, i.later, i.ok)), next))
      else None
    else if !i.Nothing? then None
    else if h.candidate.token != 0 && !h.remember then Some((Cache(Forget(Some(h.id.key))), next))
    else Some((Quiet, next))
  }

  function DeliveryMove(h: Handler, i: Input): Move {
    match (h.pc, i)
    case (Closing, Context(gone)) =>
      if gone then Ends(h, None) else if h.cancelled then Ends(h, Some(1)) else Goes(h, Sending)
    case (Sending, Shown(ok)) => if ok then Goes(h, Awaiting) else Ends(h, None)
    case (Awaiting, Acked(ok, found)) =>
      if !ok then Ends(h, None)
      else if FileShown(found) then Some((Quiet, h.(pc := Storing, found := found))) else None
    case (Storing, _) => SaveMove(h, i)
    case _ => None
  }

  /** The step a request takes on meeting i; None when i cannot be what it meets. */
  function Advance(h: Handler, i: Input): Move {
    if h.pc.Done? then None
    else if i.Latched? then Some((Quiet, h.(cancelled := true)))
    else match h.pc
         case WaitSlot => OpeningMove(h, i)
         case Selecting => OpeningMove(h, i)
         case Beginning => OpeningMove(h, i)
         case Top => OpeningMove(h, i)
         case CheckBefore => TryingMove(h, i)
         case Rebegin => TryingMove(h, i)
         case Probing => TryingMove(h, i)
         case Dropping => TryingMove(h, i)
         case Verifying => TryingMove(h, i)
         case Judging => VerdictMove(h, i)
         case CheckAfter => VerdictMove(h, i)
         case Rejecting => VerdictMove(h, i)
         case Retrying => VerdictMove(h, i)
         case Failing => VerdictMove(h, i)
         case Vanished => VerdictMove(h, i)
         case _ => DeliveryMove(h, i)
  }

  /** What a request that meets all of these does until it ends, and how it ends; None when they do not end it. */
  function Ending(h: Handler, inputs: seq<Input>): Option<(seq<Event>, Handler)>
    decreases |inputs|
  {
    if h.pc.Done? then if inputs == [] then Some(([], h)) else None
    else if inputs == [] then None
    else match Advance(h, inputs[0])
         case None => None
         case Some((ev, next)) =>
           match Ending(next, inputs[1..])
           case None => None
           case Some((evs, end)) => Some(([ev] + evs, end))
  }

  // ---------------------------------------------------------------- exactly the machine's steps

  lemma OpeningIff(h: Handler, ev: Event, next: Handler)
    requires h.pc == WaitSlot || h.pc == Selecting || h.pc == Beginning || h.pc == Top
    ensures OpeningStep(h, ev, next) || EndStep(h, ev, next)
       <==> exists i: Input :: OpeningMove(h, i) == Some((ev, next))
  {
    hide Bound, Restart, Validate;
    match h.pc
    case WaitSlot => SlotIff(h, ev, next);
    case Selecting => SelectIff(h, ev, next);
    case Beginning => LookIff(h, ev, next);
    case Top => AskIff(h, ev, next);
  }

  lemma SlotIff(h: Handler, ev: Event, next: Handler)
    requires h.pc == WaitSlot
    ensures OpeningStep(h, ev, next) || EndStep(h, ev, next)
       <==> exists i: Input :: OpeningMove(h, i) == Some((ev, next))
  {
    hide Restart;
    assert OpeningMove(h, Slot(true)) == Some((Quiet, Restart(h)));
    assert OpeningMove(h, Slot(false)) == Ends(h, None);
  }

  lemma SelectIff(h: Handler, ev: Event, next: Handler)
    requires h.pc == Selecting
    ensures OpeningStep(h, ev, next) || EndStep(h, ev, next)
       <==> exists i: Input :: OpeningMove(h, i) == Some((ev, next))
  {
    if OpeningStep(h, ev, next) || EndStep(h, ev, next) {
      var i := SelectedFor(h, ev, next);
    }
    if i: Input :| OpeningMove(h, i) == Some((ev, next)) {
      SelectLeads(h, i, ev, next);
    }
  }

  lemma SelectLeads(h: Handler, i: Input, ev: Event, next: Handler)
    requires h.pc == Selecting && OpeningMove(h, i) == Some((ev, next))
    ensures OpeningStep(h, ev, next) || EndStep(h, ev, next)
  {
    assert i.Choice? && SelectMove(h, i.devices, i.shown, i.answer) == Some((ev, next));
    SelectEnds(h, i.devices, i.shown, i.answer, ev, next);
    hide SelectMove;
    if next.pc.Done? {
      assert EndStep(h, ev, next);
    } else {
      assert OpeningStep(h, ev, next);
    }
  }

  lemma SelectEnds(h: Handler, devices: seq<Device>, shown: bool, answer: Answer, ev: Event, next: Handler)
    requires h.pc == Selecting && SelectMove(h, devices, shown, answer) == Some((ev, next))
    ensures ev == Quiet
    ensures if next.pc.Done? then next == h.(pc := next.pc) && next.pc.code in {None, Some(1), Some(2)}
            else SelectStep(h, next)
  {
    hide Bound;
    if next.pc == Beginning {
      ChosenIs(h, next.device, next);
    }
  }

  lemma ChosenIs(h: Handler, d: Device, next: Handler)
    requires d.connection != "" && next == h.(pc := Beginning, device := d, id := Bound(h.setup.base, d.connection))
    ensures SelectStep(h, next)
  {
    hide Bound;
  }

  lemma SelectedFor(h: Handler, ev: Event, next: Handler) returns (i: Input)
    requires h.pc == Selecting && (OpeningStep(h, ev, next) || EndStep(h, ev, next))
    ensures OpeningMove(h, i) == Some((ev, next))
  {
    hide Bound;
    if next.pc.Done? && EndStep(h, ev, next) {
      i := Choice([], next.pc.code != Some(2), if next.pc.code == None then Lost else Cancel);
    } else if next == h {
      i := Choice([], true, Change);
    } else {
      i := Choice([next.device], true, Lost);
    }
  }

  lemma LookIff(h: Handler, ev: Event, next: Handler)
    requires h.pc == Beginning
    ensures OpeningStep(h, ev, next) || EndStep(h, ev, next)
       <==> exists i: Input :: OpeningMove(h, i) == Some((ev, next))
  {
    if OpeningStep(h, ev, next) {
      if h.setup.eligible {
        assert OpeningMove(h, Looked(ev.op.answer, ev.op.now, ev.op.later)) == Some((ev, next));
      } else {
        assert OpeningMove(h, Nothing) == Some((ev, next));
      }
    }
  }

  lemma AskIff(h: Handler, ev: Event, next: Handler)
    requires h.pc == Top
    ensures OpeningStep(h, ev, next) || EndStep(h, ev, next)
       <==> exists i: Input :: OpeningMove(h, i) == Some((ev, next))
  {
    if OpeningStep(h, ev, next) || EndStep(h, ev, next) {
      var i := AskedFor(h, ev, next);
    }
    if i: Input :| OpeningMove(h, i) == Some((ev, next)) {
      AskLeads(h, i, ev, next);
    }
  }

  lemma AskLeads(h: Handler, i: Input, ev: Event, next: Handler)
    requires h.pc == Top && OpeningMove(h, i) == Some((ev, next))
    ensures OpeningStep(h, ev, next) || EndStep(h, ev, next)
  {
    hide Validate, Restart;
    if i.answer.Submit? && !i.gone && h.value == [] && i.shown && Validate(i.answer.value) {
      assert TopStep(h, Typed(h, i.answer.value, i.answer.remember));
    }
  }

  lemma AskedFor(h: Handler, ev: Event, next: Handler) returns (i: Input)
    requires h.pc == Top && (OpeningStep(h, ev, next) || EndStep(h, ev, next))
    ensures OpeningMove(h, i) == Some((ev, next))
  {
    ZeroIsRefused();
    hide Validate, Restart;
    if next.pc.Done? && EndStep(h, ev, next) {
      i := if next.pc.code == None then Asked(true, true, Lost)
           else Asked(false, next.pc.code == Some(1), Cancel);
    } else if h.value != [] {
      i := Asked(false, true, Lost);
    } else if next == h {
      i := Asked(false, true, Submit([0], false));
    } else if h.setup.verify && next == Restart(h) {
      i := Asked(false, true, Change);
    } else {
      i := Asked(false, true, Submit(next.value, next.remember));
    }
  }

  lemma ZeroIsRefused()
    ensures !Validate([0])
  {
  }

  lemma TryingIff(h: Handler, ev: Event, next: Handler)
    requires h.pc in {CheckBefore, Rebegin, Probing, Dropping, Verifying}
    ensures TryingStep(h, ev, next) || EndStep(h, ev, next)
       <==> exists i: Input :: !i.Latched? && TryingMove(h, i) == Some((ev, next))
  {
    if TryingStep(h, ev, next) || EndStep(h, ev, next) {
      var i := TryingFor(h, ev, next);
    }
  }

  lemma TryingFor(h: Handler, ev: Event, next: Handler) returns (i: Input)
    requires h.pc in {CheckBefore, Rebegin, Probing, Dropping, Verifying}
    requires TryingStep(h, ev, next) || EndStep(h, ev, next)
    ensures !i.Latched? && TryingMove(h, i) == Some((ev, next))
  {
    match h.pc
    case CheckBefore => i := if h.candidate.generation == 0 then Nothing else Checked(ev.op.ok, ev.op.now);
    case Rebegin => i := Looked(ev.op.answer, ev.op.now, ev.op.later);
    case Probing => i := Probed(next.pc != Dropping, next.pc == Verifying);
    case Dropping => i := Nothing;
    case Verifying => i := Verdict(ev.trial.status);
  }

  lemma VerdictIff(h: Handler, ev: Event, next: Handler)
    requires h.pc in {Judging, CheckAfter, Rejecting, Retrying, Failing, Vanished}
    requires h.pc in {Judging, Retrying} ==> h.trial.Some?
    ensures VerdictStep(h, ev, next) || EndStep(h, ev, next)
       ==> exists i: Input :: !i.Latched? && VerdictMove(h, i) == Some((ev, next))
    ensures (exists i: Input :: VerdictMove(h, i) == Some((ev, next)))
       ==> VerdictStep(h, ev, next) || EndStep(h, ev, next)
  {
    if VerdictStep(h, ev, next) || EndStep(h, ev, next) {
      var i := VerdictFor(h, ev, next);
    }
  }

  lemma VerdictFor(h: Handler, ev: Event, next: Handler) returns (i: Input)
    requires h.pc in {Judging, CheckAfter, Rejecting, Retrying, Failing, Vanished}
    requires h.pc in {Judging, Retrying} ==> h.trial.Some?
    requires VerdictStep(h, ev, next) || EndStep(h, ev, next)
    ensures !i.Latched? && VerdictMove(h, i) == Some((ev, next))
  {
    match h.pc
    case Judging => i := Context(next.pc == Done(None));
    case CheckAfter => i := if h.candidate.generation == 0 then Nothing else Checked(ev.op.ok, ev.op.now);
    case Retrying => i := if h.setup.eligible then Looked(ev.op.answer, ev.op.now, ev.op.later) else Nothing;
    case Failing => i := Shown(next.pc == Done(Some(1)));
    case _ => i := Nothing;
  }

  lemma DeliveryIff(h: Handler, ev: Event, next: Handler)
    requires h.pc in {Closing, Sending, Awaiting, Storing}
    ensures DeliveryStep(h, ev, next) || EndStep(h, ev, next)
       <==> exists i: Input :: !i.Latched? && DeliveryMove(h, i) == Some((ev, next))
  {
    if DeliveryStep(h, ev, next) || EndStep(h, ev, next) {
      var i := DeliveryFor(h, ev, next);
    }
  }

  lemma DeliveryFor(h: Handler, ev: Event, next: Handler) returns (i: Input)
    requires h.pc in {Closing, Sending, Awaiting, Storing}
    requires DeliveryStep(h, ev, next) || EndStep(h, ev, next)
    ensures !i.Latched? && DeliveryMove(h, i) == Some((ev, next))
  {
    hide Unchanged, FileShown;
    match h.pc
    case Closing => i := Context(next.pc == Done(None));
    case Sending => i := Shown(next.pc == Awaiting);
    case Awaiting => i := Acked(next.pc == Storing, next.found);
    case Storing => i := if ev.Cache? && ev.op.Commit? then Stored(ev.op.ok, ev.op.now, ev.op.later) else Nothing;
  }

  lemma OneGroup(h: Handler, ev: Event, next: Handler)
    ensures h.pc in {WaitSlot, Selecting, Beginning, Top} ==>
              (HandlerStep(h, ev, next) <==> OpeningStep(h, ev, next) || EndStep(h, ev, next))
    ensures h.pc in {CheckBefore, Rebegin, Probing, Dropping, Verifying} ==>
              (HandlerStep(h, ev, next) <==> TryingStep(h, ev, next) || EndStep(h, ev, next))
    ensures h.pc in {Judging, CheckAfter, Rejecting, Retrying, Failing, Vanished} ==>
              (HandlerStep(h, ev, next) <==> VerdictStep(h, ev, next) || EndStep(h, ev, next))
    ensures h.pc in {Closing, Sending, Awaiting, Storing} ==>
              (HandlerStep(h, ev, next) <==> DeliveryStep(h, ev, next) || EndStep(h, ev, next))
  {
    hide EndStep, SelectStep, BeginStep, TopStep, VersionStep, RebeginStep, RejectStep, RetryStep, JudgeStep, StoreStep;
  }

  /** The steps of the machine are those the request takes on meeting something, and no others. */
  lemma StepIff(h: Handler, ev: Event, next: Handler)
    requires !h.pc.Done? && (h.pc in {Judging, Retrying} ==> h.trial.Some?)
    ensures HandlerStep(h, ev, next) <==> exists i: Input :: !i.Latched? && Advance(h, i) == Some((ev, next))
  {
    OneGroup(h, ev, next);
    AdvanceIs(h);
    if h.pc in {WaitSlot, Selecting, Beginning, Top} { OpeningIff(h, ev, next); }
    else if h.pc in {CheckBefore, Rebegin, Probing, Dropping, Verifying} { TryingIff(h, ev, next); }
    else if h.pc in {Judging, CheckAfter, Rejecting, Retrying, Failing, Vanished} { VerdictIff(h, ev, next); }
    else { DeliveryIff(h, ev, next); }
    hide HandlerStep, OpeningStep, TryingStep, VerdictStep, DeliveryStep, EndStep, Advance;
    hide OpeningMove, TryingMove, VerdictMove, DeliveryMove;
  }

  lemma AdvanceIs(h: Handler)
    requires !h.pc.Done?
    ensures h.pc in {WaitSlot, Selecting, Beginning, Top} ==>
              forall i: Input | !i.Latched? :: Advance(h, i) == OpeningMove(h, i)
    ensures h.pc in {WaitSlot, Selecting, Beginning, Top} ==> OpeningMove(h, Latched) == None
    ensures h.pc in {CheckBefore, Rebegin, Probing, Dropping, Verifying} ==>
              forall i: Input | !i.Latched? :: Advance(h, i) == TryingMove(h, i)
    ensures h.pc in {Judging, CheckAfter, Rejecting, Retrying, Failing, Vanished} ==>
              forall i: Input | !i.Latched? :: Advance(h, i) == VerdictMove(h, i)
    ensures h.pc in {Closing, Sending, Awaiting, Storing} ==>
              forall i: Input | !i.Latched? :: Advance(h, i) == DeliveryMove(h, i)
  {
    hide TryingMove, VerdictMove, DeliveryMove, SelectMove, LookMove, AskMove;
  }

  // ---------------------------------------------------------------- result codes

  /** What the last thing met tells about the end: 2 when a window could not be shown; 1 when the user gave up, had
      cancelled or was told of an error; 0 after the answer was stored or needed no storing; and nothing at all when
      the connection was gone. */
  predicate CodeFits(i: Input, code: Option<nat>) {
    match code
    case None =>
      || i == Slot(false) || (i.Choice? && i.shown && i.answer.Lost?) || (i.Asked? && (i.gone || i.answer.Lost?))
      || (i.Probed? && i.present && !i.shown) || i == Context(true) || i == Shown(false) || (i.Acked? && !i.ok)
    case Some(c) =>
      if c == 0 then i.Stored? || i.Nothing?
      else if c == 1 then
        || (i.Choice? && (i.shown || |i.devices| == 1)) || (i.Asked? && i.shown && !i.gone)
        || i.Context? || i == Shown(true) || i.Nothing?
      else c == 2 && ((i.Choice? && !i.shown) || (i.Asked? && !i.shown && !i.gone) || i == Shown(false))
  }

  lemma OpeningFits(h: Handler, i: Input, ev: Event, next: Handler)
    requires OpeningMove(h, i) == Some((ev, next)) && next.pc.Done? && !h.pc.Done?
    ensures CodeFits(i, next.pc.code)
  {
    if h.pc == Selecting {
      SelectFits(h, i.devices, i.shown, i.answer);
    } else if h.pc == Top {
      AskFits(h, i.gone, i.shown, i.answer);
    }
    hide SelectMove, AskMove;
  }

  lemma SelectFits(h: Handler, devices: seq<Device>, shown: bool, answer: Answer)
    requires h.pc == Selecting
    ensures var m := SelectMove(h, devices, shown, answer);
            m.Some? && (m.value.1.pc.Done? ==> CodeFits(Choice(devices, shown, answer), m.value.1.pc.code))
  {
    hide Bound;
  }

  lemma AskFits(h: Handler, gone: bool, shown: bool, answer: Answer)
    requires h.pc == Top
    ensures var m := AskMove(h, gone, shown, answer);
            m.Some? && (m.value.1.pc.Done? ==> CodeFits(Asked(gone, shown, answer), m.value.1.pc.code))
  {
    hide Validate;
  }

  lemma TryingFits(h: Handler, i: Input, ev: Event, next: Handler)
    requires TryingMove(h, i) == Some((ev, next)) && next.pc.Done? && !h.pc.Done?
    ensures CodeFits(i, next.pc.code)
  {
  }

  lemma VerdictFits(h: Handler, i: Input, ev: Event, next: Handler)
    requires VerdictMove(h, i) == Some((ev, next)) && next.pc.Done? && !h.pc.Done?
    ensures CodeFits(i, next.pc.code)
  {
  }

  lemma DeliveryFits(h: Handler, i: Input, ev: Event, next: Handler)
    requires DeliveryMove(h, i) == Some((ev, next)) && next.pc.Done? && !h.pc.Done?
    ensures CodeFits(i, next.pc.code)
  {
    hide Unchanged, FileShown;
  }

  lemma EndFits(h: Handler, i: Input, ev: Event, next: Handler)
    requires Advance(h, i) == Some((ev, next)) && next.pc.Done?
    ensures CodeFits(i, next.pc.code)
  {
    assert !i.Latched? && !h.pc.Done? by { NoLatch(h, i, ev, next); }
    AdvanceIs(h);
    hide Advance, OpeningMove, TryingMove, VerdictMove, DeliveryMove, CodeFits;
    if h.pc in {WaitSlot, Selecting, Beginning, Top} { OpeningFits(h, i, ev, next); }
    else if h.pc in {CheckBefore, Rebegin, Probing, Dropping, Verifying} { TryingFits(h, i, ev, next); }
    else if h.pc in {Closing, Sending, Awaiting, Storing} { DeliveryFits(h, i, ev, next); }
    else { VerdictFits(h, i, ev, next); }
  }

  lemma NoLatch(h: Handler, i: Input, ev: Event, next: Handler)
    requires Advance(h, i) == Some((ev, next)) && next.pc.Done?
    ensures !i.Latched? && !h.pc.Done?
  {
    hide OpeningMove, TryingMove, VerdictMove, DeliveryMove;
  }

  /** Every request that ends does so with the code its last meeting calls for. */
  lemma {:induction false} CodesFit(h: Handler, inputs: seq<Input>)
    requires !h.pc.Done? && Ending(h, inputs).Some?
    ensures inputs != [] && Ending(h, inputs).value.1.pc.Done?
    ensures CodeFits(inputs[|inputs| - 1], Ending(h, inputs).value.1.pc.code)
    decreases |inputs|
  {
    hide Advance, CodeFits;
    var ev, next := Advance(h, inputs[0]).value.0, Advance(h, inputs[0]).value.1;
    if next.pc.Done? {
      EndFits(h, inputs[0], ev, next);
      assert inputs[1..] == [];
    } else {
      CodesFit(next, inputs[1..]);
    }
  }

  // ---------------------------------------------------------------- values

  /** The values the user submits and the cache hands out among these inputs. */
  function Given(inputs: seq<Input>): set<seq<byte>>
    decreases |inputs|
  {
    if inputs == [] then {}
    else
      var first := inputs[0];
      Given(inputs[1..]) + if first.Asked? && first.answer.Submit? then {first.answer.value}
                           else if first.Looked? then {first.r.secret} else {}
  }

  predicate Uses(ev: Event, known: set<seq<byte>>) {
    && (ev.Check? ==> ev.trial.value in known)
    && (ev.Cache? && ev.op.Commit? ==> ev.op.secret in known)
  }

  lemma OpeningUses(h: Handler, i: Input, known: set<seq<byte>>)
    requires OpeningMove(h, i).Some? && h.value in known && [] in known
    ensures var (ev, next) := OpeningMove(h, i).value; Uses(ev, known) && next.value in known + Given([i])
  {
    GivenOne(i);
    hide Given, Validate, Bound;
  }

  lemma TryingUses(h: Handler, i: Input, known: set<seq<byte>>)
    requires TryingMove(h, i).Some? && h.value in known && [] in known
    ensures var (ev, next) := TryingMove(h, i).value; Uses(ev, known) && next.value in known + Given([i])
  {
    GivenOne(i);
    hide Given, DeviceStamp;
  }

  lemma VerdictUses(h: Handler, i: Input, known: set<seq<byte>>)
    requires VerdictMove(h, i).Some? && h.value in known && [] in known
    ensures var (ev, next) := VerdictMove(h, i).value; Uses(ev, known) && next.value in known + Given([i])
  {
    GivenOne(i);
    hide Given, DeviceStamp;
  }

  lemma DeliveryUses(h: Handler, i: Input, known: set<seq<byte>>)
    requires DeliveryMove(h, i).Some? && h.value in known && [] in known
    ensures var (ev, next) := DeliveryMove(h, i).value; Uses(ev, known) && next.value in known + Given([i])
  {
    GivenOne(i);
    hide Given, Unchanged, FileShown;
  }

  lemma OneUses(h: Handler, i: Input, known: set<seq<byte>>)
    requires Advance(h, i).Some? && h.value in known && [] in known
    ensures var (ev, next) := Advance(h, i).value;
            Uses(ev, known) && next.value in known + Given([i])
  {
    GivenOne(i);
    NotOver(h, i);
    if i.Latched? {
      LatchTaken(h);
    } else {
      AdvanceIs(h);
      hide Advance, OpeningMove, TryingMove, VerdictMove, DeliveryMove, Given, Uses;
      if h.pc in {WaitSlot, Selecting, Beginning, Top} { OpeningUses(h, i, known); }
      else if h.pc in {CheckBefore, Rebegin, Probing, Dropping, Verifying} { TryingUses(h, i, known); }
      else if h.pc in {Closing, Sending, Awaiting, Storing} { DeliveryUses(h, i, known); }
      else { VerdictUses(h, i, known); }
    }
    hide Advance;
  }

  lemma NotOver(h: Handler, i: Input)
    requires Advance(h, i).Some?
    ensures !h.pc.Done?
  {
    hide OpeningMove, TryingMove, VerdictMove, DeliveryMove;
  }

  lemma LatchTaken(h: Handler)
    requires !h.pc.Done?
    ensures Advance(h, Latched) == Some((Quiet, h.(cancelled := true)))
  {
    hide OpeningMove, TryingMove, VerdictMove, DeliveryMove;
  }

  lemma GivenOne(i: Input)
    ensures Given([i]) == if i.Asked? && i.answer.Submit? then {i.answer.value}
                          else if i.Looked? then {i.r.secret} else {}
  {
    assert [i][1..] == [];
  }

  lemma GivenMore(inputs: seq<Input>)
    requires inputs != []
    ensures Given(inputs) == Given([inputs[0]]) + Given(inputs[1..])
  {
    GivenOne(inputs[0]);
  }

  /** What is tried on a device, committed or delivered is, byte for byte, what the user submitted or the cache handed
      out. */
  lemma {:induction false} ValuesAreGiven(h: Handler, inputs: seq<Input>, known: set<seq<byte>>)
    requires Ending(h, inputs).Some? && h.value in known && [] in known
    ensures var (evs, end) := Ending(h, inputs).value;
            && (forall e | e in evs :: Uses(e, known + Given(inputs)))
            && end.value in known + Given(inputs)
    decreases |inputs|
  {
    hide Advance, Given;
    if !h.pc.Done? {
      var ev, next := Advance(h, inputs[0]).value.0, Advance(h, inputs[0]).value.1;
      OneUses(h, inputs[0], known);
      GivenMore(inputs);
      ValuesAreGiven(next, inputs[1..], known + Given([inputs[0]]));
    }
  }
}
