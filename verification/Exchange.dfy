/** One request and its adapter together: Service.Handle at one end of a connection, App.Run at the other. */
module Exchange {
  import opened Text
  import Askpass
  import H = HandleModel
  import S = HandleSafety
  import opened AdapterModel

  /** `down` carries frames to the adapter, `up` counts acknowledgments on their way to the service. */
  datatype Pair = Pair(h: H.Handler, a: Adapter, down: seq<Frame>, up: nat)

  /** What the service's side sends in a step of the request. */
  predicate Sends(h: H.Handler, next: H.Handler, frames: seq<Frame>) {
    if h.pc == H.Sending && next.pc == H.Awaiting then frames == [Result(0, h.value, true)]
    else if next.pc == H.Done(Some(0)) then frames == [Complete] || frames == []
    else if next.pc.Done? && next.pc.code.Some? then frames == [Result(next.pc.code.value, [], false)] || frames == []
    else frames == []
  }

  datatype Move =
    | Serve(ev: H.Event, next: H.Handler, frames: seq<Frame>)
    | Trace
    | CancelUI
    | Advance(e: Input, delivered: bool)

  /** The acknowledgment is received with the step from waiting to storing. */
  predicate Receives(h: H.Handler, next: H.Handler) {
    h.pc == H.Awaiting && next.pc == H.Storing
  }

  /** A failed acknowledgment may still have reached the service. */
  predicate Delivers(e: Input, delivered: bool) {
    delivered ==> e.Acked?
  }

  ghost predicate Moves(p: Pair, m: Move, q: Pair) {
    match m
    case Serve(ev, next, frames) =>
      && H.HandlerStep(p.h, ev, next) && Sends(p.h, next, frames)
      && (Receives(p.h, next) ==> p.up > 0)
      && q == p.(h := next, down := p.down + frames, up := if Receives(p.h, next) then p.up - 1 else p.up)
    case Trace => q == p.(down := p.down + [Other])
    case CancelUI => q == p.(h := p.h.(cancelled := true))
    case Advance(e, delivered) =>
      && Adapt(p.a, e).Some? && Delivers(e, delivered)
      && (e.Read? ==> p.down != [] && p.down[0] == e.frame)
      && q == p.(a := Adapt(p.a, e).value, down := if e.Read? then p.down[1..] else p.down,
                 up := if delivered then p.up + 1 else p.up)
  }

  /** An input request: it has been accepted, and it is no notification. */
  function Begun(setup: H.Setup): Pair {
    Pair(H.Initial(setup), Launched(), [Accepted(false)], 0)
  }

  ghost predicate Run(ps: seq<Pair>, moves: seq<Move>) {
    && |ps| == |moves| + 1 && ps[0] == Begun(ps[0].h.setup)
    && forall i | 0 <= i < |moves| :: Moves(ps[i], moves[i], ps[i + 1])
  }

  // ---------------------------------------------------------------- what every move keeps

  /** The response has been sent. */
  predicate Released(h: H.Handler) {
    h.pc == H.Awaiting || h.pc == H.Storing || h.pc.Done?
  }

  predicate FrameOk(h: H.Handler, f: Frame) {
    && (f.Result? && f.code == 0 ==> Released(h) && f == Result(0, h.value, true))
    && (f.Accepted? ==> !f.notify)
  }

  predicate FramesOk(h: H.Handler, down: seq<Frame>) {
    forall i | 0 <= i < |down| :: FrameOk(h, down[i])
  }

  /** The adapter has printed the request's answer and its line feed in full. */
  predicate Printed(p: Pair) {
    p.a.answer == Some(p.h.value) && p.a.out == Line(p.h.value)
  }

  predicate PairOk(p: Pair) {
    && AdapterOk(p.a) && !p.a.notify
    && FramesOk(p.h, p.down)
    && (p.a.answer.Some? ==> Released(p.h) && p.a.answer.value == p.h.value)
    && (p.up > 0 || p.h.pc == H.Storing || p.h.pc == H.Done(Some(0)) ==> Printed(p))
  }

  /** Once sent, the answer stays what it was; only an acknowledgment leads on to storing, and storing to success. */
  lemma SentStays(h: H.Handler, ev: H.Event, next: H.Handler)
    requires H.HandlerStep(h, ev, next)
    ensures Released(h) ==> Released(next) && next.value == h.value
    ensures next.pc == H.Storing ==> h.pc == H.Awaiting
    ensures next.pc == H.Done(Some(0)) ==> h.pc == H.Storing
    ensures next.pc == H.Awaiting ==> h.pc == H.Sending && next.value == h.value
  {
    hide H.StoreStep, H.RetryStep, H.JudgeStep, H.VersionStep, H.RebeginStep, H.SelectStep, H.BeginStep, H.TopStep,
         H.RejectStep, H.DeliveryStep, H.VerdictStep, H.TryingStep, H.OpeningStep;
    if H.DeliveryStep(h, ev, next) {
      DeliveryStays(h, ev, next);
    } else if H.VerdictStep(h, ev, next) {
      VerdictStays(h, ev, next);
    } else if H.TryingStep(h, ev, next) {
      TryingStays(h, ev, next);
    } else if H.OpeningStep(h, ev, next) {
      OpeningStays(h, ev, next);
    }
  }

  predicate Early(next: H.Handler) {
    next.pc != H.Storing && next.pc != H.Awaiting && !next.pc.Done?
  }

  lemma DeliveryStays(h: H.Handler, ev: H.Event, next: H.Handler)
    requires H.DeliveryStep(h, ev, next)
    ensures next.value == h.value && next.pc != H.Done(None)
    ensures Released(h) ==> Released(next)
    ensures next.pc == H.Storing ==> h.pc == H.Awaiting
    ensures next.pc == H.Done(Some(0)) ==> h.pc == H.Storing
    ensures next.pc == H.Awaiting ==> h.pc == H.Sending
  {
  }

  lemma VerdictStays(h: H.Handler, ev: H.Event, next: H.Handler)
    requires H.VerdictStep(h, ev, next)
    ensures !Released(h) && Early(next)
  {
  }

  lemma TryingStays(h: H.Handler, ev: H.Event, next: H.Handler)
    requires H.TryingStep(h, ev, next)
    ensures !Released(h) && Early(next)
  {
  }

  lemma OpeningStays(h: H.Handler, ev: H.Event, next: H.Handler)
    requires H.OpeningStep(h, ev, next)
    ensures !Released(h) && Early(next)
  {
  }

  lemma ServeKeeps(p: Pair, ev: H.Event, next: H.Handler, frames: seq<Frame>, q: Pair)
    requires PairOk(p) && Moves(p, Serve(ev, next, frames), q)
    ensures PairOk(q)
  {
    hide H.HandlerStep, AdapterOk;
    SentStays(p.h, ev, next);
    ServeFrames(p, ev, next, frames, q);
    hide FramesOk;
  }

  lemma ServeFrames(p: Pair, ev: H.Event, next: H.Handler, frames: seq<Frame>, q: Pair)
    requires PairOk(p) && Moves(p, Serve(ev, next, frames), q)
    ensures FramesOk(q.h, q.down)
  {
    hide H.HandlerStep, AdapterOk;
    SentStays(p.h, ev, next);
    forall i | 0 <= i < |q.down| ensures FrameOk(q.h, q.down[i]) {
      if i < |p.down| { assert FrameOk(p.h, p.down[i]); }
    }
  }

  lemma CancelKeeps(p: Pair, q: Pair)
    requires PairOk(p) && Moves(p, CancelUI, q)
    ensures PairOk(q)
  {
    hide AdapterOk;
    forall i | 0 <= i < |q.down| ensures FrameOk(q.h, q.down[i]) {
      assert FrameOk(p.h, p.down[i]);
    }
  }

  lemma AdapterKeeps(p: Pair, e: Input, delivered: bool, q: Pair)
    requires PairOk(p) && Moves(p, Advance(e, delivered), q)
    ensures PairOk(q)
  {
    AdaptKeeps(p.a, e);
    AnswerIs(p, e, delivered, q);
    hide AdapterOk, Adapt, FrameOk;
  }

  lemma AnswerIs(p: Pair, e: Input, delivered: bool, q: Pair)
    requires PairOk(p) && Moves(p, Advance(e, delivered), q)
    ensures !q.a.notify
    ensures q.a.answer.Some? ==> Released(q.h) && q.a.answer.value == q.h.value
    ensures q.up > 0 || q.h.pc == H.Storing || q.h.pc == H.Done(Some(0)) ==> Printed(q)
  {
    hide Askpass.Validate;
    if e.Read? { assert FrameOk(p.h, p.down[0]); }
    hide FramesOk;
  }

  lemma MovesKeep(p: Pair, m: Move, q: Pair)
    requires PairOk(p) && Moves(p, m, q)
    ensures PairOk(q)
  {
    match m
    case Serve(ev, next, frames) =>
      hide PairOk, Moves;
      ServeKeeps(p, ev, next, frames, q);
    case Trace => TraceKeeps(p, q);
    case CancelUI => CancelKeeps(p, q);
    case Advance(e, delivered) =>
      hide PairOk, Moves;
      AdapterKeeps(p, e, delivered, q);
  }

  lemma TraceKeeps(p: Pair, q: Pair)
    requires PairOk(p) && Moves(p, Trace, q)
    ensures PairOk(q)
  {
    hide AdapterOk;
  }

  lemma {:induction false} PairsOk(ps: seq<Pair>, moves: seq<Move>, n: nat)
    requires Run(ps, moves) && n < |ps|
    ensures PairOk(ps[n])
  {
    hide PairOk, Moves;
    if n == 0 {
      BegunOk(ps[0].h.setup);
    } else {
      PairsOk(ps, moves, n - 1);
      MovesKeep(ps[n - 1], moves[n - 1], ps[n]);
    }
  }

  lemma BegunOk(setup: H.Setup)
    ensures PairOk(Begun(setup))
  {
  }

  // ---------------------------------------------------------------- what the two ends owe each other

  /** A credential is committed only after its exact bytes and one line feed were completely printed. */
  lemma CommittedAfterPrinting(ps: seq<Pair>, moves: seq<Move>, n: nat)
    requires Run(ps, moves) && n < |moves|
    requires moves[n].Serve? && moves[n].ev.Cache? && moves[n].ev.op.Commit?
    ensures ps[n].a.out == Line(moves[n].ev.op.secret) && ps[n].h.remember
  {
    PairsOk(ps, moves, n);
    assert Moves(ps[n], moves[n], ps[n + 1]);
    hide H.HandlerStep, AdapterOk, Run;
    S.CommitSource(ps[n].h, moves[n].ev, moves[n].next);
  }

  /** Success at either end means the answer was printed in full; before it is sent nothing is printed. */
  lemma SuccessMeansPrinted(ps: seq<Pair>, moves: seq<Move>, n: nat)
    requires Run(ps, moves) && n < |ps|
    ensures ps[n].h.pc == H.Done(Some(0)) ==> ps[n].a.out == Line(ps[n].h.value)
    ensures ps[n].a.place == Exited(0) ==> ps[n].a.out == Line(ps[n].h.value) && Released(ps[n].h)
    ensures ps[n].a.out <= Line(ps[n].h.value)
    ensures !Released(ps[n].h) ==> ps[n].a.out == []
  {
    hide Run, Moves;
    PairsOk(ps, moves, n);
  }
}
