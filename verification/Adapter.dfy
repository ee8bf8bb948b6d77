/** The askpass adapter (App.Run, internal/app/app.go; WriteResponse, internal/askpass/protocol.go). */
module AdapterModel {
  import opened Text
  import opened Askpass

  /** Frames from the service; Foreign stands for another protocol version. */
  datatype Frame =
    | Accepted(notify: bool) | Result(code: nat, secret: seq<byte>, secretResponse: bool)
    | Complete | Other | Foreign

  datatype Place =
    | Reading | Writing(secret: seq<byte>, secretResponse: bool) | Acknowledging | Finishing | Exited(code: nat)

  /** `out` is what standard output has taken, `answer` the response the adapter set out to print. */
  datatype Adapter = Adapter(place: Place, notify: bool, out: seq<byte>, answer: Option<seq<byte>>)

  /** What the adapter meets next: a frame or the end of the connection, with whether its own context
      is cancelled and whether the deadline could be set; the outcome of one write; whether the
      acknowledgment went out. */
  datatype Input =
    | Read(frame: Frame, cancelled: bool, deadlineSet: bool) | Broken(cancelled: bool)
    | Wrote(n: nat, failed: bool) | Acked(sent: bool)

  const LF: byte := 10

  function Line(value: seq<byte>): seq<byte> {
    value + [LF]
  }

  function Launched(): Adapter {
    Adapter(Reading, false, [], None)
  }

  function ReadFrame(a: Adapter, frame: Frame, cancelled: bool, deadlineSet: bool): Adapter {
    match frame
    case Foreign => a.(place := Exited(2))
    case Accepted(notify) => a.(notify := notify, place := if deadlineSet then Reading else Exited(2))
    case Result(code, secret, secretResponse) =>
      if code != 0 then a.(place := Exited(code))
      else if cancelled then a.(place := Exited(1))
      else if !Validate(secret) then a.(place := Exited(2))
      else a.(place := Writing(secret, secretResponse), answer := Some(secret))
    case _ => a
  }

  /** One step of the adapter; None when the input cannot come now. */
  function Adapt(a: Adapter, e: Input): Option<Adapter> {
    match (a.place, e)
    case (Reading, Read(frame, cancelled, deadlineSet)) => Some(ReadFrame(a, frame, cancelled, deadlineSet))
    case (Reading, Broken(cancelled)) =>
      Some(a.(place := Exited(if !cancelled then 2 else if a.notify then 0 else 1)))
    case (Writing(secret, secretResponse), Wrote(n, failed)) =>
      if n > |Line(secret)| then None
      else Some(a.(out := a.out + Line(secret)[..n],
                   place := if failed || n != |Line(secret)| then Exited(2)
                            else if secretResponse then Acknowledging else Exited(0)))
    case (Acknowledging, Acked(sent)) => Some(a.(place := if sent then Finishing else Exited(0)))
    case (Finishing, Read(frame, _, _)) => Some(if frame == Complete then a.(place := Exited(0)) else a)
    case (Finishing, Broken(_)) => Some(a.(place := Exited(0)))
    case _ => None
  }

  /** Where a sequence of inputs leads. */
  function Adapted(a: Adapter, inputs: seq<Input>): Option<Adapter>
    decreases |inputs|
  {
    if inputs == [] then Some(a)
    else match Adapted(a, inputs[..|inputs| - 1])
         case None => None
         case Some(b) => Adapt(b, inputs[|inputs| - 1])
  }

  /** Standard output holds nothing or the start of the one response, and success means a whole response
      or a notification whose requester went away. */
  predicate AdapterOk(a: Adapter) {
    match a.place
    case Reading => a.out == [] && a.answer == None
    case Writing(secret, _) => a.out == [] && a.answer == Some(secret) && Validate(secret)
    case Acknowledging => a.answer.Some? && Validate(a.answer.value) && a.out == Line(a.answer.value)
    case Finishing => a.answer.Some? && Validate(a.answer.value) && a.out == Line(a.answer.value)
    case Exited(code) =>
      && (a.answer == None ==> a.out == [])
      && (a.answer.Some? ==> a.out <= Line(a.answer.value) && Validate(a.answer.value))
      && (code == 0 ==> if a.answer.Some? then a.out == Line(a.answer.value) else a.notify)
  }

  lemma AdaptKeeps(a: Adapter, e: Input)
    requires AdapterOk(a) && Adapt(a, e).Some?
    ensures AdapterOk(Adapt(a, e).value)
  {
    hide Validate;
  }

  lemma {:induction false} AdapterAlwaysOk(inputs: seq<Input>)
    requires Adapted(Launched(), inputs).Some?
    ensures AdapterOk(Adapted(Launched(), inputs).value)
  {
    hide AdapterOk, Adapt;
    if inputs != [] {
      AdapterAlwaysOk(inputs[..|inputs| - 1]);
      AdaptKeeps(Adapted(Launched(), inputs[..|inputs| - 1]).value, inputs[|inputs| - 1]);
    } else {
      LaunchedOk();
    }
  }

  lemma LaunchedOk()
    ensures AdapterOk(Launched())
  {
  }

  /** What an exit with zero stands for: a whole response was printed, or a notification was cancelled. */
  ghost predicate Succeeded(inputs: seq<Input>, a: Adapter) {
    || (a.answer.Some? && a.out == Line(a.answer.value))
    || (a.out == [] && a.notify && inputs != [] && inputs[|inputs| - 1] == Broken(true))
  }

  lemma {:induction false} LastInput(inputs: seq<Input>)
    requires Adapted(Launched(), inputs).Some? && Adapted(Launched(), inputs).value.place == Exited(0)
    ensures Succeeded(inputs, Adapted(Launched(), inputs).value)
  {
    AdapterAlwaysOk(inputs);
    if inputs != [] {
      AdapterAlwaysOk(inputs[..|inputs| - 1]);
    }
    hide Validate;
  }

  lemma AnswerStays(a: Adapter, e: Input)
    requires AdapterOk(a) && Adapt(a, e).Some?
    ensures a.answer.Some? ==> Adapt(a, e).value.answer == a.answer
    ensures a.out <= Adapt(a, e).value.out
  {
    hide Validate;
  }

  /** At most one response: once chosen it is never replaced, and what is printed is never taken back. */
  lemma {:induction false} OneAnswer(inputs: seq<Input>, n: nat)
    requires Adapted(Launched(), inputs).Some? && n <= |inputs|
    ensures Adapted(Launched(), inputs[..n]).Some?
    ensures var a, b := Adapted(Launched(), inputs[..n]).value, Adapted(Launched(), inputs).value;
            (a.answer.Some? ==> b.answer == a.answer) && a.out <= b.out
    decreases |inputs|
  {
    hide Adapt;
    if n == |inputs| {
      assert inputs[..n] == inputs;
    } else {
      var init := inputs[..|inputs| - 1];
      assert init[..n] == inputs[..n];
      OneAnswer(init, n);
      AdapterAlwaysOk(init);
      AnswerStays(Adapted(Launched(), init).value, inputs[|inputs| - 1]);
    }
  }

  /** The adapter stops as soon as it has exited. */
  lemma NothingAfterExit(inputs: seq<Input>, n: nat)
    requires Adapted(Launched(), inputs).Some? && n <= |inputs|
    requires Adapted(Launched(), inputs[..n]).Some? && Adapted(Launched(), inputs[..n]).value.place.Exited?
    ensures n == |inputs|
  {
    assert n < |inputs| ==> inputs[..n + 1][..n] == inputs[..n];
    if n < |inputs| {
      Earlier(inputs, n + 1);
    }
  }

  lemma {:induction false} Earlier(inputs: seq<Input>, n: nat)
    requires Adapted(Launched(), inputs).Some? && n <= |inputs|
    ensures Adapted(Launched(), inputs[..n]).Some?
    decreases |inputs|
  {
    hide Adapt;
    if n == |inputs| {
      assert inputs[..n] == inputs;
    } else {
      assert inputs[..|inputs| - 1][..n] == inputs[..n];
      Earlier(inputs[..|inputs| - 1], n);
    }
  }

  /** A nonzero result ends the adapter with that code and nothing printed. */
  lemma NonzeroIsSilent(inputs: seq<Input>, i: nat)
    requires Adapted(Launched(), inputs).Some? && i < |inputs|
    requires inputs[i].Read? && inputs[i].frame.Result? && inputs[i].frame.code != 0
    requires Adapted(Launched(), inputs[..i]).Some? && Adapted(Launched(), inputs[..i]).value.place == Reading
    ensures i == |inputs| - 1
    ensures var a := Adapted(Launched(), inputs).value; a.place == Exited(inputs[i].frame.code) && a.out == []
  {
    assert inputs[..i + 1][..i] == inputs[..i];
    AdapterAlwaysOk(inputs[..i]);
    hide Validate;
    Earlier(inputs, i + 1);
    NothingAfterExit(inputs, i + 1);
    assert inputs[..i + 1] == inputs;
  }
}

/** The adapter's code in its own form. */
module AdapterClass {
  import opened Text
  import opened Askpass
  import opened AdapterModel

  /** Standard output: how much of a write it takes, and whether it reports an error. */
  datatype Output = Output(room: nat, broken: bool) {
    function Takes(length: nat): nat {
      if room < length then room else length
    }

    predicate Whole(length: nat) {
      length <= room && !broken
    }
  }

  class Writer {
    const output: Output
    var taken: seq<byte>

    constructor (output: Output)
      ensures this.output == output && taken == []
    {
      this.output, taken := output, [];
    }

    method Write(buf: array<byte>) returns (n: nat, failed: bool)
      modifies this
      ensures n == output.Takes(buf.Length) && failed == output.broken && taken == old(taken) + buf[..n]
    {
      n, failed := output.Takes(buf.Length), output.broken;
      taken := taken + buf[..n];
    }
  }

  /** Prints one validated response and a line feed, and wipes its buffer; it succeeds if and only if the response is
      valid and the output takes all of it without an error. */
  method WriteResponse(w: Writer, value: seq<byte>) returns (n: nat, failed: bool, ghost wiped: array<byte>)
    modifies w
    ensures fresh(wiped) && forall i | 0 <= i < wiped.Length :: wiped[i] == 0
    ensures n == if Validate(value) then w.output.Takes(|value| + 1) else 0
    ensures w.taken == old(w.taken) + Line(value)[..n]
    ensures !failed <==> Validate(value) && w.output.Whole(|value| + 1)
  {
    if !Validate(value) {
      n, failed := 0, true;
      wiped := new byte[0];
      return;
    }
    var buf := new byte[|value| + 1];
    for i := 0 to |value|
      invariant w.taken == old(w.taken) && forall j | 0 <= j < i :: buf[j] == value[j]
    {
      buf[i] := value[i];
    }
    buf[|value|] := LF;
    assert buf[..] == Line(value);
    n, failed := w.Write(buf);
    assert buf[..n] == buf[..][..n] == Line(value)[..n];
    failed := failed || n != buf.Length;
    for i := 0 to buf.Length
      invariant forall j | 0 <= j < i :: buf[j] == 0
      invariant w.taken == old(w.taken) + Line(value)[..n]
    {
      buf[i] := 0;
    }
    wiped := buf;
  }

  /** What happens around one frame: whether reading fails, and whether the context is cancelled, the
      deadline is set and the acknowledgment goes out. */
  datatype Turn = Turn(frame: Option<Frame>, cancelled: bool, deadlineSet: bool, acked: bool)

  function Next(turns: seq<Turn>, i: nat): Turn {
    if i < |turns| then turns[i] else Turn(None, false, false, false)
  }

  /** What reading brings in one turn. */
  function Brought(t: Turn): Input {
    if t.frame == None then Broken(t.cancelled) else Read(t.frame.value, t.cancelled, t.deadlineSet)
  }

  /** The readings among the inputs. */
  function Readings(inputs: seq<Input>): seq<Input> {
    if inputs == [] then []
    else Readings(inputs[..|inputs| - 1])
         + if inputs[|inputs| - 1].Read? || inputs[|inputs| - 1].Broken? then [inputs[|inputs| - 1]] else []
  }

  /** What the first n turns bring. */
  function FirstTurns(turns: seq<Turn>, n: nat): seq<Input> {
    if n == 0 then [] else FirstTurns(turns, n - 1) + [Brought(Next(turns, n - 1))]
  }

  /** The inputs are what the first n turns bring, in order, with the writes and acknowledgments between them. */
  predicate Fed(inputs: seq<Input>, turns: seq<Turn>, n: nat) {
    Readings(inputs) == FirstTurns(turns, n)
  }

  lemma FedOn(inputs: seq<Input>, turns: seq<Turn>, n: nat, e: Input)
    requires Fed(inputs, turns, n)
    ensures e == Brought(Next(turns, n)) ==> Fed(inputs + [e], turns, n + 1)
    ensures !e.Read? && !e.Broken? ==> Fed(inputs + [e], turns, n)
  {
    assert (inputs + [e])[..|inputs|] == inputs;
    assert Readings(inputs) + [] == Readings(inputs);
  }

  /** A frame the adapter reads on after. */
  predicate Passes(t: Turn) {
    t.frame.Some? && ((t.frame.value.Accepted? && t.deadlineSet) || t.frame.value.Complete? || t.frame.value.Other?)
  }

  /** The first turn from i on that ends the reading. */
  function Decisive(turns: seq<Turn>, i: nat): nat
    requires i <= |turns|
    decreases |turns| - i
  {
    if Passes(Next(turns, i)) then Decisive(turns, i + 1) else i
  }

  /** Whether the request has been accepted as a notification before turn i. */
  predicate Notifying(turns: seq<Turn>, i: nat) {
    i > 0 &&
    var t := Next(turns, i - 1);
    if t.frame.Some? && t.frame.value.Accepted? then t.frame.value.notify else Notifying(turns, i - 1)
  }

  /** The decisive turn brings a response to print. */
  predicate Answers(t: Turn) {
    t.frame.Some? && t.frame.value.Result? && t.frame.value.code == 0 && !t.cancelled && Validate(t.frame.value.secret)
  }

  /** What a user of the adapter sees: 0 if a whole response was printed, or when a notification is cancelled; the
      service's own code if it gave one; 1 for other cancellations; 2 for everything else. */
  function ExitCode(turns: seq<Turn>, output: Output): nat {
    var i := Decisive(turns, 0);
    var t := Next(turns, i);
    if Answers(t) then if output.Whole(|t.frame.value.secret| + 1) then 0 else 2
    else if t.frame.Some? && t.frame.value.Result? && t.frame.value.code != 0 then t.frame.value.code
    else if t.frame.Some? && !t.frame.value.Result? then 2
    else if !t.cancelled then 2
    else if t.frame == None && Notifying(turns, i) then 0 else 1
  }

  function Printed(turns: seq<Turn>, output: Output): seq<byte> {
    var t := Next(turns, Decisive(turns, 0));
    if Answers(t) then Line(t.frame.value.secret)[..output.Takes(|t.frame.value.secret| + 1)] else []
  }

  /** Run from the first frame on; the connection breaks after the given turns. The exit code and the
      output are where the adapter's steps lead with exactly what the turns bring. */
  method Run(out: Writer, turns: seq<Turn>) returns (code: nat, ghost inputs: seq<Input>)
    modifies out
    ensures exists n: nat :: Fed(inputs, turns, n)
    ensures var a := Adapted(Launched(), inputs);
            a.Some? && a.value.place == Exited(code) && out.taken == old(out.taken) + a.value.out
    ensures code == ExitCode(turns, out.output) && out.taken == old(out.taken) + Printed(turns, out.output)
  {
    hide Adapted, Validate, Fed, Readings, FirstTurns;
    inputs := [];
    ghost var a := Launched();
    StartsLaunched(turns);
    var notify := false;
    var i := 0;
    while true
      invariant Adapted(Launched(), inputs) == Some(a) && Fed(inputs, turns, i)
      invariant a == Adapter(Reading, notify, [], None) && out.taken == old(out.taken)
      invariant i <= |turns| && Decisive(turns, 0) == Decisive(turns, i) && notify == Notifying(turns, i)
      decreases |turns| - i
    {
      var turn := Next(turns, i);
      FedOn(inputs, turns, i, Brought(turn));
      i := i + 1;
      if turn.frame == None {
        code := if turn.cancelled then if notify then 0 else 1 else 2;
        inputs, a := Step(a, inputs, Broken(turn.cancelled), a.(place := Exited(code)));
        return;
      }
      ghost var e := Read(turn.frame.value, turn.cancelled, turn.deadlineSet);
      match turn.frame.value {
        case Foreign =>
          code := 2;
          inputs, a := Step(a, inputs, e, a.(place := Exited(2)));
          return;
        case Accepted(n) =>
          notify := n;
          if !turn.deadlineSet {
            code := 2;
            inputs, a := Step(a, inputs, e, a.(notify := n, place := Exited(2)));
            return;
          }
          inputs, a := Step(a, inputs, e, a.(notify := n));
        case Result(c, secret, secretResponse) =>
          if c != 0 {
            code := c;
            inputs, a := Step(a, inputs, e, a.(place := Exited(c)));
            return;
          }
          if turn.cancelled {
            code := 1;
            inputs, a := Step(a, inputs, e, a.(place := Exited(1)));
            return;
          }
          code, inputs := Respond(out, secret, secretResponse, turns, i, turn.acked, inputs, a, e);
          return;
        case _ =>
          inputs, a := Step(a, inputs, e, a);
      }
    }
  }

  lemma StartsLaunched(turns: seq<Turn>)
    ensures Adapted(Launched(), []) == Some(Launched()) && Fed([], turns, 0)
  {
  }

  lemma Step(a: Adapter, inputs: seq<Input>, e: Input, b: Adapter) returns (more: seq<Input>, next: Adapter)
    requires Adapted(Launched(), inputs) == Some(a) && Adapt(a, e) == Some(b)
    ensures more == inputs + [e] && next == b && Adapted(Launched(), more) == Some(b)
  {
    hide Adapt;
    more, next := inputs + [e], b;
    assert more[..|inputs|] == inputs;
  }

  /** Print the response, acknowledge it if it is secret, and wait until the service is done. */
  method Respond(out: Writer, secret: seq<byte>, secretResponse: bool, turns: seq<Turn>, start: nat, acked: bool,
                 ghost before: seq<Input>, ghost a0: Adapter, ghost e: Input)
    returns (code: nat, ghost inputs: seq<Input>)
    requires Adapted(Launched(), before) == Some(a0) && a0.place == Reading && a0.out == []
    requires e.Read? && e.frame == Result(0, secret, secretResponse) && !e.cancelled
    requires Fed(before + [e], turns, start)
    modifies out
    ensures exists n: nat :: Fed(inputs, turns, n)
    ensures var a := Adapted(Launched(), inputs);
            a.Some? && a.value.place == Exited(code) && out.taken == old(out.taken) + a.value.out
    ensures code == if Validate(secret) && out.output.Whole(|secret| + 1) then 0 else 2
    ensures out.taken == old(out.taken)
                         + if Validate(secret) then Line(secret)[..out.output.Takes(|secret| + 1)] else []
  {
    hide Adapted, Validate, Fed;
    ghost var a;
    var n, failed;
    ghost var wiped;
    n, failed, wiped := WriteResponse(out, secret);
    if !Validate(secret) {
      inputs, a := Step(a0, before, e, a0.(place := Exited(2)));
      code := 2;
      return;
    }
    inputs, a := Step(a0, before, e, a0.(place := Writing(secret, secretResponse), answer := Some(secret)));
    FedOn(inputs, turns, start, Wrote(n, failed));
    ghost var done := a.(out := a.out + Line(secret)[..n]);
    assert [] + Line(secret)[..n] == Line(secret)[..n];
    if failed {
      inputs, a := Step(a, inputs, Wrote(n, true), done.(place := Exited(2)));
      code := 2;
      return;
    }
    if !secretResponse {
      inputs, a := Step(a, inputs, Wrote(n, false), done.(place := Exited(0)));
      code := 0;
      return;
    }
    inputs, a := Step(a, inputs, Wrote(n, false), done.(place := Acknowledging));
    FedOn(inputs, turns, start, Acked(acked));
    if !acked {
      inputs, a := Step(a, inputs, Acked(false), done.(place := Exited(0)));
      code := 0;
      return;
    }
    inputs, a := Step(a, inputs, Acked(true), done.(place := Finishing));
    code, inputs := AwaitDone(turns, start, inputs, a);
  }

  /** The last loop: every frame is dropped until the service is done or gone. */
  method AwaitDone(turns: seq<Turn>, start: nat, ghost before: seq<Input>, ghost a: Adapter)
    returns (code: nat, ghost inputs: seq<Input>)
    requires Adapted(Launched(), before) == Some(a) && a.place == Finishing && Fed(before, turns, start)
    ensures exists n: nat :: Fed(inputs, turns, n)
    ensures code == 0 && Adapted(Launched(), inputs) == Some(a.(place := Exited(0)))
  {
    hide Adapted, Validate, Fed;
    inputs := before;
    var i := start;
    ghost var b := a;
    while true
      invariant Adapted(Launched(), inputs) == Some(a) && b == a && Fed(inputs, turns, i)
      decreases |turns| - i
    {
      var turn := Next(turns, i);
      FedOn(inputs, turns, i, Brought(turn));
      i := i + 1;
      if turn.frame == None {
        inputs, b := Step(a, inputs, Broken(turn.cancelled), a.(place := Exited(0)));
        return 0, inputs;
      }
      ghost var e := Read(turn.frame.value, turn.cancelled, turn.deadlineSet);
      if turn.frame.value == Complete {
        inputs, b := Step(a, inputs, e, a.(place := Exited(0)));
        return 0, inputs;
      }
      inputs, b := Step(a, inputs, e, a);
    }
  }
}
