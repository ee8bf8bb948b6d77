/** The popup code in its own form: a mailbox set in place and a pass over it, as moves of the protocol. */
module PopupsClass {
  import opened Text
  import opened PopupsModel
  import opened PopupsInvariant
  import opened PopupsSafety

  /** Where the moves lead from s, None when one of them is not possible. */
  function Played(s: System, moves: seq<Move>): Option<System>
    decreases |moves|
  {
    if moves == [] then Some(s)
    else match Played(s, moves[..|moves| - 1])
         case None => None
         case Some(m) => if Can(m, moves[|moves| - 1]) then Some(Do(m, moves[|moves| - 1])) else None
  }

  lemma PlayOn(s: System, moves: seq<Move>, m: System, move: Move)
    requires Played(s, moves) == Some(m) && Can(m, move)
    ensures Played(s, moves + [move]) == Some(Do(m, move))
  {
    hide Can, Do;
    assert (moves + [move])[..|moves|] == moves;
  }

  /** What setters and workers do, as opposed to Run. */
  predicate Outside(m: Move) {
    m.TurnOn? || m.TurnOff? || m.Signal? || m.Finish?
  }

  function Turn(path: string, on: bool): Move {
    if on then TurnOn(path) else TurnOff(path)
  }

  function MovesOf(news: seq<seq<Move>>): set<Move> {
    set b, m | b in news && m in b :: m
  }

  /** The moves lead from start to s, and those of setters and workers are among the news. */
  ghost predicate Along(start: System, moves: seq<Move>, s: System, all: set<Move>) {
    Played(start, moves) == Some(s) && Core(s) && forall m | m in moves && Outside(m) :: m in all
  }

  lemma Onward(start: System, moves: seq<Move>, s: System, all: set<Move>, move: Move)
    requires Along(start, moves, s, all) && Can(s, move) && (Outside(move) ==> move in all)
    ensures Along(start, moves + [move], Do(s, move), all)
  {
    hide Played, Core, Can, Do;
    PlayOn(start, moves, s, move);
    CoreKept(s, move);
  }

  lemma Outset(s: System, all: set<Move>)
    requires Core(s)
    ensures Along(s, [], s, all)
  {
    hide Core;
  }

  /** The fields of TouchPopups with the locals of Run; `signals` counts the calls that have changed something
      and not signalled yet. The ghost fields are what the protocol adds. */
  class TouchPopups {
    var desired: map<string, nat>
    var epoch: nat
    var wake: bool
    var signals: nat
    var view: map<string, nat>
    var popups: map<string, nat>
    var finished: map<string, nat>
    var workers: seq<Worker>
    ghost var phase: Phase
    ghost var owner: map<nat, string>

    ghost function Now(): System
      reads this
    {
      System(desired, epoch, wake, signals, phase, view, popups, finished, workers, owner)
    }

    constructor ()
      ensures Now() == Begun()
    {
      desired, epoch, wake, signals := map[], 0, false, 0;
      view, popups, finished, workers := map[], map[], map[], [];
      phase, owner := Idle, map[];
    }

    /** A setter's change under the lock. */
    method Change(path: string, active: bool)
      modifies `desired, `epoch, `signals, `owner
      ensures Now() == Do(old(Now()), Turn(path, active))
    {
      if active {
        if path !in desired && |desired| < MAX_DEVICES {
          epoch := epoch + 1;
          desired := desired[path := epoch];
          owner := owner[epoch := path];
        }
      } else {
        desired := desired - {path};
      }
      signals := signals + 1;
    }

    /** One call is the change under the lock, then the signal. */
    method SetTouch(path: string, active: bool)
      modifies this
      ensures var m := Turn(path, active);
              Can(old(Now()), m) && Can(Do(old(Now()), m), Signal)
              && Now() == Do(Do(old(Now()), m), Signal)
    {
      Change(path, active);
      hide SetOn;
      signals, wake := signals - 1, true;
    }

    /** A setter or a worker makes its move if it can. */
    method Perform(move: Move) returns (ghost did: bool)
      modifies `desired, `epoch, `wake, `workers, `signals, `owner
      ensures did <==> Outside(move) && Can(old(Now()), move)
      ensures Now() == if did then Do(old(Now()), move) else old(Now())
    {
      did := Outside(move) && Can(Now(), move);
      match move
      case TurnOn(path) => Change(path, true);
      case TurnOff(path) => Change(path, false);
      case Signal =>
        if signals > 0 { signals, wake := signals - 1, true; }
      case Finish(i) =>
        if i < |workers| && !workers[i].done {
          workers, signals := workers[i := workers[i].(done := true)], signals + 1;
        }
      case _ =>
    }

    /** What setters and workers do between two steps of Run. */
    method Meanwhile(news: seq<seq<Move>>, ghost all: set<Move>, ghost moves0: seq<Move>, ghost start: System)
      returns (rest: seq<seq<Move>>, ghost moves: seq<Move>)
      requires Along(start, moves0, Now(), all) && MovesOf(news) <= all
      modifies `desired, `epoch, `wake, `workers, `signals, `owner
      ensures Along(start, moves, Now(), all) && MovesOf(rest) <= all
    {
      hide Along, Do, Can;
      rest, moves := news, moves0;
      if news == [] { return; }
      rest := news[1..];
      for i := 0 to |news[0]|
        invariant Along(start, moves, Now(), all)
      {
        ghost var was := Now();
        ghost var did := Perform(news[0][i]);
        if did {
          assert news[0] in news && news[0][i] in news[0];
          Onward(start, moves, was, all, news[0][i]);
          moves := moves + [news[0][i]];
        }
      }
    }

    method TakeCopy()
      requires phase == Woken
      modifies `view, `phase
      ensures Now() == Do(old(Now()), Copy)
    {
      view, phase := desired, Reaping(popups.Keys);
    }

    /** Records of devices no longer desired are dropped. */
    method ForgetFinished()
      requires phase == Reaping({})
      modifies `finished, `phase
      ensures Now() == Do(old(Now()), Prune)
    {
      var todo := finished.Keys;
      ghost var before := finished;
      while todo != {}
        invariant todo <= finished.Keys <= before.Keys
        invariant forall p | p in finished :: finished[p] == before[p]
        invariant forall p | p in before && p !in todo :: p in finished <==> p in view
        decreases todo
      {
        var path :| path in todo;
        todo := todo - {path};
        if path !in view {
          finished := finished - {path};
        }
      }
      assert finished == map p | p in before && p in view :: before[p];
      phase := Starting(view.Keys);
    }

    /** What Run does between one wake-up and the next, whatever setters and workers do meanwhile: a sequence of
        the protocol's moves that goes through every popup and every device of the copy, in which all moves of
        setters and workers are their own. */
    method Reconcile(news: seq<seq<Move>>) returns (ghost moves: seq<Move>)
      requires Core(Now()) && phase == Woken
      modifies this
      ensures Along(old(Now()), moves, Now(), MovesOf(news)) && phase == Idle
    {
      ghost var start, all := Now(), MovesOf(news);
      Outset(start, all);
      hide *;
      var rest;
      rest, moves := Collect(news, all, start);
      rest, moves := Start(rest, all, moves, start);
      moves := Finish(all, moves, start);
    }

    /** The copy under the lock, the first loop and the records. */
    method Collect(news: seq<seq<Move>>, ghost all: set<Move>, ghost start: System)
      returns (rest: seq<seq<Move>>, ghost moves: seq<Move>)
      requires Along(start, [], Now(), all) && phase == Woken && MovesOf(news) <= all
      modifies this
      ensures Along(start, moves, Now(), all) && MovesOf(rest) <= all && phase == Starting(view.Keys)
    {
      hide Along, Do, MovesOf;
      rest, moves := Meanwhile(news, all, [], start);
      Onward(start, moves, Now(), all, Copy);
      CopyIs(Now());
      moves := moves + [Copy];
      TakeCopy();
      rest, moves := Reap(rest, all, moves, start);
      Onward(start, moves, Now(), all, Prune);
      PruneIs(Now());
      moves := moves + [Prune];
      ForgetFinished();
    }

    method Finish(ghost all: set<Move>, ghost moves0: seq<Move>, ghost start: System) returns (ghost moves: seq<Move>)
      requires Along(start, moves0, Now(), all) && phase == Starting({})
      modifies `phase
      ensures Along(start, moves, Now(), all) && phase == Idle
    {
      Onward(start, moves0, Now(), all, Rest);
      hide Along;
      phase := Idle;
      moves := moves0 + [Rest];
    }

    /** The first loop: cancel what is unwanted, collect what is done. */
    method Reap(news: seq<seq<Move>>, ghost all: set<Move>, ghost moves0: seq<Move>, ghost start: System)
      returns (rest: seq<seq<Move>>, ghost moves: seq<Move>)
      requires Along(start, moves0, Now(), all) && MovesOf(news) <= all && phase == Reaping(popups.Keys)
      modifies `desired, `epoch, `wake, `workers, `signals, `owner, `popups, `finished, `phase
      ensures Along(start, moves, Now(), all) && MovesOf(rest) <= all && phase == Reaping({})
    {
      hide Along, Do, MovesOf;
      rest, moves := news, moves0;
      var todo := popups.Keys;
      while todo != {}
        invariant Along(start, moves, Now(), all) && MovesOf(rest) <= all
        invariant phase == Reaping(todo) && todo <= popups.Keys
        decreases todo
      {
        rest, moves := Meanwhile(rest, all, moves, start);
        var path :| path in todo;
        PopupThere(start, moves, Now(), all, path);
        Onward(start, moves, Now(), all, Visit(path));
        moves := moves + [Visit(path)];
        todo := todo - {path};
        ReapOne(path);
      }
    }

    method ReapOne(path: string)
      requires Can(Now(), Visit(path))
      modifies `popups, `finished, `workers, `phase
      ensures Now() == Do(old(Now()), Visit(path))
      ensures popups.Keys >= old(popups.Keys) - {path} && phase == Reaping(old(phase).todo - {path})
    {
      var i := popups[path];
      var w := workers[i];
      if path !in view || view[path] != w.epoch {
        workers := workers[i := w.(cancelled := true)];
      }
      if w.done {
        finished := finished[path := w.epoch];
        popups := popups - {path};
      }
      phase := Reaping(phase.todo - {path});
      assert workers == Do(old(Now()), Visit(path)).workers;
    }

    /** The last loop: a worker for every episode of the copy that has none and has not ended. */
    method Start(news: seq<seq<Move>>, ghost all: set<Move>, ghost moves0: seq<Move>, ghost start: System)
      returns (rest: seq<seq<Move>>, ghost moves: seq<Move>)
      requires Along(start, moves0, Now(), all) && MovesOf(news) <= all && phase == Starting(view.Keys)
      modifies `desired, `epoch, `wake, `workers, `signals, `owner, `popups, `phase
      ensures Along(start, moves, Now(), all) && MovesOf(rest) <= all && phase == Starting({})
    {
      hide Along, Do, MovesOf;
      rest, moves := news, moves0;
      var todo := view.Keys;
      while todo != {}
        invariant Along(start, moves, Now(), all) && MovesOf(rest) <= all
        invariant phase == Starting(todo) && todo <= view.Keys
        decreases todo
      {
        rest, moves := Meanwhile(rest, all, moves, start);
        var path :| path in todo;
        Onward(start, moves, Now(), all, Launch(path));
        moves := moves + [Launch(path)];
        todo := todo - {path};
        StartOne(path);
      }
    }

    method StartOne(path: string)
      requires Can(Now(), Launch(path))
      modifies `popups, `workers, `phase
      ensures Now() == Do(old(Now()), Launch(path)) && phase == Starting(old(phase).todo - {path})
    {
      var want := view[path];
      if !(path in popups || (if path in finished then finished[path] else 0) == want || |popups| >= MAX_DEVICES) {
        popups := popups[path := |workers|];
        workers := workers + [Worker(path, want, false, false)];
      }
      phase := Starting(phase.todo - {path});
    }
  }

  lemma CopyIs(s: System)
    requires Can(s, Copy)
    ensures Do(s, Copy).phase == Reaping(s.popups.Keys) && Do(s, Copy).popups == s.popups
  {
  }

  lemma PruneIs(s: System)
    requires Can(s, Prune)
    ensures Do(s, Prune).phase == Starting(s.view.Keys) && Do(s, Prune).view == s.view
  {
  }

  lemma PopupThere(start: System, moves: seq<Move>, s: System, all: set<Move>, path: string)
    requires Along(start, moves, s, all) && path in s.popups
    ensures s.popups[path] < |s.workers|
  {
  }
}
