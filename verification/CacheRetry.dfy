/** Retry protection of file-based keys over whole runs. */
module CacheRetry {
  import opened Askpass
  import opened CacheIdentity
  import opened CacheModel
  import opened CacheInvariant
  import opened CacheHistory

  /** The operation makes, or renews, the record that this caller asked for this key. */
  predicate Asks(op: Op, sk: SeenKey) {
    op.Begin? && SeenKey(op.caller, op.id.key) == sk && !TurnedAway(op.answer)
  }

  predicate StoresFor(op: Op, sk: SeenKey) {
    Stores(op) && SeenKey(op.caller, op.id.key) == sk
  }

  predicate Buries(op: Op, sk: SeenKey) {
    op.Sweep? && !op.alive(sk.caller)
  }

  /** How one step changes the retry record of a file-based key. */
  lemma SeenStep(s: State, op: Op, t: State, sk: SeenKey)
    requires Inv(s) && Step(s, op, t) && !AgentPIN(sk.key)
    ensures Asks(op, sk) ==> sk in t.seen && t.seen[sk] == op.answer.generation
    ensures StoresFor(op, sk) ==>
              sk in s.seen && sk in t.seen && sk.key in t.entries && t.seen[sk] == t.entries[sk.key].generation
    ensures Buries(op, sk) ==> sk !in t.seen
    ensures !Asks(op, sk) && !StoresFor(op, sk) && !Buries(op, sk) ==>
              (sk in t.seen <==> sk in s.seen) && (sk in s.seen ==> t.seen[sk] == s.seen[sk])
  {
    hide Inv, AgentPIN, BeginAfter, CommitAfter, Swept, Expired;
    match op {
      case Begin(_, _, _, _, _) => BeginSeenStep(s, op, t, sk);
      case Current(_, _, now, _) => ExpireSeen(s, now, t);
      case Reject(_, _) =>
      case Commit(_, _, _, _, _, _, _) => CommitSeenStep(s, op, t, sk);
      case Forget(_) =>
      case Sweep(_, _) => SweepSeenStep(s, op, t, sk);
    }
  }

  lemma ExpireSeen(s: State, now: int, m: State)
    requires Expired(s, now, m)
    ensures m.seen == s.seen
  {
  }

  lemma BeginSeenStep(s: State, op: Op, t: State, sk: SeenKey)
    requires Inv(s) && op.Begin? && Step(s, op, t) && !AgentPIN(sk.key)
    ensures if Asks(op, sk) then sk in t.seen && t.seen[sk] == op.answer.generation
            else (sk in t.seen <==> sk in s.seen) && (sk in s.seen ==> t.seen[sk] == s.seen[sk])
  {
    hide Step, Inv, Expired, AgentPIN, LeasedEntries, Live, IsRetry;
    var m := BeginVia(s, op, t);
    ExpireSeen(s, op.now, m);
  }

  lemma CommitSeenStep(s: State, op: Op, t: State, sk: SeenKey)
    requires Inv(s) && op.Commit? && Step(s, op, t) && !AgentPIN(sk.key)
    ensures if StoresFor(op, sk)
            then sk in s.seen && sk in t.seen && sk.key in t.entries && t.seen[sk] == t.entries[sk.key].generation
            else (sk in t.seen <==> sk in s.seen) && (sk in s.seen ==> t.seen[sk] == s.seen[sk])
  {
    hide Inv, Expired, AgentPIN, Validate;
    var m :| Expired(s, op.now, m)
          && (t, op.ok) == CommitAfter(m, op.token, op.id, op.caller, op.secret, op.later);
    ExpireSeen(s, op.now, m);
    ExpireKeeps(s, op.now, m);
    if op.token in m.tickets {
      TicketIsSeen(m, op.token);
    }
  }

  lemma SweepSeenStep(s: State, op: Op, t: State, sk: SeenKey)
    requires op.Sweep? && Step(s, op, t)
    ensures sk in t.seen <==> sk in s.seen && !Buries(op, sk)
    ensures sk in t.seen ==> t.seen[sk] == s.seen[sk]
  {
    hide Expired;
    var m :| Expired(s, op.now, m) && t == Swept(m, op.alive);
    ExpireSeen(s, op.now, m);
  }

  // ---------------------------------------------------------------- one candidate per caller

  lemma {:induction false} RecordPersists(states: seq<State>, ops: seq<Op>, i: nat, j: nat, sk: SeenKey)
    requires Run(states, ops) && i <= j < |states| && !AgentPIN(sk.key) && sk in states[i].seen
    requires forall m | i <= m < j :: !Buries(ops[m], sk)
    ensures sk in states[j].seen
    decreases j
  {
    hide Inv, Step, AgentPIN, Asks, StoresFor, Buries;
    if i < j {
      RecordPersists(states, ops, i, j - 1, sk);
      Reachable(states, ops, j - 1);
      SeenStep(states[j - 1], ops[j - 1], states[j], sk);
    }
  }

  /** After a caller's first tracked request for a file-based key, and until it is found dead, no later
      request of it for that key is given a cached credential, whatever happened to the file in between. */
  lemma OneCandidatePerCaller(states: seq<State>, ops: seq<Op>, i: nat, j: nat, sk: SeenKey)
    requires Run(states, ops) && i < j < |ops| && !AgentPIN(sk.key)
    requires Asks(ops[i], sk) && ops[j].Begin? && SeenKey(ops[j].caller, ops[j].id.key) == sk
    requires forall m | i < m < j :: !Buries(ops[m], sk)
    ensures ops[j].answer.secret == [] && (TurnedAway(ops[j].answer) || ops[j].answer.reason == Retry)
  {
    hide Inv, Step, AgentPIN, Expired, LeasedEntries;
    Reachable(states, ops, i);
    SeenStep(states[i], ops[i], states[i + 1], sk);
    RecordPersists(states, ops, i + 1, j, sk);
    Reachable(states, ops, j);
    var m := BeginVia(states[j], ops[j], states[j + 1]);
    ExpireSeen(states[j], ops[j].now, m);
  }

  /** Agent fingerprint keys never enter the retry records. */
  lemma AgentLeavesNoRecord(states: seq<State>, ops: seq<Op>, j: nat)
    requires Run(states, ops) && j < |ops| && ops[j].Begin? && AgentPIN(ops[j].id.key)
    ensures states[j + 1].seen == states[j].seen
    ensures forall c: string :: SeenKey(c, ops[j].id.key) !in states[j].seen
  {
    hide Step, Expired, LeasedEntries, ValidFingerprint;
    Reachable(states, ops, j);
    var m := BeginVia(states[j], ops[j], states[j + 1]);
    ExpireSeen(states[j], ops[j].now, m);
  }

  // ---------------------------------------------------------------- what a retry erases

  /** ops[i] handed version g of this key to this caller, or was the Commit by which the caller stored it. */
  ghost predicate Got(states: seq<State>, ops: seq<Op>, i: nat, sk: SeenKey, g: nat)
    requires |states| == |ops| + 1 && i < |ops|
  {
    || (Asks(ops[i], sk) && ops[i].answer.secret != [] && ops[i].answer.generation == g)
    || (StoresFor(ops[i], sk) && sk.key in states[i + 1].entries && states[i + 1].entries[sk.key].generation == g)
  }

  /** A nonzero record is a version this caller once got. */
  lemma {:induction false} RecordOrigin(states: seq<State>, ops: seq<Op>, j: nat, sk: SeenKey) returns (i: nat)
    requires Run(states, ops) && j < |states| && !AgentPIN(sk.key)
    requires sk in states[j].seen && states[j].seen[sk] != 0
    ensures i < j && Got(states, ops, i, sk, states[j].seen[sk])
  {
    hide Inv, Step, AgentPIN, Buries;
    Reachable(states, ops, j - 1);
    SeenStep(states[j - 1], ops[j - 1], states[j], sk);
    if Asks(ops[j - 1], sk) {
      NonzeroIsHit(states[j - 1], ops[j - 1], states[j]);
      i := j - 1;
    } else if StoresFor(ops[j - 1], sk) {
      i := j - 1;
    } else {
      i := RecordOrigin(states, ops, j - 1, sk);
    }
  }

  lemma NonzeroIsHit(s: State, op: Op, t: State)
    requires Inv(s) && op.Begin? && Step(s, op, t) && op.answer.generation != 0
    ensures op.answer.secret != []
  {
    hide Step, Inv, Expired, AgentPIN, LeasedEntries, IsRetry;
    var m := BeginVia(s, op, t);
  }

  /** While the version a caller got is still there, the caller's record (if any) names it. */
  lemma {:induction false} RecordNamesIt(states: seq<State>, ops: seq<Op>, i: nat, j: nat, sk: SeenKey, g: nat)
    requires Run(states, ops) && i < j < |states| && !AgentPIN(sk.key) && Got(states, ops, i, sk, g)
    requires sk.key in states[j].entries && states[j].entries[sk.key].generation == g
    requires states[j].entries[sk.key].secret != []
    ensures sk in states[j].seen ==> states[j].seen[sk] == g
    decreases j
  {
    hide Inv, Step, AgentPIN, Buries;
    Reachable(states, ops, j - 1);
    SeenStep(states[j - 1], ops[j - 1], states[j], sk);
    if i + 1 < j {
      GotIsOld(states, ops, i, sk, g);
      SeqnoGrows(states, ops, i + 1, j - 1);
      OldEntry(states, ops, j - 1, j, sk.key);
      RecordNamesIt(states, ops, i, j - 1, sk, g);
      RecordStep(states[j - 1], ops[j - 1], states[j], sk, g);
    }
  }

  lemma GotIsOld(states: seq<State>, ops: seq<Op>, i: nat, sk: SeenKey, g: nat)
    requires Run(states, ops) && i < |ops| && Got(states, ops, i, sk, g)
    ensures g <= states[i + 1].seqno
  {
    hide Inv, Step, AgentPIN;
    Reachable(states, ops, i);
    Reachable(states, ops, i + 1);
    if Asks(ops[i], sk) && ops[i].answer.secret != [] {
      HitFacts(states[i], ops[i], states[i + 1]);
    }
    InvEntry(states[i + 1], sk.key);
  }

  /** One step: a caller whose record names the surviving version keeps such a record. */
  lemma RecordStep(s: State, op: Op, t: State, sk: SeenKey, g: nat)
    requires Inv(s) && Step(s, op, t) && !AgentPIN(sk.key) && g <= s.seqno
    requires sk.key in t.entries && t.entries[sk.key].generation == g && t.entries[sk.key].secret != []
    requires sk.key in s.entries && s.entries[sk.key] == t.entries[sk.key]
    requires sk in s.seen ==> s.seen[sk] == g
    ensures sk in t.seen ==> t.seen[sk] == g
  {
    hide Inv, Step, AgentPIN, Expired;
    SeenStep(s, op, t, sk);
    if Asks(op, sk) {
      var m := BeginVia(s, op, t);
      ExpireSeen(s, op.now, m);
      assert m.seqno >= g by { ExpireKeeps(s, op.now, m); hide Inv, Expired, NoNewSecrets; }
    }
  }

  /** A retry over an unchanged file erases the live entry exactly when it is a version this caller was
      handed or stored itself, so never another caller's newer answer. */
  lemma RetryErasesIff(states: seq<State>, ops: seq<Op>, j: nat)
    requires Run(states, ops) && j < |ops| && ops[j].Begin? && ops[j].answer.reason == Retry
    requires Live(states[j], ops[j].id) && ops[j].now < states[j].entries[ops[j].id.key].expires
    ensures ops[j].id.key in states[j + 1].entries
    ensures var sk := SeenKey(ops[j].caller, ops[j].id.key);
            var before, after := states[j].entries[sk.key], states[j + 1].entries[sk.key];
            if exists i :: 0 <= i < j && Got(states, ops, i, sk, before.generation)
            then after.secret == [] && after.generation != before.generation
            else after == before
  {
    hide Inv, Step, AgentPIN, Expired, Got;
    var sk := SeenKey(ops[j].caller, ops[j].id.key);
    var e := states[j].entries[sk.key];
    Reachable(states, ops, j);
    InvEntry(states[j], sk.key);
    var m := BeginVia(states[j], ops[j], states[j + 1]);
    NotOverdue(states[j], ops[j].now, m, sk.key);
    ExpireSeen(states[j], ops[j].now, m);
    if i :| 0 <= i < j && Got(states, ops, i, sk, e.generation) {
      RecordNamesIt(states, ops, i, j, sk, e.generation);
    } else if states[j].seen[sk] == e.generation {
      var i := RecordOrigin(states, ops, j, sk);
    }
  }

  lemma NotOverdue(s: State, now: int, m: State, k: Key)
    requires Expired(s, now, m) && k in s.entries && now < s.entries[k].expires
    ensures k in m.entries && m.entries[k] == s.entries[k] && s.seqno <= m.seqno
  {
  }
}
