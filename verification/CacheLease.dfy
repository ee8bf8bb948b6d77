/** Which leases commit, told from the operations between the look and the commit. */
module CacheLease {
  import opened Askpass
  import opened CacheIdentity
  import opened CacheModel
  import opened CacheInvariant
  import opened CacheHistory
  import opened CacheLife
  import opened CacheRetry

  /** ops[m] ends this version of the entry under k, live or empty: it reaches the expiry of a live one, looks
      under another identity or again for a caller that once got this very version, rejects it by its number,
      commits over it, or forgets its key. */
  ghost predicate EndsVersion(states: seq<State>, ops: seq<Op>, m: nat, k: Key, e: Entry)
    requires |states| == |ops| + 1 && m < |ops|
  {
    || (e.secret != [] && Reaches(ops[m], e))
    || match ops[m]
       case Begin(id, caller, _, _, answer) =>
         && id.key == k && !TurnedAway(answer)
         && (e.identity != id || (answer.reason == Retry && HadIt(states, ops, m, SeenKey(caller, k), e.generation)))
       case Reject(id, g) => id == e.identity && id.key == k && g == e.generation
       case Commit(_, id, _, _, _, _, ok) => ok && id.key == k
       case Forget(key) => Hits(key, k)
       case _ => false
  }

  /** Before ops[m] the caller was handed this version of the key or stored it. */
  ghost predicate HadIt(states: seq<State>, ops: seq<Op>, m: nat, sk: SeenKey, g: nat)
    requires |states| == |ops| + 1 && m <= |ops|
  {
    exists i :: 0 <= i < m && Got(states, ops, i, sk, g)
  }

  // ---------------------------------------------------------------- one operation on an empty entry

  lemma EmptyStep(s: State, op: Op, t: State, k: Key)
    requires Inv(s) && Step(s, op, t) && k in s.entries && s.entries[k].secret == []
    requires op.Sweep? ==> k in t.entries
    ensures Holds(t, k, s.entries[k]) <==> !Targets(s, op, k, s.entries[k])
  {
    hide Inv, Step, Holds, Targets;
    if op.Begin? {
      EmptyBegin(s, op, t, k);
    } else if op.Commit? {
      EmptyCommit(s, op, t, k);
    } else {
      EmptyRest(s, op, t, k);
    }
  }

  lemma EmptyStays(s: State, now: int, m: State, k: Key)
    requires Inv(s) && Expired(s, now, m) && k in s.entries && s.entries[k].secret == []
    ensures Holds(m, k, s.entries[k]) && s.entries[k].generation <= m.seqno && m.seen == s.seen
  {
    InvEntry(s, k);
    hide Inv;
  }

  lemma EmptyBegin(s: State, op: Op, t: State, k: Key)
    requires Inv(s) && op.Begin? && Step(s, op, t) && k in s.entries && s.entries[k].secret == []
    ensures Holds(t, k, s.entries[k]) <==> !Targets(s, op, k, s.entries[k])
  {
    hide Inv, Step, Expired, IsTracked;
    var m := BeginVia(s, op, t);
    EmptyStays(s, op.now, m, k);
    TrackEntries(m, op.id, op.caller, op.answer.generation);
    hide Track;
  }

  lemma EmptyCommit(s: State, op: Op, t: State, k: Key)
    requires Inv(s) && op.Commit? && Step(s, op, t) && k in s.entries && s.entries[k].secret == []
    ensures Holds(t, k, s.entries[k]) <==> !Targets(s, op, k, s.entries[k])
  {
    hide Inv, Expired, Step, CommitAfter;
    var m := CommitVia(s, op, t);
    EmptyStays(s, op.now, m, k);
    EmptyKept(m, op, t, k);
  }

  lemma EmptyKept(m: State, op: Op, t: State, k: Key)
    requires op.Commit? && (t, op.ok) == CommitAfter(m, op.token, op.id, op.caller, op.secret, op.later)
    requires k in m.entries && m.entries[k].generation <= m.seqno
    ensures Holds(t, k, m.entries[k]) <==> !(op.ok && op.id.key == k)
  {
    hide MayCommit;
    KeptEntries(m, op);
    hide Keep;
  }

  lemma EmptyRest(s: State, op: Op, t: State, k: Key)
    requires Inv(s) && Step(s, op, t) && !op.Begin? && !op.Commit? && k in s.entries && s.entries[k].secret == []
    requires op.Sweep? ==> k in t.entries
    ensures Holds(t, k, s.entries[k]) <==> !Targets(s, op, k, s.entries[k])
  {
    hide Inv, Expired, Swept;
    InvEntry(s, k);
    match op
    case Current(_, _, now, _) => EmptyStays(s, now, t, k);
    case Reject(_, _) =>
    case Forget(_) =>
    case Sweep(alive, now) =>
      var m := SweepVia(s, op, t);
      EmptyStays(s, now, m, k);
      SweptKeepsLive(m, alive, k);
  }

  // ---------------------------------------------------------------- records told from the operations

  /** A version some caller got is a live one. */
  lemma GotIsLive(states: seq<State>, ops: seq<Op>, i: nat, sk: SeenKey, g: nat)
    requires Run(states, ops) && i < |ops| && Got(states, ops, i, sk, g)
    ensures sk.key in states[i + 1].entries
    ensures states[i + 1].entries[sk.key].generation == g && states[i + 1].entries[sk.key].secret != []
  {
    hide Inv, Step;
    Reachable(states, ops, i);
    if StoresFor(ops[i], sk) {
      CommitPuts(states, ops, i);
    } else {
      HitFacts(states[i], ops[i], states[i + 1]);
    }
  }

  /** While a version is in place, a caller's record names it exactly if the caller once got it. */
  lemma NamedIff(states: seq<State>, ops: seq<Op>, m: nat, sk: SeenKey, e: Entry)
    requires Run(states, ops) && m < |states| && !AgentPIN(sk.key) && Holds(states[m], sk.key, e)
    requires sk in states[m].seen
    ensures states[m].seen[sk] == e.generation <==> HadIt(states, ops, m, sk, e.generation)
  {
    hide Inv, Step, AgentPIN, Got;
    Reachable(states, ops, m);
    InvEntry(states[m], sk.key);
    if i :| 0 <= i < m && Got(states, ops, i, sk, e.generation) {
      GotIsLive(states, ops, i, sk, e.generation);
      VersionStamps(states, ops, i + 1, m, sk.key, sk.key);
      RecordNamesIt(states, ops, i, m, sk, e.generation);
    } else if states[m].seen[sk] == e.generation {
      var i := RecordOrigin(states, ops, m, sk);
    }
  }

  lemma RetryAnswer(s: State, op: Op, t: State)
    requires Inv(s) && op.Begin? && Step(s, op, t) && !TurnedAway(op.answer)
    ensures op.answer.reason == Retry <==> IsRetry(s, op.id, op.caller)
  {
    hide Inv, Step, Expired, LeasedEntries, AgentPIN;
    var m := BeginVia(s, op, t);
    ExpireSeen(s, op.now, m);
  }

  /** While the version is in place, what ends it by the records is what ends it by the operations. */
  lemma EndsIs(states: seq<State>, ops: seq<Op>, m: nat, k: Key, e: Entry)
    requires Run(states, ops) && m < |ops| && Holds(states[m], k, e)
    ensures EndsVersion(states, ops, m, k, e)
       <==> (e.secret != [] && Reaches(ops[m], e)) || Targets(states[m], ops[m], k, e)
  {
    hide Inv, Step, Reaches, Holds, HadIt;
    if ops[m].Begin? && ops[m].id.key == k && !TurnedAway(ops[m].answer) {
      Reachable(states, ops, m);
      RetryAnswer(states[m], ops[m], states[m + 1]);
      hide AgentPIN;
      if IsRetry(states[m], ops[m].id, ops[m].caller) {
        NamedIff(states, ops, m, SeenKey(ops[m].caller, k), e);
      }
    }
  }

  // ---------------------------------------------------------------- versions over runs

  lemma VersionStep(states: seq<State>, ops: seq<Op>, m: nat, k: Key)
    requires Run(states, ops) && m < |ops| && k in states[m].entries
    requires ops[m].Sweep? ==> k in states[m + 1].entries
    ensures Holds(states[m + 1], k, states[m].entries[k]) <==> !EndsVersion(states, ops, m, k, states[m].entries[k])
  {
    hide Inv, Step, Targets, EndsVersion, Reaches;
    Reachable(states, ops, m);
    EndsIs(states, ops, m, k, states[m].entries[k]);
    if states[m].entries[k].secret == [] {
      EmptyStep(states[m], ops[m], states[m + 1], k);
    } else {
      StepEndsIff(states[m], ops[m], states[m + 1], k);
    }
  }

  /** A version, live or empty, is in place exactly as long as no operation has ended it, if no sweep drops
      its entry; once gone it never comes back. */
  lemma {:induction false} VersionStays(states: seq<State>, ops: seq<Op>, c: nat, n: nat, k: Key)
    requires Run(states, ops) && c <= n < |states| && k in states[c].entries
    requires forall m | c <= m < n && ops[m].Sweep? && k in states[m].entries :: k in states[m + 1].entries
    ensures Holds(states[n], k, states[c].entries[k])
       <==> forall m | c <= m < n :: !EndsVersion(states, ops, m, k, states[c].entries[k])
    decreases n
  {
    hide Inv, Step, EndsVersion;
    var e := states[c].entries[k];
    if c < n {
      VersionStays(states, ops, c, n - 1, k);
      if Holds(states[n - 1], k, e) {
        VersionStep(states, ops, n - 1, k);
      } else if Holds(states[n], k, e) {
        Reachable(states, ops, c);
        InvEntry(states[c], k);
        SeqnoGrows(states, ops, c, n - 1);
        OldEntry(states, ops, n - 1, n, k);
      }
    }
  }

  lemma TicketEntry(s: State, token: nat)
    requires Inv(s) && token in s.tickets
    ensures s.tickets[token].identity.key in s.entries
  {
  }

  /** A held ticket keeps its entry from being swept away. */
  lemma HeldKeeps(states: seq<State>, ops: seq<Op>, i: nat, j: nat, token: nat)
    requires Run(states, ops) && i < j < |states| && token in states[i + 1].tickets
    requires Held(ops, i, j, token, states[i + 1].tickets[token])
    ensures forall m | i < m <= j :: states[i + 1].tickets[token].identity.key in states[m].entries
  {
    hide Inv, Step, Revokes;
    var tk := states[i + 1].tickets[token];
    forall m | i < m <= j ensures tk.identity.key in states[m].entries {
      TicketLifetime(states, ops, i, m, token, tk);
      Reachable(states, ops, m);
      TicketEntry(states[m], token);
    }
  }

  /** No operation between the look at i and the commit at j ended the version the look left in place, and
      the commit does not reach its expiry. */
  ghost predicate Undisturbed(states: seq<State>, ops: seq<Op>, i: nat, j: nat)
    requires |states| == |ops| + 1 && i < j < |ops| && ops[i].Begin? && ops[j].Commit?
    requires ops[i].id.key in states[i + 1].entries
  {
    var k := ops[i].id.key;
    var e := states[i + 1].entries[k];
    && (e.secret != [] ==> ops[j].now < e.expires)
    && forall m | i < m < j :: !EndsVersion(states, ops, m, k, e)
  }

  /** A commit succeeds exactly when the answer is valid and not empty, a look by the same caller for the
      same identity issued its token, no operation in between took the ticket away, and none ended the
      version that the look leased. */
  lemma CommitByOperations(states: seq<State>, ops: seq<Op>, j: nat)
    requires Run(states, ops) && j < |ops| && ops[j].Commit?
    ensures ops[j].ok <==>
      && ops[j].secret != [] && Validate(ops[j].secret)
      && exists i :: 0 <= i < j && Issues(ops[i], ops[j].token) && Kept(states, ops, i, j)
  {
    hide Inv, Step, Validate, Issues, GoodLease, Kept;
    CommitIff(states, ops, j);
    forall i | 0 <= i < j && Issues(ops[i], ops[j].token)
      ensures GoodLease(states, ops, i, j) <==> Kept(states, ops, i, j) {
      KeptIff(states, ops, i, j);
    }
  }

  ghost predicate Kept(states: seq<State>, ops: seq<Op>, i: nat, j: nat)
    requires |states| == |ops| + 1 && i < j < |ops| && ops[j].Commit? && Issues(ops[i], ops[j].token)
  {
    var tk := Ticket(ops[i].id, 0, ops[i].caller, ops[i].later + TICKET_LIFETIME);
    && ops[i].caller == ops[j].caller && ops[i].id == ops[j].id
    && ops[j].now < tk.expires && Held(ops, i, j, ops[j].token, tk)
    && ops[i].id.key in states[i + 1].entries && Undisturbed(states, ops, i, j)
  }

  lemma KeptIff(states: seq<State>, ops: seq<Op>, i: nat, j: nat)
    requires Run(states, ops) && i < j < |ops| && ops[j].Commit? && Issues(ops[i], ops[j].token)
    ensures GoodLease(states, ops, i, j) <==> Kept(states, ops, i, j)
  {
    assert ops[i].Begin?;
    hide Inv, Step, Issues, Held, EndsVersion;
    var token, k := ops[j].token, ops[i].id.key;
    IssueIsNew(states, ops, i, token);
    var tk := states[i + 1].tickets[token];
    SameRevocations(ops, i, j, token, tk);
    if Held(ops, i, j, token, tk) {
      HeldKeeps(states, ops, i, j, token);
      VersionStays(states, ops, i + 1, j, k);
      if states[j].entries[k].generation == states[i + 1].entries[k].generation {
        VersionStamps(states, ops, i + 1, j, k, k);
      }
    }
  }
}
