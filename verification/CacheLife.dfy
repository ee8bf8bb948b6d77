/** How long a stored credential stays in the cache: exactly until an operation ends it. */
module CacheLife {
  import opened Askpass
  import opened CacheIdentity
  import opened CacheModel
  import opened CacheInvariant
  import opened CacheHistory

  /** The operation reaches the entry's expiry. */
  predicate Reaches(op: Op, e: Entry) {
    Timed(op) && op.now >= e.expires
  }

  /** The operation is aimed at this very version: a look under another identity or by the caller who
      was handed it, a rejection naming it, a successful commit over it, or a forget of its key. */
  predicate Targets(s: State, op: Op, k: Key, e: Entry) {
    match op
    case Begin(id, caller, _, _, answer) =>
      && id.key == k && !TurnedAway(answer)
      && (e.identity != id || (IsRetry(s, id, caller) && s.seen[SeenKey(caller, k)] == e.generation))
    case Reject(id, g) => id == e.identity && id.key == k && g == e.generation
    case Commit(_, id, _, _, _, _, ok) => ok && id.key == k
    case Forget(key) => Hits(key, k)
    case _ => false
  }

  predicate EndsLife(s: State, op: Op, k: Key, e: Entry) {
    Reaches(op, e) || Targets(s, op, k, e)
  }

  predicate Holds(s: State, k: Key, e: Entry) {
    k in s.entries && s.entries[k] == e
  }

  // ---------------------------------------------------------------- one operation

  lemma ExpiryEnds(s: State, now: int, m: State, k: Key)
    requires Inv(s) && Expired(s, now, m) && k in s.entries && s.entries[k].secret != []
    ensures Holds(m, k, s.entries[k]) <==> now < s.entries[k].expires
    ensures k in m.entries && (now >= s.entries[k].expires ==> m.entries[k].secret == [])
  {
    hide Inv;
  }

  lemma BeginEnds(s: State, op: Op, t: State, k: Key)
    requires Inv(s) && op.Begin? && Step(s, op, t) && k in s.entries && s.entries[k].secret != []
    ensures Holds(t, k, s.entries[k]) <==> !EndsLife(s, op, k, s.entries[k])
  {
    hide Inv, Step, Expired, IsTracked, HitAnswer, LeaseAnswer;
    var m := BeginVia(s, op, t);
    ExpiryEnds(s, op.now, m, k);
    SameRecords(s, op.now, m);
    SecretStays(m, op, t, k, s.entries[k]);
  }

  lemma SameRecords(s: State, now: int, m: State)
    requires Expired(s, now, m)
    ensures m.seen == s.seen
  {
  }

  /** What a look does to an entry after expiry. */
  lemma SecretStays(m: State, op: Op, t: State, k: Key, e: Entry)
    requires op.Begin? && k in m.entries && e.secret != [] && (m.entries[k] == e || m.entries[k].secret == [])
    requires if TurnedAway(op.answer) then t == m
             else if op.answer.reason == Hit then HitAnswer(m, op.id, op.caller, t, op.answer)
             else LeaseAnswer(m, op.id, op.caller, op.later, t, op.answer)
    ensures Holds(t, k, e) <==> m.entries[k] == e && !Targets(m, op, k, e)
  {
    TrackEntries(m, op.id, op.caller, op.answer.generation);
    hide Track, IsTracked;
  }

  lemma TrackEntries(s: State, id: Identity, caller: string, g: nat)
    ensures Track(s, id, caller, g).entries == s.entries
  {
  }

  lemma CommitEnds(s: State, op: Op, t: State, k: Key)
    requires Inv(s) && op.Commit? && Step(s, op, t) && k in s.entries && s.entries[k].secret != []
    ensures Holds(t, k, s.entries[k]) <==> !EndsLife(s, op, k, s.entries[k])
  {
    hide Inv, Expired, Step, CommitAfter;
    var m := CommitVia(s, op, t);
    ExpiryEnds(s, op.now, m, k);
    OldNumber(s, op.now, m, k);
    CommitStays(m, op, t, k, s.entries[k]);
  }

  lemma CommitVia(s: State, op: Op, t: State) returns (m: State)
    requires op.Commit? && Step(s, op, t)
    ensures Expired(s, op.now, m)
    ensures (t, op.ok) == CommitAfter(m, op.token, op.id, op.caller, op.secret, op.later)
  {
    hide Expired, CommitAfter;
    m :| Expired(s, op.now, m)
         && (t, op.ok) == CommitAfter(m, op.token, op.id, op.caller, op.secret, op.later);
  }

  /** What a commit does to an entry after expiry. */
  lemma CommitStays(m: State, op: Op, t: State, k: Key, e: Entry)
    requires op.Commit? && (t, op.ok) == CommitAfter(m, op.token, op.id, op.caller, op.secret, op.later)
    requires k in m.entries && e.secret != [] && e.generation <= m.seqno
    requires m.entries[k] == e || m.entries[k].secret == []
    ensures Holds(t, k, e) <==> m.entries[k] == e && !(op.ok && op.id.key == k)
  {
    hide MayCommit, AgentPIN;
    KeptEntries(m, op);
    hide Keep;
  }

  lemma KeptEntries(m: State, op: Op)
    requires op.Commit?
    ensures var u := m.(tickets := m.tickets - {op.token});
            Keep(u, op.id, op.caller, op.secret, op.later).entries
            == m.entries[op.id.key := Entry(op.id, m.seqno + 1, op.secret, op.later + m.ttl)]
  {
    hide AgentPIN;
  }

  lemma OldNumber(s: State, now: int, m: State, k: Key)
    requires Inv(s) && Expired(s, now, m) && k in s.entries
    ensures s.entries[k].generation <= m.seqno
  {
  }

  lemma RestEnds(s: State, op: Op, t: State, k: Key)
    requires Inv(s) && Step(s, op, t) && k in s.entries && s.entries[k].secret != []
    requires op.Current? || op.Reject? || op.Forget?
    ensures Holds(t, k, s.entries[k]) <==> !EndsLife(s, op, k, s.entries[k])
  {
    hide Expired, IsCurrent, IsRetry;
    if op.Current? {
      ExpiryEnds(s, op.now, t, k);
    } else if op.Reject? {
      RejectEnds(s, op.id, op.g, k);
    }
    hide Inv, Rejected;
  }

  lemma RejectEnds(s: State, id: Identity, g: nat, k: Key)
    requires Inv(s) && k in s.entries && s.entries[k].secret != []
    ensures Holds(Rejected(s, id, g), k, s.entries[k])
       <==> !(id == s.entries[k].identity && id.key == k && g == s.entries[k].generation)
  {
    InvEntry(s, k);
    hide Inv;
  }

  lemma SweepEnds(s: State, op: Op, t: State, k: Key)
    requires Inv(s) && op.Sweep? && Step(s, op, t) && k in s.entries && s.entries[k].secret != []
    ensures Holds(t, k, s.entries[k]) <==> !EndsLife(s, op, k, s.entries[k])
  {
    hide Inv, Expired, Step, Swept;
    var m := SweepVia(s, op, t);
    ExpiryEnds(s, op.now, m, k);
    SweptKeepsLive(m, op.alive, k);
  }

  lemma SweepVia(s: State, op: Op, t: State) returns (m: State)
    requires op.Sweep? && Step(s, op, t)
    ensures Expired(s, op.now, m) && t == Swept(m, op.alive)
  {
    hide Expired, Swept;
    m :| Expired(s, op.now, m) && t == Swept(m, op.alive);
  }

  lemma SweptKeepsLive(m: State, alive: string -> bool, k: Key)
    requires k in m.entries
    ensures k in Swept(m, alive).entries ==> Swept(m, alive).entries[k] == m.entries[k]
    ensures m.entries[k].secret != [] ==> k in Swept(m, alive).entries
  {
    hide Pending;
  }

  /** A live credential is left exactly as it is by every operation that neither reaches its expiry nor
      is aimed at it, and by no other. */
  lemma StepEndsIff(s: State, op: Op, t: State, k: Key)
    requires Inv(s) && Step(s, op, t) && k in s.entries && s.entries[k].secret != []
    ensures Holds(t, k, s.entries[k]) <==> !EndsLife(s, op, k, s.entries[k])
  {
    hide Inv, Step, Holds, EndsLife;
    if op.Begin? {
      BeginEnds(s, op, t, k);
    } else if op.Commit? {
      CommitEnds(s, op, t, k);
    } else if op.Sweep? {
      SweepEnds(s, op, t, k);
    } else {
      RestEnds(s, op, t, k);
    }
  }

  // ---------------------------------------------------------------- runs

  /** A live credential is in the cache, bytes, version and expiry unchanged, exactly as long as no
      operation has ended it; once gone it never comes back. */
  lemma {:induction false} StaysUntilEnded(states: seq<State>, ops: seq<Op>, c: nat, n: nat, k: Key)
    requires Run(states, ops) && c <= n < |states| && k in states[c].entries && states[c].entries[k].secret != []
    ensures Holds(states[n], k, states[c].entries[k])
       <==> forall m | c <= m < n :: !EndsLife(states[m], ops[m], k, states[c].entries[k])
    decreases n
  {
    hide Inv, Step, EndsLife;
    var e := states[c].entries[k];
    if c < n {
      StaysUntilEnded(states, ops, c, n - 1, k);
      if Holds(states[n - 1], k, e) {
        Reachable(states, ops, n - 1);
        StepEndsIff(states[n - 1], ops[n - 1], states[n], k);
      } else if Holds(states[n], k, e) {
        Reachable(states, ops, c);
        InvEntry(states[c], k);
        SeqnoGrows(states, ops, c, n - 1);
        OldEntry(states, ops, n - 1, n, k);
      }
    }
  }

  /** So a committed answer can be handed out from its commit on exactly until something ends it. */
  lemma CommittedStaysUntilEnded(states: seq<State>, ops: seq<Op>, c: nat, n: nat)
    requires Run(states, ops) && c < n < |states| && Stores(ops[c])
    ensures ops[c].id.key in states[c + 1].entries
    ensures var k := ops[c].id.key; var e := states[c + 1].entries[k];
            && e.identity == ops[c].id && e.secret == ops[c].secret && e.expires == ops[c].later + states[0].ttl
            && (Holds(states[n], k, e) <==> forall m | c < m < n :: !EndsLife(states[m], ops[m], k, e))
  {
    hide Inv, Step, EndsLife, Holds;
    CommitPuts(states, ops, c);
    StaysUntilEnded(states, ops, c + 1, n, ops[c].id.key);
  }

  lemma CommitPuts(states: seq<State>, ops: seq<Op>, c: nat)
    requires Run(states, ops) && c < |ops| && Stores(ops[c])
    ensures ops[c].id.key in states[c + 1].entries
    ensures var e := states[c + 1].entries[ops[c].id.key];
            e.identity == ops[c].id && e.secret == ops[c].secret != [] && e.expires == ops[c].later + states[0].ttl
  {
    hide Inv, Evolves, NoNewSecrets;
    Reachable(states, ops, c);
    assert Step(states[c], ops[c], states[c + 1]);
    var op := ops[c];
    var m := CommitVia(states[c], op, states[c + 1]);
    hide Expired, Validate, AgentPIN, Step;
    SameTtl(states[c], op.now, m);
  }

  lemma SameTtl(s: State, now: int, m: State)
    requires Expired(s, now, m)
    ensures m.ttl == s.ttl
  {
  }
}
