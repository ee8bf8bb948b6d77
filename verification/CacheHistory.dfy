/** Safety of the credential cache over whole runs: any interleaving of its atomic operations. */
module CacheHistory {
  import opened Askpass
  import opened CacheIdentity
  import opened CacheModel
  import opened CacheInvariant

  /** states[i] is the cache before ops[i]; the run starts empty. */
  ghost predicate Run(states: seq<State>, ops: seq<Op>) {
    && |states| == |ops| + 1
    && states[0] == New(states[0].ttl)
    && (forall i | 0 <= i < |ops| :: Step(states[i], ops[i], states[i + 1]))
  }

  // ---------------------------------------------------------------- reachable states

  lemma {:induction false} Reachable(states: seq<State>, ops: seq<Op>, j: nat)
    requires Run(states, ops) && j < |states|
    ensures Inv(states[j]) && states[j].ttl == states[0].ttl
  {
    hide Inv, Step, Evolves;
    if j == 0 {
      NewInv(states[0].ttl);
    } else {
      Reachable(states, ops, j - 1);
      StepFacts(states[j - 1], ops[j - 1], states[j]);
    }
  }

  lemma StepFacts(s: State, op: Op, t: State)
    requires Inv(s) && Step(s, op, t)
    ensures Inv(t) && t.ttl == s.ttl && s.seqno <= t.seqno
  {
    hide Inv, Step;
    StepKeeps(s, op, t);
  }

  /** Capacities hold in every reachable state. */
  lemma CapacitiesHold(states: seq<State>, ops: seq<Op>, j: nat)
    requires Run(states, ops) && j < |states|
    ensures |states[j].entries| <= MAX_KEYS
    ensures |states[j].tickets| <= MAX_TICKETS
    ensures |states[j].seen| <= MAX_CALLERS
    ensures forall tok | tok in states[j].tickets ::
              && states[j].tickets[tok].identity.key in states[j].entries
              && (IsTracked(states[j].tickets[tok].identity) ==>
                    SeenKey(states[j].tickets[tok].caller, states[j].tickets[tok].identity.key) in states[j].seen)
  {
    hide Step;
    Reachable(states, ops, j);
  }

  // ---------------------------------------------------------------- version stamps

  /** An entry whose generation is old was there all along, unchanged. */
  lemma {:induction false} OldEntry(states: seq<State>, ops: seq<Op>, i: nat, j: nat, k: Key)
    requires Run(states, ops) && i <= j < |states|
    requires k in states[j].entries && states[j].entries[k].generation <= states[i].seqno
    ensures k in states[i].entries && states[i].entries[k] == states[j].entries[k]
    decreases j - i
  {
    hide Inv, Step;
    if i < j {
      SeqnoGrows(states, ops, i, j - 1);
      Reachable(states, ops, j - 1);
      StepKeeps(states[j - 1], ops[j - 1], states[j]);
      OldEntry(states, ops, i, j - 1, k);
    }
  }

  lemma {:induction false} SeqnoGrows(states: seq<State>, ops: seq<Op>, i: nat, j: nat)
    requires Run(states, ops) && i <= j < |states|
    ensures states[i].seqno <= states[j].seqno
    decreases j - i
  {
    hide Inv, Step;
    if i < j {
      SeqnoGrows(states, ops, i, j - 1);
      Reachable(states, ops, j - 1);
      StepFacts(states[j - 1], ops[j - 1], states[j]);
    }
  }

  /** A generation names one version of one entry for the whole run: no number is ever reused. */
  lemma VersionStamps(states: seq<State>, ops: seq<Op>, i: nat, j: nat, k: Key, l: Key)
    requires Run(states, ops) && i <= j < |states|
    requires k in states[i].entries && l in states[j].entries
    requires states[i].entries[k].generation == states[j].entries[l].generation
    ensures k == l && states[i].entries[k] == states[j].entries[l]
  {
    hide Step;
    Reachable(states, ops, i);
    OldEntry(states, ops, i, j, l);
  }

  // ---------------------------------------------------------------- hits

  /** Begin in two parts: expiry, then one of the three answers. */
  lemma BeginVia(s: State, op: Op, t: State) returns (m: State)
    requires Inv(s) && op.Begin? && Step(s, op, t)
    ensures Expired(s, op.now, m) && Inv(m)
    ensures if TurnedAway(op.answer) then t == m && op.answer == Refused(op.answer.reason)
            else if op.answer.reason == Hit then HitAnswer(m, op.id, op.caller, t, op.answer)
            else LeaseAnswer(m, op.id, op.caller, op.later, t, op.answer)
  {
    hide Inv, Expired, BeginAfter, HitAnswer, LeaseAnswer;
    m :| Expired(s, op.now, m) && (t, op.answer) == BeginAfter(m, op.id, op.caller, op.later);
    ExpireKeeps(s, op.now, m);
    BeginAnswers(m, op.id, op.caller, op.later);
  }

  /** An entry that still holds its credential after expiry is untouched. */
  lemma SurvivesExpiry(s: State, now: int, m: State, k: Key)
    requires Expired(s, now, m) && k in m.entries && m.entries[k].secret != []
    ensures k in s.entries && m.entries[k] == s.entries[k] && now < s.entries[k].expires
  {
  }

  /** A hit hands out the live, unexpired credential stored for exactly this identity. */
  lemma HitFacts(s: State, op: Op, t: State)
    requires Inv(s) && op.Begin? && Step(s, op, t) && op.answer.secret != []
    ensures op.id.key in s.entries && op.id.key in t.entries
    ensures t.entries[op.id.key] == s.entries[op.id.key]
    ensures IsCurrent(t, op.id, op.answer.generation)
    ensures t.entries[op.id.key].secret == op.answer.secret
    ensures op.now < t.entries[op.id.key].expires
    ensures op.answer.token == 0 && op.answer.generation != 0
  {
    hide Step, Inv, Expired, AgentPIN, LeasedEntries, IsRetry;
    var m := BeginVia(s, op, t);
    SurvivesExpiry(s, op.now, m, op.id.key);
    InvEntry(m, op.id.key);
  }

  lemma CurrentFacts(s: State, op: Op, t: State)
    requires op.Current? && Step(s, op, t) && op.ok
    ensures Live(t, op.id) && op.id.key in s.entries && s.entries[op.id.key] == t.entries[op.id.key]
    ensures t.entries[op.id.key].generation == op.g && op.now < t.entries[op.id.key].expires
  {
  }

  /** A hit followed by a successful currency check means: still the same bytes, not expired. */
  lemma HitThenCurrent(states: seq<State>, ops: seq<Op>, i: nat, j: nat)
    requires Run(states, ops) && i < j < |ops|
    requires ops[i].Begin? && ops[i].answer.secret != []
    requires ops[j].Current? && ops[j].id.key == ops[i].id.key && ops[j].g == ops[i].answer.generation && ops[j].ok
    ensures ops[j].id == ops[i].id
    ensures ops[j].id.key in states[j].entries
    ensures states[j].entries[ops[j].id.key].secret == ops[i].answer.secret
    ensures ops[j].now < states[j].entries[ops[j].id.key].expires
  {
    hide Step, Inv;
    Reachable(states, ops, i);
    HitFacts(states[i], ops[i], states[i + 1]);
    CurrentFacts(states[j], ops[j], states[j + 1]);
    VersionStamps(states, ops, i + 1, j, ops[i].id.key, ops[j].id.key);
  }

  /** ops[m] stored what states[j] now holds under k. */
  ghost predicate StoredAt(states: seq<State>, ops: seq<Op>, m: nat, j: nat, k: Key)
    requires |states| == |ops| + 1 && m < j < |states| && k in states[j].entries
  {
    var e := states[j].entries[k];
    && Stores(ops[m]) && ops[m].id == e.identity && ops[m].secret == e.secret
    && e.expires == ops[m].later + states[0].ttl
    && k in states[m + 1].entries && states[m + 1].entries[k] == e
  }

  lemma {:induction false} Provenance(states: seq<State>, ops: seq<Op>, j: nat, k: Key) returns (m: nat)
    requires Run(states, ops) && j < |states|
    requires k in states[j].entries && states[j].entries[k].secret != []
    ensures m < j && StoredAt(states, ops, m, j, k)
  {
    hide Inv, Step;
    Reachable(states, ops, j - 1);
    StepKeeps(states[j - 1], ops[j - 1], states[j]);
    if k in states[j - 1].entries && states[j].entries[k] == states[j - 1].entries[k] {
      m := Provenance(states, ops, j - 1, k);
    } else {
      m := j - 1;
    }
  }

  /** Every hit at time n hands out bytes one earlier Commit stored at time c, with n < c + ttl:
      lifetimes are absolute, however many hits came between. */
  lemma HitWasStored(states: seq<State>, ops: seq<Op>, n: nat) returns (c: nat)
    requires Run(states, ops) && n < |ops| && ops[n].Begin? && ops[n].answer.secret != []
    ensures c < n && Stores(ops[c]) && ops[c].id == ops[n].id && ops[c].secret == ops[n].answer.secret
    ensures ops[n].now < ops[c].later + states[0].ttl
    ensures IsCurrent(states[c + 1], ops[n].id, ops[n].answer.generation)
  {
    hide Step, Inv;
    Reachable(states, ops, n);
    HitFacts(states[n], ops[n], states[n + 1]);
    c := Provenance(states, ops, n, ops[n].id.key);
  }

  // ---------------------------------------------------------------- leases

  /** The operation takes the ticket away: its deadline is seen to have passed, its caller uses it,
      its key is forgotten, or its caller is found dead. */
  predicate Revokes(op: Op, token: nat, tk: Ticket) {
    || (Timed(op) && op.now >= tk.expires)
    || (op.Commit? && op.token == token && op.caller == tk.caller)
    || (op.Forget? && Hits(op.key, tk.identity.key))
    || (op.Sweep? && !op.alive(tk.caller))
  }

  /** A ticket lives on exactly when nothing revokes it, and never changes. */
  lemma TicketStep(s: State, op: Op, t: State, token: nat)
    requires Inv(s) && Step(s, op, t) && token <= s.seqno
    ensures token in t.tickets <==> token in s.tickets && !Revokes(op, token, s.tickets[token])
    ensures token in t.tickets ==> t.tickets[token] == s.tickets[token]
  {
    hide Inv, BeginAfter, CommitAfter, Swept, Expired;
    match op {
      case Begin(_, _, _, _, _) => BeginTicketStep(s, op, t, token);
      case Current(_, _, now, _) => ExpireTickets(s, now, t, token);
      case Reject(_, _) =>
      case Commit(_, _, _, _, _, _, _) => CommitTicketStep(s, op, t, token);
      case Forget(_) =>
      case Sweep(_, _) => SweepTicketStep(s, op, t, token);
    }
  }

  lemma ExpireTickets(s: State, now: int, m: State, token: nat)
    requires Expired(s, now, m)
    ensures token in m.tickets <==> token in s.tickets && now < s.tickets[token].expires
    ensures token in m.tickets ==> m.tickets[token] == s.tickets[token]
  {
  }

  lemma CommitTicketStep(s: State, op: Op, t: State, token: nat)
    requires op.Commit? && Step(s, op, t)
    ensures token in t.tickets <==> token in s.tickets && !Revokes(op, token, s.tickets[token])
    ensures token in t.tickets ==> t.tickets[token] == s.tickets[token]
  {
    hide Expired, IsTracked, MayCommit;
    var m :| Expired(s, op.now, m)
          && (t, op.ok) == CommitAfter(m, op.token, op.id, op.caller, op.secret, op.later);
    ExpireTickets(s, op.now, m, token);
    assert t.tickets == m.tickets || t.tickets == m.tickets - {op.token};
  }

  lemma SweepTicketStep(s: State, op: Op, t: State, token: nat)
    requires op.Sweep? && Step(s, op, t)
    ensures token in t.tickets <==> token in s.tickets && !Revokes(op, token, s.tickets[token])
    ensures token in t.tickets ==> t.tickets[token] == s.tickets[token]
  {
    hide Expired;
    var m :| Expired(s, op.now, m) && t == Swept(m, op.alive);
    ExpireTickets(s, op.now, m, token);
  }

  lemma BeginTicketStep(s: State, op: Op, t: State, token: nat)
    requires Inv(s) && op.Begin? && Step(s, op, t) && token <= s.seqno
    ensures token in t.tickets <==> token in s.tickets && op.now < s.tickets[token].expires
    ensures token in t.tickets ==> t.tickets[token] == s.tickets[token]
  {
    hide Step, Inv, IsRetry, IsTracked, LeasedEntries;
    var m := BeginVia(s, op, t);
  }

  /** What Begin promises when it issues a token. */
  predicate Issues(op: Op, token: nat) {
    op.Begin? && token != 0 && op.answer.token == token
  }

  /** A new ticket comes from Begin and leases the entry as Begin leaves it. */
  lemma NewTicket(s: State, op: Op, t: State, token: nat)
    requires Inv(s) && Step(s, op, t) && token > s.seqno
    ensures token in t.tickets <==> Issues(op, token)
    ensures token in t.tickets ==>
              && op.id.key in t.entries && t.entries[op.id.key].identity == op.id
              && t.tickets[token]
                 == Ticket(op.id, t.entries[op.id.key].generation, op.caller, op.later + TICKET_LIFETIME)
  {
    hide Inv;
    NoFuture(s, token);
    if op.Begin? {
      hide Step, IsRetry, LeasedEntries, Expired;
      var m := BeginVia(s, op, t);
      ExpireTickets(s, op.now, m, token);
      OldTokens(s, op.now, m);
      if !TurnedAway(op.answer) && op.answer.reason != Hit { LeasedIs(m, op.id, op.caller, t); }
      hide IsTracked;
    } else {
      hide Step;
      NoNewTicket(s, op, t, token);
    }
  }

  lemma LeasedIs(s: State, id: Identity, caller: string, t: State)
    requires LeasedEntries(s, id, caller, t)
    ensures id.key in t.entries && t.entries[id.key].identity == id
  {
    hide Wipes;
  }

  lemma OldTokens(s: State, now: int, m: State)
    requires Expired(s, now, m)
    ensures s.seqno <= m.seqno
  {
  }

  lemma NoNewTicket(s: State, op: Op, t: State, token: nat)
    requires Step(s, op, t) && token !in s.tickets && !op.Begin?
    ensures token !in t.tickets
  {
    hide AgentPIN, Validate, MayCommit, BeginAfter, Overdue;
  }

  lemma NoFuture(s: State, token: nat)
    requires Inv(s)
    ensures token in s.tickets ==> token <= s.seqno
  {
  }

  /** Nothing in ops[i+1..j] revokes a ticket issued by ops[i]. */
  ghost predicate Held(ops: seq<Op>, i: nat, j: nat, token: nat, tk: Ticket) {
    forall m | i < m < j && m < |ops| :: !Revokes(ops[m], token, tk)
  }

  lemma {:induction false} TicketLifetime(states: seq<State>, ops: seq<Op>, i: nat, j: nat, token: nat, tk: Ticket)
    requires Run(states, ops) && i < j < |states|
    requires token in states[i + 1].tickets && states[i + 1].tickets[token] == tk
    ensures token in states[j].tickets <==> Held(ops, i, j, token, tk)
    ensures token in states[j].tickets ==> states[j].tickets[token] == tk
    decreases j
  {
    hide Inv, Step, Revokes;
    if j > i + 1 {
      TicketLifetime(states, ops, i, j - 1, token, tk);
      Reachable(states, ops, i + 1);
      NoFuture(states[i + 1], token);
      SeqnoGrows(states, ops, i + 1, j - 1);
      Reachable(states, ops, j - 1);
      TicketStep(states[j - 1], ops[j - 1], states[j], token);
      assert Held(ops, i, j, token, tk) <==>
             Held(ops, i, j - 1, token, tk) && !Revokes(ops[j - 1], token, tk);
    }
  }

  /** Every ticket found in the cache was issued by one Begin. */
  lemma {:induction false} TicketOrigin(states: seq<State>, ops: seq<Op>, j: nat, token: nat) returns (i: nat)
    requires Run(states, ops) && j < |states| && token in states[j].tickets
    ensures i < j && Issues(ops[i], token) && token in states[i + 1].tickets
    ensures token > states[i].seqno && states[i + 1].tickets[token] == states[j].tickets[token]
  {
    hide Inv, Step, Issues;
    Reachable(states, ops, j - 1);
    if token <= states[j - 1].seqno {
      TicketStep(states[j - 1], ops[j - 1], states[j], token);
      i := TicketOrigin(states, ops, j - 1, token);
    } else {
      NewTicket(states[j - 1], ops[j - 1], states[j], token);
      i := j - 1;
    }
  }

  /** A token is handed out at most once in a run. */
  lemma IssuedOnce(states: seq<State>, ops: seq<Op>, i: nat, j: nat, token: nat)
    requires Run(states, ops) && i < |ops| && j < |ops|
    requires Issues(ops[i], token) && Issues(ops[j], token)
    ensures i == j
  {
    hide Inv, Step;
    IssueIsNew(states, ops, i, token);
    IssueIsNew(states, ops, j, token);
    if i < j {
      SeqnoGrows(states, ops, i + 1, j);
    } else if j < i {
      SeqnoGrows(states, ops, j + 1, i);
    }
  }

  /** The ticket ops[i] issued, as it stood right after. */
  lemma IssueIsNew(states: seq<State>, ops: seq<Op>, i: nat, token: nat)
    requires Run(states, ops) && i < |ops| && Issues(ops[i], token)
    ensures states[i].seqno < token <= states[i + 1].seqno && token in states[i + 1].tickets
    ensures var op := ops[i];
      && op.id.key in states[i + 1].entries && states[i + 1].entries[op.id.key].identity == op.id
      && states[i + 1].tickets[token]
         == Ticket(op.id, states[i + 1].entries[op.id.key].generation, op.caller, op.later + TICKET_LIFETIME)
  {
    hide Inv, Step, LeasedEntries, IsTracked;
    Reachable(states, ops, i);
    var m := BeginVia(states[i], ops[i], states[i + 1]);
    NewTicket(states[i], ops[i], states[i + 1], token);
  }

  // ---------------------------------------------------------------- which leases commit

  /** The entry under k is, after expiry at `now`, still the version numbered g. */
  predicate StillVersion(s: State, k: Key, g: nat, now: int) {
    k in s.entries && s.entries[k].generation == g && !Overdue(s.entries[k], now)
  }

  /** Commit on one state: the ticket is there and in date, everything matches, the answer is fit to keep. */
  lemma CommitStepIff(s: State, op: Op, t: State)
    requires Inv(s) && op.Commit? && Step(s, op, t)
    ensures op.ok <==>
      && op.token in s.tickets && op.now < s.tickets[op.token].expires
      && s.tickets[op.token].caller == op.caller && s.tickets[op.token].identity == op.id
      && StillVersion(s, op.id.key, s.tickets[op.token].generation, op.now)
      && s.entries[op.id.key].identity == op.id
      && op.secret != [] && Validate(op.secret)
  {
    hide Inv, Validate, IsTracked;
    var m :| Expired(s, op.now, m)
          && (t, op.ok) == CommitAfter(m, op.token, op.id, op.caller, op.secret, op.later);
    ExpireTickets(s, op.now, m, op.token);
    if op.token in s.tickets && op.id.key in s.entries && Overdue(s.entries[op.id.key], op.now) {
      TicketNumbers(s, op.token);
    }
  }

  lemma TicketNumbers(s: State, token: nat)
    requires Inv(s) && token in s.tickets
    ensures s.tickets[token].generation <= s.seqno
  {
  }

  /** The lease ops[i] gave is still good for ops[j]: same caller and identity, in date, never revoked,
      and the entry it leases is still the version it was. */
  ghost predicate GoodLease(states: seq<State>, ops: seq<Op>, i: nat, j: nat)
    requires |states| == |ops| + 1 && i < j < |ops| && ops[j].Commit? && Issues(ops[i], ops[j].token)
  {
    var tk := Ticket(ops[i].id, 0, ops[i].caller, ops[i].later + TICKET_LIFETIME);
    && ops[i].caller == ops[j].caller && ops[i].id == ops[j].id
    && ops[j].now < tk.expires && Held(ops, i, j, ops[j].token, tk)
    && ops[j].id.key in states[i + 1].entries
    && StillVersion(states[j], ops[j].id.key, states[i + 1].entries[ops[j].id.key].generation, ops[j].now)
  }

  /** Commit succeeds exactly when a Begin issued its token to this caller for this identity, the lease is
      still good, and the answer is valid and not empty. */
  lemma CommitIff(states: seq<State>, ops: seq<Op>, j: nat)
    requires Run(states, ops) && j < |ops| && ops[j].Commit?
    ensures ops[j].ok <==>
      && ops[j].secret != [] && Validate(ops[j].secret)
      && exists i :: 0 <= i < j && Issues(ops[i], ops[j].token) && GoodLease(states, ops, i, j)
  {
    hide Inv, Step, Validate, Issues, GoodLease;
    Reachable(states, ops, j);
    CommitStepIff(states[j], ops[j], states[j + 1]);
    if ops[j].token in states[j].tickets {
      var i := TicketOrigin(states, ops, j, ops[j].token);
      LeaseIff(states, ops, i, j);
      if ops[j].ok {
        assert GoodLease(states, ops, i, j);
      }
    }
    if i :| 0 <= i < j && Issues(ops[i], ops[j].token) && GoodLease(states, ops, i, j) {
      LeaseIff(states, ops, i, j);
    }
  }

  /** For the Begin that issued the token, the state test and the history test agree. */
  lemma LeaseIff(states: seq<State>, ops: seq<Op>, i: nat, j: nat)
    requires Run(states, ops) && i < j < |ops| && ops[j].Commit? && Issues(ops[i], ops[j].token)
    ensures GoodLease(states, ops, i, j) <==>
      var s, op := states[j], ops[j];
      && op.token in s.tickets && op.now < s.tickets[op.token].expires
      && s.tickets[op.token].caller == op.caller && s.tickets[op.token].identity == op.id
      && StillVersion(s, op.id.key, s.tickets[op.token].generation, op.now)
      && s.entries[op.id.key].identity == op.id
  {
    hide Inv, Step, Issues, Revokes, Held;
    var token := ops[j].token;
    IssueIsNew(states, ops, i, token);
    var tk := states[i + 1].tickets[token];
    TicketLifetime(states, ops, i, j, token, tk);
    SameRevocations(ops, i, j, token, tk);
    var k := tk.identity.key;
    if k in states[j].entries && states[j].entries[k].generation == tk.generation {
      Reachable(states, ops, i + 1);
      InvEntry(states[i + 1], k);
      OldEntry(states, ops, i + 1, j, k);
    }
  }

  /** A ticket's generation plays no part in what revokes it. */
  lemma SameRevocations(ops: seq<Op>, i: nat, j: nat, token: nat, tk: Ticket)
    ensures Held(ops, i, j, token, tk) <==> Held(ops, i, j, token, tk.(generation := 0))
  {
    forall m | i < m < j && m < |ops|
      ensures Revokes(ops[m], token, tk) <==> Revokes(ops[m], token, tk.(generation := 0)) {
    }
  }

  /** Of all leases on one version of a key at most one ever commits. */
  lemma OneCommitPerVersion(states: seq<State>, ops: seq<Op>, i: nat, j: nat)
    requires Run(states, ops) && i < j < |ops| && Stores(ops[i]) && Stores(ops[j])
    requires ops[i].id.key == ops[j].id.key
    requires ops[i].token in states[i].tickets && ops[j].token in states[j].tickets
    ensures states[i].tickets[ops[i].token].generation != states[j].tickets[ops[j].token].generation
  {
    hide Inv, Step, Validate;
    Reachable(states, ops, i);
    Reachable(states, ops, j);
    CommitStepIff(states[i], ops[i], states[i + 1]);
    CommitStepIff(states[j], ops[j], states[j + 1]);
    CommitFresh(states[i], ops[i], states[i + 1]);
    InvEntry(states[i], ops[i].id.key);
    var k := ops[j].id.key;
    if states[j].entries[k].generation == states[i].entries[k].generation {
      OldEntry(states, ops, i + 1, j, k);
    }
  }

  lemma CommitFresh(s: State, op: Op, t: State)
    requires Inv(s) && Stores(op) && Step(s, op, t)
    ensures op.id.key in t.entries && t.entries[op.id.key].generation == t.seqno > s.seqno
  {
    hide Inv, Validate, MayCommit;
    var m :| Expired(s, op.now, m)
          && (t, op.ok) == CommitAfter(m, op.token, op.id, op.caller, op.secret, op.later);
    hide Expired;
    CommitWrites(m, op.token, op.id, op.caller, op.secret, op.later);
  }

  /** Nothing forgotten is brought back: a token issued before a Forget of its key never commits after it. */
  lemma ForgottenStaysForgotten(states: seq<State>, ops: seq<Op>, i: nat, f: nat, j: nat)
    requires Run(states, ops) && i < f < j < |ops|
    requires ops[j].Commit? && Issues(ops[i], ops[j].token)
    requires ops[f].Forget? && Hits(ops[f].key, ops[i].id.key)
    ensures !ops[j].ok
  {
    hide Inv, Step, Validate;
    CommitIff(states, ops, j);
    assert Revokes(ops[f], ops[j].token, Ticket(ops[i].id, 0, ops[i].caller, ops[i].later + TICKET_LIFETIME));
    if ops[j].ok {
      var l :| 0 <= l < j && Issues(ops[l], ops[j].token) && GoodLease(states, ops, l, j);
      IssuedOnce(states, ops, i, l, ops[j].token);
    }
  }
}
