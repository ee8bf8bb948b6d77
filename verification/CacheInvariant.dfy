/** What every step of the credential cache keeps, and how its entries may change. */
module CacheInvariant {
  import opened Text
  import opened Askpass
  import opened CacheIdentity
  import opened CacheModel
  import opened Sizes

  ghost predicate EntriesOk(s: State) {
    && (forall k | k in s.entries ::
          s.entries[k].identity.key == k && 1 <= s.entries[k].generation <= s.seqno)
    && (forall k, l | k in s.entries && l in s.entries && k != l ::
          s.entries[k].generation != s.entries[l].generation)
  }

  ghost predicate TicketsOk(s: State) {
    && (forall tok | tok in s.tickets ::
          && 1 <= tok <= s.seqno
          && 1 <= s.tickets[tok].generation <= s.seqno
          && s.tickets[tok].identity.key in s.entries
          && (IsTracked(s.tickets[tok].identity) ==>
                SeenKey(s.tickets[tok].caller, s.tickets[tok].identity.key) in s.seen))
    && (forall tok, k | tok in s.tickets && k in s.entries :: s.entries[k].generation != tok)
  }

  ghost predicate SeenOk(s: State) {
    forall sk | sk in s.seen :: !AgentPIN(sk.key) && s.seen[sk] <= s.seqno
  }

  ghost predicate Bounded(s: State) {
    |s.entries| <= MAX_KEYS && |s.tickets| <= MAX_TICKETS && |s.seen| <= MAX_CALLERS
  }

  /** Holds in every reachable state. */
  ghost predicate Inv(s: State) {
    EntriesOk(s) && TicketsOk(s) && SeenOk(s) && Bounded(s)
  }

  /** An entry that differs from before carries a generation never used before; so does a new ticket's token. */
  ghost predicate Evolves(s: State, t: State) {
    && t.ttl == s.ttl && s.seqno <= t.seqno
    && (forall k | k in t.entries ::
          (k in s.entries && t.entries[k] == s.entries[k]) || s.seqno < t.entries[k].generation)
    && (forall tok | tok in t.tickets ::
          (tok in s.tickets && t.tickets[tok] == s.tickets[tok]) || s.seqno < tok)
  }

  /** Every credential held afterwards was already held, in the same entry. */
  ghost predicate NoNewSecrets(s: State, t: State) {
    forall k | k in t.entries && t.entries[k].secret != [] ::
      k in s.entries && t.entries[k] == s.entries[k]
  }

  // ---------------------------------------------------------------- pieces

  lemma NewInv(ttl: int)
    ensures Inv(New(ttl))
  {
  }

  lemma ExpireKeepsEntries(s: State, now: int, t: State)
    requires EntriesOk(s) && Expired(s, now, t)
    ensures EntriesOk(t) && Evolves(s, t) && NoNewSecrets(s, t)
  {
    assert forall k | k in s.entries && Overdue(s.entries[k], now) :: k in OverdueKeys(s, now);
  }

  lemma ExpireKeepsTickets(s: State, now: int, t: State)
    requires TicketsOk(s) && Expired(s, now, t)
    ensures TicketsOk(t)
  {
  }

  lemma ExpireKeeps(s: State, now: int, t: State)
    requires Inv(s) && Expired(s, now, t)
    ensures Inv(t) && Evolves(s, t) && NoNewSecrets(s, t)
  {
    ExpireKeepsEntries(s, now, t);
    ExpireKeepsTickets(s, now, t);
    SubmapSize(t.tickets, s.tickets);
    assert |t.entries| == |t.entries.Keys| == |s.entries.Keys|;
  }

  lemma InvEntry(s: State, k: Key)
    requires Inv(s) && k in s.entries
    ensures s.entries[k].identity.key == k && 1 <= s.entries[k].generation <= s.seqno
  {
  }

  lemma PutKeepsEntries(s: State, k: Key, e: Entry)
    requires EntriesOk(s) && e.identity.key == k && e.generation == s.seqno + 1
    ensures EntriesOk(Put(s, k, e))
  {
  }

  lemma PutKeepsTickets(s: State, k: Key, e: Entry)
    requires TicketsOk(s) && e.generation == s.seqno + 1
    ensures TicketsOk(Put(s, k, e))
  {
  }

  lemma PutKeeps(s: State, k: Key, e: Entry)
    requires Inv(s) && e.identity.key == k && e.generation == s.seqno + 1
    requires k in s.entries || |s.entries| < MAX_KEYS
    ensures Inv(Put(s, k, e)) && Evolves(s, Put(s, k, e))
    ensures e.secret == [] ==> NoNewSecrets(s, Put(s, k, e))
  {
    PutKeepsEntries(s, k, e);
    PutKeepsTickets(s, k, e);
    UpdateSize(s.entries, k, e);
  }

  lemma AdmitKeeps(s: State, id: Identity)
    requires Inv(s)
    requires id.key in s.entries || |s.entries| < MAX_KEYS
    ensures var t := Admit(s, id);
            && Inv(t) && Evolves(s, t) && NoNewSecrets(s, t)
            && t.entries[id.key].identity == id && t.seen == s.seen && t.tickets == s.tickets
  {
    if id.key !in s.entries {
      PutKeeps(s, id.key, Entry(id, s.seqno + 1, [], 0));
    } else if s.entries[id.key].identity != id {
      PutKeeps(s, id.key, Erased(s.entries[id.key], s.seqno + 1).(identity := id));
    }
  }

  lemma TrackKeeps(s: State, id: Identity, caller: string, g: nat)
    requires Inv(s) && g <= s.seqno
    requires IsTracked(id) ==> IsRetry(s, id, caller) || |s.seen| < MAX_CALLERS
    ensures var t := Track(s, id, caller, g);
            && Inv(t) && Evolves(s, t) && NoNewSecrets(s, t)
            && (IsTracked(id) ==> SeenKey(caller, id.key) in t.seen)
            && t.entries == s.entries && t.tickets == s.tickets && t.seqno == s.seqno
  {
    UpdateSize(s.seen, SeenKey(caller, id.key), g);
  }

  /** s with one more ticket, whose token is the next number. */
  function WithTicket(s: State, tk: Ticket): State {
    s.(seqno := s.seqno + 1, tickets := s.tickets[s.seqno + 1 := tk])
  }

  lemma WithTicketKeepsTickets(s: State, tk: Ticket)
    requires EntriesOk(s) && TicketsOk(s)
    requires tk.identity.key in s.entries && tk.generation == s.entries[tk.identity.key].generation
    requires IsTracked(tk.identity) ==> SeenKey(tk.caller, tk.identity.key) in s.seen
    ensures TicketsOk(WithTicket(s, tk))
  {
  }

  lemma WithTicketKeeps(s: State, tk: Ticket)
    requires Inv(s) && |s.tickets| < MAX_TICKETS
    requires tk.identity.key in s.entries && tk.generation == s.entries[tk.identity.key].generation
    requires IsTracked(tk.identity) ==> SeenKey(tk.caller, tk.identity.key) in s.seen
    ensures var t := WithTicket(s, tk); Inv(t) && Evolves(s, t) && NoNewSecrets(s, t)
  {
    WithTicketKeepsTickets(s, tk);
    UpdateSize(s.tickets, s.seqno + 1, tk);
  }

  lemma IssueKeeps(s: State, id: Identity, caller: string, later: int, reason: Reason)
    requires Inv(s) && id.key in s.entries && |s.tickets| < MAX_TICKETS
    requires IsTracked(id) ==> IsRetry(s, id, caller) || |s.seen| < MAX_CALLERS
    ensures var t := Issue(s, id, caller, later, reason).0;
            Inv(t) && Evolves(s, t) && NoNewSecrets(s, t)
  {
    hide Inv, Evolves, NoNewSecrets, AgentPIN;
    TrackKeeps(s, id, caller, 0);
    var u := Track(s, id, caller, 0);
    var tk := Ticket(id, s.entries[id.key].generation, caller, later + TICKET_LIFETIME);
    WithTicketKeeps(u, tk);
    EvolvesTrans(s, u, WithTicket(u, tk));
    assert Issue(s, id, caller, later, reason).0 == WithTicket(u, tk);
  }

  lemma EvolvesRefl(s: State)
    ensures Evolves(s, s) && NoNewSecrets(s, s)
  {
  }

  lemma EvolvesTrans(s: State, m: State, t: State)
    requires Evolves(s, m) && Evolves(m, t)
    ensures Evolves(s, t)
    ensures NoNewSecrets(s, m) && NoNewSecrets(m, t) ==> NoNewSecrets(s, t)
  {
  }

  lemma BeginAfterKeeps(s: State, id: Identity, caller: string, later: int)
    requires Inv(s)
    ensures var t := BeginAfter(s, id, caller, later).0;
            Inv(t) && Evolves(s, t) && NoNewSecrets(s, t)
  {
    hide Inv, Evolves, NoNewSecrets, AgentPIN;
    EvolvesRefl(s);
    if s.ttl > 0 && !AtCapacity(s, id, caller) {
      AdmitKeeps(s, id);
      var a := Admit(s, id);
      var e := a.entries[id.key];
      if IsRetry(s, id, caller) {
        PutKeeps(a, id.key, Erased(e, a.seqno + 1));
        var b := if s.seen[SeenKey(caller, id.key)] == e.generation then Erase(a, id.key) else a;
        IssueKeeps(b, id, caller, later, Retry);
        EvolvesTrans(s, a, b);
        EvolvesTrans(s, b, Issue(b, id, caller, later, Retry).0);
      } else if e.secret != [] {
        InvEntry(a, id.key);
        TrackKeeps(a, id, caller, e.generation);
        EvolvesTrans(s, a, Track(a, id, caller, e.generation));
      } else {
        IssueKeeps(a, id, caller, later, FileChanged);
        IssueKeeps(a, id, caller, later, Miss);
        EvolvesTrans(s, a, BeginAfter(s, id, caller, later).0);
      }
    }
  }

  lemma DropTicketKeeps(s: State, token: nat)
    requires Inv(s)
    ensures var u := s.(tickets := s.tickets - {token}); Inv(u) && Evolves(s, u) && NoNewSecrets(s, u)
  {
    SubmapSize(s.tickets - {token}, s.tickets);
  }

  /** Commit stores the only credential that can appear, under a fresh generation. */
  lemma CommitAfterKeeps(s: State, token: nat, id: Identity, caller: string, secret: seq<byte>, later: int)
    requires Inv(s)
    ensures var (t, ok) := CommitAfter(s, token, id, caller, secret, later);
            Inv(t) && Evolves(s, t) && (!ok ==> NoNewSecrets(s, t))
  {
    hide Inv, Evolves, NoNewSecrets, Validate, AgentPIN;
    EvolvesRefl(s);
    if token in s.tickets && s.tickets[token].caller == caller {
      var u := s.(tickets := s.tickets - {token});
      DropTicketKeeps(s, token);
      if MayCommit(s, token, id, secret) {
        TicketIsSeen(s, token);
        StoreKeeps(u, Entry(id, u.seqno + 1, secret, later + u.ttl), caller);
        EvolvesTrans(s, u, CommitAfter(s, token, id, caller, secret, later).0);
      }
    }
  }

  lemma StoreKeeps(s: State, e: Entry, caller: string)
    requires Inv(s) && e.identity.key in s.entries && e.generation == s.seqno + 1
    requires IsTracked(e.identity) ==> IsRetry(s, e.identity, caller)
    ensures var t := Track(Put(s, e.identity.key, e), e.identity, caller, e.generation);
            Inv(t) && Evolves(s, t)
  {
    hide Inv, Evolves, NoNewSecrets, AgentPIN;
    var p := Put(s, e.identity.key, e);
    PutKeeps(s, e.identity.key, e);
    TrackKeeps(p, e.identity, caller, e.generation);
    EvolvesTrans(s, p, Track(p, e.identity, caller, e.generation));
  }

  /** What a successful Commit writes. */
  lemma CommitWrites(s: State, token: nat, id: Identity, caller: string, secret: seq<byte>, later: int)
    requires CommitAfter(s, token, id, caller, secret, later).1
    ensures CommitAfter(s, token, id, caller, secret, later).0.entries
         == s.entries[id.key := Entry(id, s.seqno + 1, secret, later + s.ttl)]
  {
  }

  lemma TicketIsSeen(s: State, token: nat)
    requires Inv(s) && token in s.tickets
    ensures IsTracked(s.tickets[token].identity) ==>
              SeenKey(s.tickets[token].caller, s.tickets[token].identity.key) in s.seen
  {
  }

  lemma ForgottenKeeps(s: State, key: Option<Key>)
    requires Inv(s)
    ensures Inv(Forgotten(s, key)) && Evolves(s, Forgotten(s, key)) && NoNewSecrets(s, Forgotten(s, key))
  {
    var t := Forgotten(s, key);
    SubmapSize(t.entries, s.entries);
    SubmapSize(t.tickets, s.tickets);
  }

  lemma SweptKeeps(s: State, alive: string -> bool)
    requires Inv(s)
    ensures Inv(Swept(s, alive)) && Evolves(s, Swept(s, alive)) && NoNewSecrets(s, Swept(s, alive))
  {
    var t := Swept(s, alive);
    SubmapSize(t.entries, s.entries);
    SubmapSize(t.tickets, s.tickets);
    SubmapSize(t.seen, s.seen);
    forall tok | tok in t.tickets ensures t.tickets[tok].identity.key in t.entries {
      assert Pending(t.tickets, t.tickets[tok].identity.key);
    }
  }

  // ---------------------------------------------------------------- the answers of Begin

  /** Begin turned the caller away and changed nothing. */
  predicate TurnedAway(answer: Lookup) {
    answer.reason == Disabled || answer.reason == Capacity
  }

  ghost predicate SameBut(s: State, t: State, k: Key) {
    && k in t.entries
    && (forall l | l != k :: l in t.entries <==> l in s.entries)
    && (forall l | l in s.entries && l != k :: t.entries[l] == s.entries[l])
  }

  /** The entry under id's key is new, was wiped because its file changed, or is wiped because this
      caller was handed (or stored) exactly this version and asks again. */
  predicate Wipes(s: State, id: Identity, caller: string) {
    || id.key !in s.entries
    || s.entries[id.key].identity != id
    || (IsRetry(s, id, caller) && s.seen[SeenKey(caller, id.key)] == s.entries[id.key].generation)
  }

  /** The caller gets the live credential, which stays as it is. */
  ghost predicate HitAnswer(s: State, id: Identity, caller: string, t: State, r: Lookup) {
    && Live(s, id) && !IsRetry(s, id, caller)
    && t == Track(s, id, caller, r.generation)
    && r == Lookup(s.entries[id.key].generation, s.entries[id.key].secret, 0, 0, Hit)
  }

  /** The caller gets a token leasing the entry as it now stands. */
  ghost predicate LeaseAnswer(s: State, id: Identity, caller: string, later: int, t: State, r: Lookup) {
    && r.secret == [] && r.generation == 0 && r.token == t.seqno > s.seqno
    && (r.reason == Retry <==> IsRetry(s, id, caller))
    && LeasedEntries(s, id, caller, t)
    && (r.reason != Retry ==> t.entries[id.key].secret == [])
    && t.tickets == s.tickets[r.token := Ticket(id, t.entries[id.key].generation, caller, later + TICKET_LIFETIME)]
    && t.seen == Track(s, id, caller, 0).seen
  }

  ghost predicate LeasedEntries(s: State, id: Identity, caller: string, t: State) {
    && SameBut(s, t, id.key)
    && t.entries[id.key].identity == id
    && (if Wipes(s, id, caller)
        then t.entries[id.key].secret == [] && s.seqno < t.entries[id.key].generation
        else t.entries[id.key] == s.entries[id.key])
  }

  lemma BeginAnswers(s: State, id: Identity, caller: string, later: int)
    requires Inv(s)
    ensures var (t, r) := BeginAfter(s, id, caller, later);
      if TurnedAway(r) then t == s && r == Refused(r.reason)
      else if r.reason == Hit then HitAnswer(s, id, caller, t, r)
      else LeaseAnswer(s, id, caller, later, t, r)
  {
    hide AgentPIN, Inv, HitAnswer, LeaseAnswer, IsRetry;
    if s.ttl > 0 && !AtCapacity(s, id, caller) {
      if IsRetry(s, id, caller) {
        RetryLeases(s, id, caller, later);
      } else if Admit(s, id).entries[id.key].secret != [] {
        FirstHits(s, id, caller, later);
      } else {
        FirstLeases(s, id, caller, later);
      }
    }
  }

  lemma FirstHits(s: State, id: Identity, caller: string, later: int)
    requires s.ttl > 0 && !AtCapacity(s, id, caller) && !IsRetry(s, id, caller)
    requires Admit(s, id).entries[id.key].secret != []
    ensures var (t, r) := BeginAfter(s, id, caller, later); HitAnswer(s, id, caller, t, r)
  {
    hide AgentPIN;
    assert Admit(s, id) == s;
  }

  lemma IssueAnswers(s: State, id: Identity, caller: string, later: int, reason: Reason)
    requires id.key in s.entries
    ensures var (t, r) := Issue(s, id, caller, later, reason);
      && r == Lookup(0, [], t.seqno, s.ttl, reason) && t.seqno == s.seqno + 1
      && t.entries == s.entries && t.seen == Track(s, id, caller, 0).seen
      && t.tickets == s.tickets[r.token := Ticket(id, s.entries[id.key].generation, caller, later + TICKET_LIFETIME)]
  {
  }

  lemma FirstEntries(s: State, id: Identity, caller: string)
    requires !IsRetry(s, id, caller)
    ensures LeasedEntries(s, id, caller, Admit(s, id))
  {
    hide IsRetry;
  }

  lemma FirstLeases(s: State, id: Identity, caller: string, later: int)
    requires s.ttl > 0 && !AtCapacity(s, id, caller) && !IsRetry(s, id, caller)
    requires Admit(s, id).entries[id.key].secret == []
    ensures var (t, r) := BeginAfter(s, id, caller, later); LeaseAnswer(s, id, caller, later, t, r)
  {
    hide AgentPIN, Issue, Admit, AtCapacity, LeasedEntries;
    var a := Admit(s, id);
    var reason := if id.key in s.entries && s.entries[id.key].identity != id then FileChanged else Miss;
    AdmitFrame(s, id);
    FirstEntries(s, id, caller);
    IssueAnswers(a, id, caller, later, reason);
    Answered(s, id, caller, later, a, reason);
  }

  lemma AdmitFrame(s: State, id: Identity)
    ensures var a := Admit(s, id);
            a.tickets == s.tickets && a.seen == s.seen && a.seqno >= s.seqno && a.ttl == s.ttl
  {
  }

  /** Issuing from a state whose entries are right gives the lease answer. */
  lemma Answered(s: State, id: Identity, caller: string, later: int, a: State, reason: Reason)
    requires id.key in a.entries && LeasedEntries(s, id, caller, a)
    requires a.tickets == s.tickets && a.seen == s.seen && a.seqno >= s.seqno
    requires reason != Hit && (reason == Retry <==> IsRetry(s, id, caller))
    requires reason != Retry ==> a.entries[id.key].secret == []
    ensures var (t, r) := Issue(a, id, caller, later, reason); LeaseAnswer(s, id, caller, later, t, r)
  {
    hide IsTracked, IsRetry, AgentPIN, LeasedEntries, Issue;
    IssueAnswers(a, id, caller, later, reason);
    SameEntries(s, id, caller, a, Issue(a, id, caller, later, reason).0);
  }

  lemma SameEntries(s: State, id: Identity, caller: string, a: State, t: State)
    requires LeasedEntries(s, id, caller, a) && t.entries == a.entries
    ensures LeasedEntries(s, id, caller, t)
  {
    hide IsRetry, IsTracked;
  }

  function RetryEntries(s: State, id: Identity, caller: string): State
    requires IsRetry(s, id, caller)
  {
    var a := Admit(s, id);
    if s.seen[SeenKey(caller, id.key)] == a.entries[id.key].generation then Erase(a, id.key) else a
  }

  lemma RetryLeased(s: State, id: Identity, caller: string)
    requires Inv(s) && IsRetry(s, id, caller)
    ensures var b := RetryEntries(s, id, caller);
            && b.tickets == s.tickets && b.seen == s.seen && b.seqno >= s.seqno
            && id.key in b.entries && LeasedEntries(s, id, caller, b)
  {
    OldNumbers(s, id, caller);
    hide AgentPIN, Inv;
    if id.key !in s.entries || s.entries[id.key].identity != id {
      FreshLeased(s, id, caller);
    } else {
      assert Admit(s, id) == s;
    }
  }

  lemma FreshLeased(s: State, id: Identity, caller: string)
    requires IsRetry(s, id, caller) && s.seen[SeenKey(caller, id.key)] <= s.seqno
    requires id.key !in s.entries || s.entries[id.key].identity != id
    ensures var b := RetryEntries(s, id, caller);
            && b.tickets == s.tickets && b.seen == s.seen && b.seqno >= s.seqno
            && id.key in b.entries && LeasedEntries(s, id, caller, b)
  {
    hide IsTracked;
  }

  lemma RetryLeases(s: State, id: Identity, caller: string, later: int)
    requires Inv(s) && s.ttl > 0 && !AtCapacity(s, id, caller) && IsRetry(s, id, caller)
    ensures var (t, r) := BeginAfter(s, id, caller, later); LeaseAnswer(s, id, caller, later, t, r)
  {
    RetryLeased(s, id, caller);
    var b := RetryEntries(s, id, caller);
    Answered(s, id, caller, later, b, Retry);
    assert BeginAfter(s, id, caller, later) == Issue(b, id, caller, later, Retry) by {
      hide AgentPIN, Issue, Inv;
    }
  }

  /** What a caller remembers is an old number, so a fresh entry never matches it. */
  lemma OldNumbers(s: State, id: Identity, caller: string)
    requires Inv(s) && IsRetry(s, id, caller)
    ensures s.seen[SeenKey(caller, id.key)] <= s.seqno
  {
  }

  // ---------------------------------------------------------------- steps

  /** Whether this step stored a credential. */
  predicate Stores(op: Op) {
    op.Commit? && op.ok
  }

  /** A credential held afterwards is an old one, or the one this step stored. */
  ghost predicate OnlyStored(s: State, op: Op, t: State) {
    forall k | k in t.entries && t.entries[k].secret != [] ::
      || (k in s.entries && t.entries[k] == s.entries[k])
      || (&& Stores(op) && k == op.id.key && t.entries[k].identity == op.id
          && t.entries[k].secret == op.secret && t.entries[k].expires == op.later + s.ttl)
  }

  /** Every operation keeps the invariant, moves generations forward, and only a
      successful Commit brings in a credential. */
  lemma StepKeeps(s: State, op: Op, t: State)
    requires Inv(s) && Step(s, op, t)
    ensures Inv(t) && Evolves(s, t)
    ensures !Stores(op) ==> NoNewSecrets(s, t)
    ensures OnlyStored(s, op, t)
  {
    hide Inv, Evolves, Expired, BeginAfter, CommitAfter, Swept;
    match op {
      case Begin(id, caller, now, later, answer) => BeginKeeps(s, id, caller, now, later, answer, t);
      case Current(_, _, now, _) => ExpireKeeps(s, now, t);
      case Reject(id, g) => RejectedKeeps(s, id, g);
      case Commit(_, _, _, _, _, _, _) => CommitKeeps(s, op, t);
      case Forget(key) => ForgottenKeeps(s, key);
      case Sweep(alive, now) => SweepKeeps(s, alive, now, t);
    }
  }

  lemma RejectedKeeps(s: State, id: Identity, g: nat)
    requires Inv(s)
    ensures var t := Rejected(s, id, g); Inv(t) && Evolves(s, t) && NoNewSecrets(s, t)
  {
    hide Inv, Evolves, NoNewSecrets;
    EvolvesRefl(s);
    if Rejected(s, id, g) != s {
      PutKeeps(s, id.key, Erased(s.entries[id.key], s.seqno + 1));
    }
  }

  lemma BeginKeeps(s: State, id: Identity, caller: string, now: int, later: int, answer: Lookup, t: State)
    requires Inv(s) && Step(s, Begin(id, caller, now, later, answer), t)
    ensures Inv(t) && Evolves(s, t) && NoNewSecrets(s, t)
  {
    hide Inv, Evolves, NoNewSecrets, Expired, BeginAfter;
    var m :| Expired(s, now, m) && (t, answer) == BeginAfter(m, id, caller, later);
    ExpireKeeps(s, now, m);
    BeginAfterKeeps(m, id, caller, later);
    EvolvesTrans(s, m, t);
  }

  lemma SweepKeeps(s: State, alive: string -> bool, now: int, t: State)
    requires Inv(s) && Step(s, Sweep(alive, now), t)
    ensures Inv(t) && Evolves(s, t) && NoNewSecrets(s, t)
  {
    hide Inv, Evolves, NoNewSecrets, Expired, Swept;
    var m :| Expired(s, now, m) && t == Swept(m, alive);
    ExpireKeeps(s, now, m);
    SweptKeeps(m, alive);
    EvolvesTrans(s, m, t);
  }

  lemma CommitKeeps(s: State, op: Op, t: State)
    requires Inv(s) && op.Commit? && Step(s, op, t)
    ensures Inv(t) && Evolves(s, t)
    ensures !op.ok ==> NoNewSecrets(s, t)
    ensures OnlyStored(s, op, t)
  {
    hide Inv, Expired, CommitAfter;
    var m :| Expired(s, op.now, m)
          && (t, op.ok) == CommitAfter(m, op.token, op.id, op.caller, op.secret, op.later);
    ExpireKeeps(s, op.now, m);
    CommitAfterKeeps(m, op.token, op.id, op.caller, op.secret, op.later);
    if op.ok {
      CommitWrites(m, op.token, op.id, op.caller, op.secret, op.later);
    }
    EvolvesTrans(s, m, t);
  }
}

/** Expiry is a loop over slots in any order; here is what each round has done so far. */
module CacheExpiry {
  import opened Askpass
  import opened CacheModel

  ghost predicate ExpiredSlot(s: State, now: int, t: State, k: Key)
    requires k in s.entries && k in t.entries
  {
    && s.seqno < t.entries[k].generation <= t.seqno
    && t.entries[k] == Erased(s.entries[k], t.entries[k].generation)
  }

  ghost predicate AllDiffer(t: State, keys: set<Key>) {
    forall k, l | k in keys && l in keys && k in t.entries && l in t.entries && k != l ::
      t.entries[k].generation != t.entries[l].generation
  }

  /** The slots in `done` have been dealt with, in some order. */
  ghost predicate PartlyExpired(s: State, now: int, done: set<Key>, t: State) {
    && t == s.(seqno := t.seqno, entries := t.entries)
    && t.seqno == s.seqno + |OverdueKeys(s, now) * done|
    && t.entries.Keys == s.entries.Keys
    && (forall k | k in s.entries ::
          if Overdue(s.entries[k], now) && k in done then ExpiredSlot(s, now, t, k)
          else t.entries[k] == s.entries[k])
    && AllDiffer(t, OverdueKeys(s, now) * done)
  }

  lemma Untouched(s: State, now: int)
    ensures PartlyExpired(s, now, {}, s)
  {
    assert OverdueKeys(s, now) * {} == {};
  }

  lemma PartlyExpiredStep(s: State, now: int, done: set<Key>, t: State, k: Key)
    requires PartlyExpired(s, now, done, t) && k in t.entries && k !in done
    ensures PartlyExpired(s, now, done + {k}, if Overdue(t.entries[k], now) then Erase(t, k) else t)
  {
    var o := OverdueKeys(s, now);
    if Overdue(t.entries[k], now) {
      assert o * (done + {k}) == o * done + {k};
      Differ(s, now, done, t, k);
      EraseSlot(s, now, done, t, k);
    } else {
      assert o * (done + {k}) == o * done;
    }
  }

  lemma Differ(s: State, now: int, done: set<Key>, t: State, k: Key)
    requires PartlyExpired(s, now, done, t) && k in t.entries && k !in done
    ensures AllDiffer(Erase(t, k), OverdueKeys(s, now) * done + {k})
  {
  }

  lemma EraseSlot(s: State, now: int, done: set<Key>, t: State, k: Key)
    requires PartlyExpired(s, now, done, t) && k in t.entries && k !in done
    requires Overdue(t.entries[k], now)
    ensures var u := Erase(t, k);
            && u.entries.Keys == s.entries.Keys
            && forall l | l in s.entries ::
                 if Overdue(s.entries[l], now) && l in done + {k} then ExpiredSlot(s, now, u, l)
                 else u.entries[l] == s.entries[l]
  {
    hide AllDiffer;
  }

  lemma AllExpired(s: State, now: int, t: State)
    requires PartlyExpired(s, now, t.entries.Keys, t)
    ensures Expired(s, now, t.(tickets := Unexpired(s.tickets, now)))
  {
    assert OverdueKeys(s, now) * t.entries.Keys == OverdueKeys(s, now);
  }

  /** Expiry always has an outcome. */
  lemma {:induction false} SomeExpiry(s: State, now: int, todo: set<Key>, t: State) returns (u: State)
    requires todo <= s.entries.Keys && PartlyExpired(s, now, s.entries.Keys - todo, t)
    ensures PartlyExpired(s, now, u.entries.Keys, u)
    decreases todo
  {
    var done := s.entries.Keys - todo;
    if todo == {} {
      u := t;
      assert done == u.entries.Keys;
    } else {
      var k :| k in todo;
      assert k in t.entries;
      PartlyExpiredStep(s, now, done, t, k);
      assert s.entries.Keys - (todo - {k}) == done + {k};
      hide PartlyExpired;
      u := SomeExpiry(s, now, todo - {k}, if Overdue(t.entries[k], now) then Erase(t, k) else t);
    }
  }

  lemma ExpiryExists(s: State, now: int) returns (t: State)
    ensures Expired(s, now, t)
  {
    hide PartlyExpired, Expired;
    Untouched(s, now);
    assert s.entries.Keys - s.entries.Keys == {};
    var u := SomeExpiry(s, now, s.entries.Keys, s);
    AllExpired(s, now, u);
    t := u.(tickets := Unexpired(s.tickets, now));
  }
}
