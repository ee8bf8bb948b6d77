/** What each look, check and sweep of the credential cache must answer and leave behind, in every reachable state. */
module CacheAnswers {
  import opened Text
  import opened Askpass
  import opened CacheIdentity
  import opened CacheModel
  import opened CacheInvariant
  import opened CacheHistory
  import opened CacheLife
  import opened CacheLease

  /** The tickets whose deadline is not reached. */
  function InDate(s: State, now: int): set<nat> {
    set tok | tok in s.tickets && now < s.tickets[tok].expires
  }

  /** The caller has asked for this file key before and has not been found dead since. */
  predicate AskedBefore(s: State, id: Identity, caller: string) {
    !AgentPIN(id.key) && SeenKey(caller, id.key) in s.seen
  }

  /** There are 256 tickets, or 4096 callers on record and this would be one more, or 256 entries and this would
      be one more. */
  predicate Full(s: State, id: Identity, caller: string, now: int) {
    || |InDate(s, now)| == 256
    || (!AgentPIN(id.key) && SeenKey(caller, id.key) !in s.seen && |s.seen| == 4096)
    || (id.key !in s.entries && |s.entries| == 256)
  }

  /** A credential for exactly this identity that has not expired. */
  predicate Has(s: State, id: Identity, now: int) {
    && id.key in s.entries && s.entries[id.key].identity == id
    && s.entries[id.key].secret != [] && now < s.entries[id.key].expires
  }

  // ---------------------------------------------------------------- looks

  lemma AfterExpiry(s: State, now: int, m: State, id: Identity)
    requires Expired(s, now, m)
    ensures m.ttl == s.ttl && m.tickets.Keys == InDate(s, now) && m.seen == s.seen && m.entries.Keys == s.entries.Keys
    ensures id.key in s.entries ==> m.entries[id.key].identity == s.entries[id.key].identity
    ensures Live(m, id) <==> Has(s, id, now)
    ensures Has(s, id, now) ==> m.entries[id.key] == s.entries[id.key]
  {
  }

  lemma RoomAfter(s: State, now: int, m: State, id: Identity, caller: string)
    requires Inv(s) && Expired(s, now, m)
    ensures AtCapacity(m, id, caller) <==> Full(s, id, caller, now)
  {
    AfterExpiry(s, now, m, id);
    ExpireKeeps(s, now, m);
    hide Expired, AgentPIN, EntriesOk, TicketsOk, SeenOk, Evolves, NoNewSecrets;
    assert |m.entries| == |m.entries.Keys| == |s.entries|;
    assert |m.tickets| == |InDate(s, now)|;
  }

  /** What the answer must be, by the numbers. */
  predicate AnswerIs(s: State, id: Identity, caller: string, now: int, r: Lookup) {
    if s.ttl <= 0 then r == Lookup(0, [], 0, 0, Disabled)
    else if Full(s, id, caller, now) then r == Lookup(0, [], 0, 0, Capacity)
    else if Has(s, id, now) && !AskedBefore(s, id, caller)
    then r == Lookup(s.entries[id.key].generation, s.entries[id.key].secret, 0, 0, Hit)
    else
      && r == Lookup(0, [], r.token, s.ttl, r.reason) && r.token > s.seqno
      && r.reason == if AskedBefore(s, id, caller) then Retry
                     else if id.key in s.entries && s.entries[id.key].identity != id then FileChanged else Miss
  }

  lemma AnswerAfter(m: State, id: Identity, caller: string, later: int)
    ensures var r := BeginAfter(m, id, caller, later).1;
            if m.ttl <= 0 then r == Lookup(0, [], 0, 0, Disabled)
            else if AtCapacity(m, id, caller) then r == Lookup(0, [], 0, 0, Capacity)
            else if Live(m, id) && !AskedBefore(m, id, caller)
            then r == Lookup(m.entries[id.key].generation, m.entries[id.key].secret, 0, 0, Hit)
            else && r == Lookup(0, [], r.token, m.ttl, r.reason) && r.token > m.seqno
                 && r.reason == if AskedBefore(m, id, caller) then Retry
                                else if id.key in m.entries && m.entries[id.key].identity != id then FileChanged
                                else Miss
  {
    hide AgentPIN, AtCapacity;
  }

  lemma LookIs(s: State, op: Op, t: State)
    requires Inv(s) && op.Begin? && Step(s, op, t)
    ensures AnswerIs(s, op.id, op.caller, op.now, op.answer)
  {
    hide Inv, Expired, BeginAfter, AgentPIN, AtCapacity, Full, Has, Live;
    var m :| Expired(s, op.now, m) && (t, op.answer) == BeginAfter(m, op.id, op.caller, op.later);
    AfterExpiry(s, op.now, m, op.id);
    RoomAfter(s, op.now, m, op.id, op.caller);
    OldTokens(s, op.now, m);
    AnswerAfter(m, op.id, op.caller, op.later);
    HasEntry(s, op.id, op.now);
  }

  lemma HasEntry(s: State, id: Identity, now: int)
    ensures Has(s, id, now) ==> id.key in s.entries
  {
  }

  /** In every reachable state a look is turned away exactly when the cache is off or full, hits exactly when
      there is room, the credential is there and the caller is not asking again, and otherwise gets a token. */
  lemma LooksAreAnswered(states: seq<State>, ops: seq<Op>, j: nat)
    requires Run(states, ops) && j < |ops| && ops[j].Begin?
    ensures AnswerIs(states[j], ops[j].id, ops[j].caller, ops[j].now, ops[j].answer)
  {
    hide Inv, Step, AnswerIs;
    Reachable(states, ops, j);
    LookIs(states[j], ops[j], states[j + 1]);
  }

  /** A token it issues is good for ten minutes, for the entry as the look leaves it. */
  lemma LeaseLastsTenMinutes(states: seq<State>, ops: seq<Op>, j: nat)
    requires Run(states, ops) && j < |ops| && ops[j].Begin? && ops[j].answer.token != 0
    ensures ops[j].answer.token in states[j + 1].tickets && ops[j].id.key in states[j + 1].entries
    ensures states[j + 1].tickets[ops[j].answer.token]
         == Ticket(ops[j].id, states[j + 1].entries[ops[j].id.key].generation, ops[j].caller,
                   ops[j].later + 10 * 60 * 1_000_000_000)
  {
    hide Inv, Step;
    IssueIsNew(states, ops, j, ops[j].answer.token);
  }

  // ---------------------------------------------------------------- checks

  ghost predicate Unended(states: seq<State>, ops: seq<Op>, c: nat, n: nat, k: Key, e: Entry)
    requires |states| == |ops| + 1 && n <= |ops|
  {
    forall m | c <= m < n :: !EndsVersion(states, ops, m, k, e)
  }

  /** A live credential is there exactly as long as no operation has ended it. */
  lemma {:induction false} LiveStays(states: seq<State>, ops: seq<Op>, c: nat, n: nat, k: Key)
    requires Run(states, ops) && c <= n < |states| && k in states[c].entries && states[c].entries[k].secret != []
    ensures Holds(states[n], k, states[c].entries[k])
       <==> Unended(states, ops, c, n, k, states[c].entries[k])
    decreases n
  {
    hide Inv, Step, EndsVersion, Targets, Reaches;
    var e := states[c].entries[k];
    if c < n {
      LiveStays(states, ops, c, n - 1, k);
      if Holds(states[n - 1], k, e) {
        Reachable(states, ops, n - 1);
        EndsIs(states, ops, n - 1, k, e);
        StepEndsIff(states[n - 1], ops[n - 1], states[n], k);
      } else if Holds(states[n], k, e) {
        Reachable(states, ops, c);
        InvEntry(states[c], k);
        SeqnoGrows(states, ops, c, n - 1);
        OldEntry(states, ops, n - 1, n, k);
      }
    }
  }

  /** The commit at c stored the version the check at j asks about, nothing has ended it since, and the check
      does not reach its expiry. */
  ghost predicate Confirms(states: seq<State>, ops: seq<Op>, c: nat, j: nat)
    requires |states| == |ops| + 1 && c < j < |ops| && ops[j].Current?
  {
    && Stores(ops[c]) && ops[c].id == ops[j].id && ops[j].now < ops[c].later + states[0].ttl
    && var k := ops[j].id.key;
       && k in states[c + 1].entries && states[c + 1].entries[k].generation == ops[j].g
       && Unended(states, ops, c + 1, j, k, states[c + 1].entries[k])
  }

  /** A check succeeds if and only if the version it names was stored for this identity less than the lifetime
      ago and no operation has ended it since. */
  lemma CurrentByOperations(states: seq<State>, ops: seq<Op>, j: nat)
    requires Run(states, ops) && j < |ops| && ops[j].Current?
    ensures ops[j].ok <==> exists c :: 0 <= c < j && Confirms(states, ops, c, j)
  {
    hide Inv, Step, EndsVersion;
    var k := ops[j].id.key;
    CheckIs(states[j], ops[j], states[j + 1]);
    if ops[j].ok {
      var c := Provenance(states, ops, j, k);
      LiveStays(states, ops, c + 1, j, k);
      assert Confirms(states, ops, c, j);
    }
    if c :| 0 <= c < j && Confirms(states, ops, c, j) {
      CommitPuts(states, ops, c);
      LiveStays(states, ops, c + 1, j, k);
    }
  }

  lemma CheckIs(s: State, op: Op, t: State)
    requires op.Current? && Step(s, op, t)
    ensures op.ok <==> Has(s, op.id, op.now) && s.entries[op.id.key].generation == op.g
  {
    hide Expired;
    AfterExpiry(s, op.now, t, op.id);
  }

  // ---------------------------------------------------------------- sweeping and forgetting

  /** Some ticket for the key is in date and its caller is alive. */
  ghost predicate Awaited(s: State, k: Key, alive: string -> bool, now: int) {
    exists tok :: tok in s.tickets && s.tickets[tok].identity.key == k && now < s.tickets[tok].expires
                  && alive(s.tickets[tok].caller)
  }

  /** A sweep keeps exactly the records of living callers, their tickets in date, and the entries that hold an
      unexpired credential or that one of those tickets is for. */
  lemma SweepLeaves(s: State, op: Op, t: State)
    requires op.Sweep? && Step(s, op, t)
    ensures forall sk :: sk in t.seen <==> sk in s.seen && op.alive(sk.caller)
    ensures forall tok :: tok in t.tickets <==>
              tok in s.tickets && op.now < s.tickets[tok].expires && op.alive(s.tickets[tok].caller)
    ensures forall k :: k in t.entries <==>
              k in s.entries && ((s.entries[k].secret != [] && op.now < s.entries[k].expires)
                                 || Awaited(s, k, op.alive, op.now))
  {
    hide Expired;
    var m := SweepVia(s, op, t);
    hide Step;
    ExpiredParts(s, op.now, m);
    SweptTickets(m, op.alive);
    hide Swept;
    forall k ensures k in t.entries <==>
              k in s.entries && ((s.entries[k].secret != [] && op.now < s.entries[k].expires)
                                 || Awaited(s, k, op.alive, op.now)) {
      SweptEntry(s, op, m, k);
    }
  }

  lemma ExpiredParts(s: State, now: int, m: State)
    requires Expired(s, now, m)
    ensures m.seen == s.seen && m.entries.Keys == s.entries.Keys
    ensures forall tok :: tok in m.tickets <==> tok in s.tickets && now < s.tickets[tok].expires
    ensures forall tok | tok in m.tickets :: m.tickets[tok] == s.tickets[tok]
    ensures forall k | k in s.entries ::
              m.entries[k].secret != [] <==> s.entries[k].secret != [] && now < s.entries[k].expires
  {
  }

  lemma SweptTickets(m: State, alive: string -> bool)
    ensures var t := Swept(m, alive);
      && (forall sk :: sk in t.seen <==> sk in m.seen && alive(sk.caller))
      && (forall tok :: tok in t.tickets <==> tok in m.tickets && alive(m.tickets[tok].caller))
      && (forall tok | tok in t.tickets :: t.tickets[tok] == m.tickets[tok])
  {
  }

  lemma SweptEntry(s: State, op: Op, m: State, k: Key)
    requires op.Sweep? && Expired(s, op.now, m)
    ensures k in Swept(m, op.alive).entries <==>
      k in s.entries && ((s.entries[k].secret != [] && op.now < s.entries[k].expires)
                         || Awaited(s, k, op.alive, op.now))
  {
    ExpiredParts(s, op.now, m);
    hide Expired;
    if tok :| tok in s.tickets && s.tickets[tok].identity.key == k && op.now < s.tickets[tok].expires
              && op.alive(s.tickets[tok].caller) {
      assert tok in m.tickets && tok in Swept(m, op.alive).tickets;
    } else {
      NotAwaited(s, op, m, k);
    }
  }

  lemma NotAwaited(s: State, op: Op, m: State, k: Key)
    requires op.Sweep? && Expired(s, op.now, m) && !Awaited(s, k, op.alive, op.now)
    ensures !Pending(Swept(m, op.alive).tickets, k)
  {
    SweptTickets(m, op.alive);
    forall tok | tok in Swept(m, op.alive).tickets ensures m.tickets[tok].identity.key != k {
      assert tok in s.tickets;
    }
    hide Expired, Swept;
  }

  /** Forgetting a key, or all of them, leaves no entry and no ticket of it and touches nothing else. */
  lemma ForgetLeaves(s: State, op: Op, t: State)
    requires op.Forget? && Step(s, op, t)
    ensures forall k :: k in t.entries <==> k in s.entries && op.key != None && op.key != Some(k)
    ensures forall k | k in t.entries :: t.entries[k] == s.entries[k]
    ensures forall tok :: tok in t.tickets <==>
              tok in s.tickets && op.key != None && op.key != Some(s.tickets[tok].identity.key)
    ensures forall tok | tok in t.tickets :: t.tickets[tok] == s.tickets[tok]
    ensures t.seen == s.seen && t.ttl == s.ttl
  {
  }

  // ---------------------------------------------------------------- agent keys

  /** The keys that leave no retry record are the PINs of agent keys, known by a canonical fingerprint. */
  lemma AgentPINIff(k: Key)
    ensures AgentPIN(k) <==> exists d: seq<byte> :: |d| == 32 && k == Key("", "pin", "SHA256:" + Encode64(d))
  {
    hide ValidFingerprint;
    FingerprintIff(k.fingerprint);
    if AgentPIN(k) {
      var d: seq<byte> :| |d| == 32 && k.fingerprint == SHA256 + Encode64(d);
      assert k == Key("", "pin", "SHA256:" + Encode64(d));
    }
  }
}
