/** One atomic step of the credential cache, on values (internal/cache/store.go). */
module CacheModel {
  import opened Text
  import opened Askpass
  import opened CacheIdentity

  const MAX_KEYS := 256
  const MAX_CALLERS := 4096
  const MAX_TICKETS := 256
  /** Ten minutes in nanoseconds. */
  const TICKET_LIFETIME := 600_000_000_000

  datatype Entry = Entry(identity: Identity, generation: nat, secret: seq<byte>, expires: int)
  datatype Ticket = Ticket(identity: Identity, generation: nat, caller: string, expires: int)
  datatype SeenKey = SeenKey(caller: string, key: Key)

  datatype State = State(
    ttl: int,
    seqno: nat,
    entries: map<Key, Entry>,
    tickets: map<nat, Ticket>,
    seen: map<SeenKey, nat>)

  datatype Reason = Disabled | Capacity | Miss | FileChanged | Retry | Hit

  datatype Lookup = Lookup(generation: nat, secret: seq<byte>, token: nat, ttl: int, reason: Reason)

  function Refused(reason: Reason): Lookup {
    Lookup(0, [], 0, 0, reason)
  }

  function New(ttl: int): State {
    State(ttl, 0, map[], map[], map[])
  }

  // ---------------------------------------------------------------- building blocks

  function Erased(e: Entry, stamp: nat): Entry {
    e.(secret := [], generation := stamp)
  }

  /** Write an entry that takes the next generation. */
  function Put(s: State, k: Key, e: Entry): State {
    s.(seqno := e.generation, entries := s.entries[k := e])
  }

  /** Wipe one entry and give it the next generation. */
  function Erase(s: State, k: Key): State
    requires k in s.entries
  {
    Put(s, k, Erased(s.entries[k], s.seqno + 1))
  }

  predicate Overdue(e: Entry, now: int) {
    e.secret != [] && now >= e.expires
  }

  function OverdueKeys(s: State, now: int): set<Key> {
    set k | k in s.entries && Overdue(s.entries[k], now)
  }

  function Unexpired(tickets: map<nat, Ticket>, now: int): map<nat, Ticket> {
    map tok | tok in tickets && now < tickets[tok].expires :: tickets[tok]
  }

  /** Overdue entries are wiped in some order, which decides who gets which fresh generation. */
  ghost predicate Expired(s: State, now: int, t: State) {
    && t.ttl == s.ttl
    && t.seen == s.seen
    && t.tickets == Unexpired(s.tickets, now)
    && t.seqno == s.seqno + |OverdueKeys(s, now)|
    && t.entries.Keys == s.entries.Keys
    && (forall k | k in s.entries ::
          if Overdue(s.entries[k], now)
          then s.seqno < t.entries[k].generation <= t.seqno
               && t.entries[k] == Erased(s.entries[k], t.entries[k].generation)
          else t.entries[k] == s.entries[k])
    && (forall k, l | k in OverdueKeys(s, now) && l in OverdueKeys(s, now) && k != l ::
          t.entries[k].generation != t.entries[l].generation)
  }

  function IsTracked(id: Identity): bool {
    !AgentPIN(id.key)
  }

  function IsRetry(s: State, id: Identity, caller: string): bool {
    IsTracked(id) && SeenKey(caller, id.key) in s.seen
  }

  /** The live credential stored for exactly this identity. */
  predicate Live(s: State, id: Identity) {
    id.key in s.entries && s.entries[id.key].identity == id && s.entries[id.key].secret != []
  }

  // ---------------------------------------------------------------- operations

  predicate AtCapacity(s: State, id: Identity, caller: string) {
    || (IsTracked(id) && !IsRetry(s, id, caller) && |s.seen| >= MAX_CALLERS)
    || |s.tickets| >= MAX_TICKETS
    || (id.key !in s.entries && |s.entries| >= MAX_KEYS)
  }

  /** The entry for id's key, created or wiped as needed so that it carries id. */
  function Admit(s: State, id: Identity): (t: State)
    ensures id.key in t.entries
  {
    if id.key !in s.entries then
      Put(s, id.key, Entry(id, s.seqno + 1, [], 0))
    else if s.entries[id.key].identity != id then
      Put(s, id.key, Erased(s.entries[id.key], s.seqno + 1).(identity := id))
    else s
  }

  function Track(s: State, id: Identity, caller: string, g: nat): State {
    if IsTracked(id) then s.(seen := s.seen[SeenKey(caller, id.key) := g]) else s
  }

  function Issue(s: State, id: Identity, caller: string, later: int, reason: Reason): (State, Lookup)
    requires id.key in s.entries
  {
    var tok := s.seqno + 1;
    (Track(s, id, caller, 0).(
       seqno := tok,
       tickets := s.tickets[tok := Ticket(id, s.entries[id.key].generation, caller, later + TICKET_LIFETIME)]),
     Lookup(0, [], tok, s.ttl, reason))
  }

  /** The answer once the entry carries id; `changed` tells that it was wiped for a changed file. */
  function Respond(a: State, id: Identity, caller: string, later: int, changed: bool): (State, Lookup)
    requires id.key in a.entries
  {
    var e := a.entries[id.key];
    if IsRetry(a, id, caller) then
      var b := if a.seen[SeenKey(caller, id.key)] == e.generation then Erase(a, id.key) else a;
      Issue(b, id, caller, later, Retry)
    else if e.secret != [] then
      (Track(a, id, caller, e.generation), Lookup(e.generation, e.secret, 0, 0, Hit))
    else
      Issue(a, id, caller, later, if changed then FileChanged else Miss)
  }

  /** Begin once overdue entries are gone. */
  function BeginAfter(s: State, id: Identity, caller: string, later: int): (State, Lookup) {
    if s.ttl <= 0 then (s, Refused(Disabled))
    else if AtCapacity(s, id, caller) then (s, Refused(Capacity))
    else
      Respond(Admit(s, id), id, caller, later,
              id.key in s.entries && s.entries[id.key].identity != id)
  }

  predicate IsCurrent(s: State, id: Identity, g: nat) {
    Live(s, id) && s.entries[id.key].generation == g
  }

  function Rejected(s: State, id: Identity, g: nat): State {
    if id.key in s.entries && s.entries[id.key].identity == id && s.entries[id.key].generation == g
    then Erase(s, id.key) else s
  }

  predicate MayCommit(s: State, token: nat, id: Identity, secret: seq<byte>)
    requires token in s.tickets
  {
    && id.key in s.entries
    && s.tickets[token].identity == id
    && s.entries[id.key].identity == id
    && s.tickets[token].generation == s.entries[id.key].generation
    && secret != [] && Validate(secret)
  }

  /** Store an answer under the next generation and record that this caller knows it. */
  function Keep(s: State, id: Identity, caller: string, secret: seq<byte>, later: int): State {
    var e := Entry(id, s.seqno + 1, secret, later + s.ttl);
    Track(Put(s, id.key, e), id, caller, e.generation)
  }

  lemma KeepIs(s: State, id: Identity, caller: string, secret: seq<byte>, later: int)
    ensures var e := Entry(id, s.seqno + 1, secret, later + s.ttl);
            var p := Put(s, id.key, e);
            Keep(s, id, caller, secret, later)
            == if AgentPIN(id.key) then p else p.(seen := p.seen[SeenKey(caller, id.key) := e.generation])
  {
  }

  /** Commit once overdue entries are gone. */
  function CommitAfter(s: State, token: nat, id: Identity, caller: string, secret: seq<byte>, later: int): (State, bool)
  {
    if token !in s.tickets || s.tickets[token].caller != caller then (s, false)
    else
      var u := s.(tickets := s.tickets - {token});
      if !MayCommit(s, token, id, secret) then (u, false)
      else (Keep(u, id, caller, secret, later), true)
  }

  predicate Hits(key: Option<Key>, k: Key) {
    key == None || key == Some(k)
  }

  function HitKeys(s: State, key: Option<Key>): set<Key> {
    set k | k in s.entries && Hits(key, k)
  }

  function Forgotten(s: State, key: Option<Key>): State {
    s.(seqno := s.seqno + |HitKeys(s, key)|,
       entries := s.entries - HitKeys(s, key),
       tickets := map tok | tok in s.tickets && !Hits(key, s.tickets[tok].identity.key) :: s.tickets[tok])
  }

  /** Sweep once overdue entries are gone. */
  function Swept(s: State, alive: string -> bool): State {
    var tickets := map tok | tok in s.tickets && alive(s.tickets[tok].caller) :: s.tickets[tok];
    s.(seen := map sk | sk in s.seen && alive(sk.caller) :: s.seen[sk],
       tickets := tickets,
       entries := map k | k in s.entries && (s.entries[k].secret != [] || Pending(tickets, k)) :: s.entries[k])
  }

  predicate Pending(tickets: map<nat, Ticket>, k: Key) {
    exists tok :: tok in tickets && tickets[tok].identity.key == k
  }

  // ---------------------------------------------------------------- steps

  /** `now` is the clock when expiry is checked, `later` when a deadline is set. */
  datatype Op =
    | Begin(id: Identity, caller: string, now: int, later: int, answer: Lookup)
    | Current(id: Identity, g: nat, now: int, ok: bool)
    | Reject(id: Identity, g: nat)
    | Commit(token: nat, id: Identity, caller: string, secret: seq<byte>, now: int, later: int, ok: bool)
    | Forget(key: Option<Key>)
    | Sweep(alive: string -> bool, now: int)

  /** The operations that look at the clock. */
  predicate Timed(op: Op) {
    op.Begin? || op.Current? || op.Commit? || op.Sweep?
  }

  ghost predicate Step(s: State, op: Op, t: State) {
    match op
    case Begin(id, caller, now, later, answer) =>
      now <= later && exists m :: Expired(s, now, m) && (t, answer) == BeginAfter(m, id, caller, later)
    case Current(id, g, now, ok) =>
      Expired(s, now, t) && ok == IsCurrent(t, id, g)
    case Reject(id, g) =>
      t == Rejected(s, id, g)
    case Commit(token, id, caller, secret, now, later, ok) =>
      now <= later && exists m :: Expired(s, now, m) && (t, ok) == CommitAfter(m, token, id, caller, secret, later)
    case Forget(key) =>
      t == Forgotten(s, key)
    case Sweep(alive, now) =>
      exists m :: Expired(s, now, m) && t == Swept(m, alive)
  }
}
