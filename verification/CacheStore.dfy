/** The credential cache as it runs: records and byte buffers changed in place (internal/cache/store.go). */
module CacheStore {
  import opened Text
  import opened Askpass
  import opened CacheIdentity
  import M = CacheModel
  import opened CacheExpiry

  predicate Zero(b: array<byte>)
    reads b
  {
    forall i | 0 <= i < b.Length :: b[i] == 0
  }

  method Clear(b: array<byte>)
    modifies b
    ensures Zero(b)
  {
    for i := 0 to b.Length
      invariant forall j | 0 <= j < i :: b[j] == 0
    {
      b[i] := 0;
    }
  }

  method Copy(b: array<byte>) returns (c: array<byte>)
    ensures fresh(c) && c[..] == b[..]
  {
    c := new byte[b.Length](i requires 0 <= i < b.Length reads b => b[i]);
    assert c[..] == b[..];
  }

  /** One cache slot; `secret` is null while it holds no credential. */
  class Cell {
    var identity: Identity
    var generation: nat
    var secret: array?<byte>
    var expires: int

    constructor (identity: Identity, generation: nat)
      ensures this.identity == identity && this.generation == generation
      ensures secret == null && expires == 0
    {
      this.identity := identity;
      this.generation := generation;
      secret := null;
      expires := 0;
    }

    function Value(): M.Entry
      reads this, secret
    {
      M.Entry(identity, generation, if secret == null then [] else secret[..], expires)
    }
  }

  /** What Begin returns; the secret is the caller's own copy. */
  datatype Answer = Answer(generation: nat, secret: array?<byte>, token: nat, ttl: int, reason: M.Reason)

  function Contents(a: Answer): M.Lookup
    reads a.secret
  {
    M.Lookup(a.generation, if a.secret == null then [] else a.secret[..], a.token, a.ttl, a.reason)
  }

  class Store {
    const ttl: int
    var seqno: nat
    var entries: map<Key, Cell>
    var tickets: map<nat, M.Ticket>
    var seen: map<M.SeenKey, nat>
    /** Every buffer this store ever allocated. */
    ghost var buffers: set<array<byte>>

    ghost predicate CellsApart()
      reads this, entries.Values
    {
      && (forall k, l | k in entries && l in entries && k != l :: entries[k] != entries[l])
      && (forall k, l | k in entries && l in entries && k != l && entries[k].secret != null ::
            entries[k].secret != entries[l].secret)
    }

    ghost predicate Owned(b: array<byte>)
      reads this, entries.Values
    {
      exists k | k in entries :: entries[k].secret == b
    }

    /** Each buffer ever allocated belongs to exactly one slot or has been wiped. */
    ghost predicate Valid()
      reads this, entries.Values, buffers
    {
      && CellsApart()
      && (forall k | k in entries && entries[k].secret != null :: entries[k].secret in buffers)
      && (forall b | b in buffers :: Owned(b) || Zero(b))
    }

    ghost function State(): M.State
      requires Valid()
      reads this, entries.Values, buffers
    {
      M.State(ttl, seqno, map k | k in entries :: entries[k].Value(), tickets, seen)
    }

    /** Only newly allocated buffers were added. */
    twostate predicate Grew()
      reads this`buffers
    {
      old(buffers) <= buffers && fresh(buffers - old(buffers))
    }

    constructor (ttl: int)
      ensures Valid() && State() == M.New(ttl) && buffers == {}
    {
      this.ttl := ttl;
      seqno := 0;
      entries, tickets, seen := map[], map[], map[];
      buffers := {};
    }

    /** Where the fields stand as told, the abstract state is as told. */
    lemma StateIs(s: M.State)
      requires Valid()
      requires s.ttl == ttl && s.seqno == seqno && s.tickets == tickets && s.seen == seen
      requires s.entries.Keys == entries.Keys
      requires forall k | k in entries :: entries[k].Value() == s.entries[k]
      ensures State() == s
    {
      hide Valid;
    }

    method Next() returns (n: nat)
      modifies this`seqno
      ensures n == seqno == old(seqno) + 1
    {
      seqno := seqno + 1;
      n := seqno;
    }

    /** Clear the buffer of one slot and let go of it. */
    method Wipe(k: Key)
      requires Valid() && k in entries
      modifies this`seqno, entries[k], entries[k].secret
      ensures Valid() && seqno == old(seqno) + 1 && entries[k].secret == null
      ensures entries[k].Value() == M.Erased(old(entries[k].Value()), seqno)
      ensures forall l | l in entries && l != k :: entries[l].Value() == old(entries[l].Value())
    {
      var e := entries[k];
      ghost var gone := e.secret;
      if e.secret != null {
        Clear(e.secret);
      }
      e.secret := null;
      e.generation := Next();
      forall b | b in buffers ensures Owned(b) || Zero(b) {
        if b != gone && old(Owned(b)) {
          var l :| l in entries && old(entries[l].secret) == b;
          assert entries[l].secret == b;
        }
      }
    }

    method Erase(k: Key)
      requires Valid() && k in entries
      modifies this`seqno, entries.Values, buffers
      ensures Valid() && State() == M.Erase(old(State()), k) && entries[k].secret == null
    {
      ghost var s := State();
      Wipe(k);
      hide Valid;
      StateIs(M.Erase(s, k));
    }

    // -------------------------------------------------------------- expiry

    method ExpireEntry(k: Key, now: int)
      requires Valid() && k in entries
      modifies this`seqno, entries.Values, buffers
      ensures Valid()
      ensures State() == if M.Overdue(old(State()).entries[k], now) then M.Erase(old(State()), k) else old(State())
    {
      var e := entries[k];
      if e.secret != null && e.secret.Length > 0 && now >= e.expires {
        Erase(k);
      }
    }

    lemma StateKeys()
      requires Valid()
      ensures State().entries.Keys == entries.Keys
    {
      hide Valid;
    }

    method ExpireEntries(now: int)
      requires Valid()
      modifies this`seqno, entries.Values, buffers
      ensures Valid() && State().entries.Keys == entries.Keys
      ensures PartlyExpired(old(State()), now, entries.Keys, State())
    {
      hide *;
      ghost var s := State();
      var todo := entries.Keys;
      Untouched(s, now);
      assert entries.Keys - todo == {};
      while todo != {}
        invariant Valid() && todo <= entries.Keys
        invariant PartlyExpired(s, now, entries.Keys - todo, State())
        decreases todo
      {
        var k :| k in todo;
        StateKeys();
        PartlyExpiredStep(s, now, entries.Keys - todo, State(), k);
        ExpireEntry(k, now);
        assert entries.Keys - (todo - {k}) == entries.Keys - todo + {k};
        todo := todo - {k};
      }
      StateKeys();
      assert entries.Keys - todo == entries.Keys;
    }

    method ExpireTickets(now: int)
      modifies this`tickets
      ensures tickets == M.Unexpired(old(tickets), now)
    {
      var todo := tickets.Keys;
      while todo != {}
        invariant todo <= tickets.Keys <= old(tickets).Keys
        invariant forall tok | tok in tickets :: tickets[tok] == old(tickets)[tok]
        invariant forall tok | tok in old(tickets) ::
          tok in tickets <==> tok in todo || now < old(tickets)[tok].expires
        decreases todo
      {
        var tok :| tok in todo;
        if now >= tickets[tok].expires {
          tickets := tickets - {tok};
        }
        todo := todo - {tok};
      }
    }

    method TicketsOnly(now: int)
      requires Valid()
      modifies this`tickets
      ensures Valid() && State() == old(State()).(tickets := M.Unexpired(old(State()).tickets, now))
    {
      ghost var t := State();
      ExpireTickets(now);
      assert Valid();
      hide Valid;
      StateIs(t.(tickets := tickets));
    }

    method Expire(now: int)
      requires Valid()
      modifies this`seqno, this`tickets, entries.Values, buffers
      ensures Valid() && M.Expired(old(State()), now, State())
    {
      hide Valid, PartlyExpired, M.Expired;
      ghost var s := State();
      ExpireEntries(now);
      ghost var t := State();
      TicketsOnly(now);
      AllExpired(s, now, t);
    }

    // -------------------------------------------------------------- operations

    /** Field views of the abstract state, with its definition out of sight. */
    lemma Counters()
      requires Valid()
      ensures State().ttl == ttl && State().seqno == seqno
    {
      hide Valid;
    }

    lemma Fields()
      requires Valid()
      ensures var s := State();
              && s.ttl == ttl && s.seqno == seqno && s.tickets == tickets && s.seen == seen
              && s.entries.Keys == entries.Keys
              && forall k | k in entries :: s.entries[k] == entries[k].Value()
    {
      hide Valid;
    }

    method NewCell(id: Identity)
      requires Valid() && id.key !in entries
      modifies this`seqno, this`entries
      ensures Valid() && seqno == old(seqno) + 1
      ensures fresh(entries.Values - old(entries.Values)) && entries.Keys == old(entries).Keys + {id.key}
      ensures entries[id.key].Value() == M.Entry(id, seqno, [], 0)
      ensures forall k | k in old(entries) :: entries[k].Value() == old(entries[k].Value())
    {
      var g := Next();
      var e := new Cell(id, g);
      entries := entries[id.key := e];
      forall b | b in buffers ensures Owned(b) || Zero(b) {
        if old(Owned(b)) {
          var l :| l in old(entries) && old(entries[l].secret) == b;
          assert entries[l].secret == b;
        }
      }
    }

    method AddCell(id: Identity)
      requires Valid() && id.key !in entries
      modifies this`seqno, this`entries
      ensures Valid() && State() == M.Put(old(State()), id.key, M.Entry(id, old(seqno) + 1, [], 0))
      ensures fresh(entries.Values - old(entries.Values)) && id.key in entries
    {
      ghost var s := State();
      Fields();
      hide Valid;
      NewCell(id);
      StateIs(M.Put(s, id.key, M.Entry(id, s.seqno + 1, [], 0)));
    }

    method Reidentify(id: Identity)
      requires Valid() && id.key in entries
      modifies this`seqno, entries.Values, buffers
      ensures Valid()
      ensures State() == M.Put(old(State()), id.key,
                               M.Erased(old(State()).entries[id.key], old(seqno) + 1).(identity := id))
    {
      Fields();
      hide Valid, State, M.Put, M.Erase;
      PutTwice(State(), id);
      Erase(id.key);
      Rename(id);
    }

    method Rename(id: Identity)
      requires Valid() && id.key in entries
      modifies entries.Values
      ensures Valid()
      ensures var s := old(State());
              State() == s.(entries := s.entries[id.key := s.entries[id.key].(identity := id)])
    {
      ghost var s := State();
      var e := entries[id.key];
      e.identity := id;
      assert Valid();
      hide Valid;
      assert forall l | l in entries && l != id.key :: entries[l].Value() == s.entries[l];
      StateIs(s.(entries := s.entries[id.key := s.entries[id.key].(identity := id)]));
    }

    method Admit(id: Identity) returns (changed: bool)
      requires Valid()
      modifies this`seqno, this`entries, entries.Values, buffers
      ensures Valid() && State() == M.Admit(old(State()), id) && id.key in entries
      ensures fresh(entries.Values - old(entries.Values))
      ensures changed == (id.key in old(entries) && old(entries[id.key].identity) != id)
    {
      Fields();
      hide Valid, State;
      changed := false;
      if id.key !in entries {
        AddCell(id);
      } else if entries[id.key].identity != id {
        Reidentify(id);
        changed := true;
      }
      Fields();
    }

    method Remember(sk: M.SeenKey, g: nat)
      requires Valid()
      modifies this`seen
      ensures Valid() && State() == old(State()).(seen := old(State()).seen[sk := g])
    {
      ghost var s := State();
      seen := seen[sk := g];
      assert Valid();
      hide Valid;
      StateIs(s.(seen := seen));
    }

    method AddTicket(tk: M.Ticket) returns (token: nat)
      requires Valid()
      modifies this`seqno, this`tickets
      ensures Valid() && token == old(seqno) + 1
      ensures State() == old(State()).(seqno := token, tickets := old(State()).tickets[token := tk])
    {
      ghost var s := State();
      token := Next();
      tickets := tickets[token := tk];
      assert Valid();
      hide Valid;
      StateIs(s.(seqno := token, tickets := tickets));
    }

    /** The caller's own copy of a live credential. */
    method CopySecret(k: Key) returns (b: array<byte>)
      requires Valid() && k in entries && entries[k].secret != null
      ensures fresh(b) && b !in buffers && b[..] == entries[k].Value().secret
    {
      b := Copy(entries[k].secret);
    }

    method BeginRest(id: Identity, caller: string, later: int) returns (r: Answer)
      requires Valid()
      modifies this`seqno, this`entries, this`tickets, this`seen, entries.Values, buffers
      ensures Valid() && (State(), Contents(r)) == M.BeginAfter(old(State()), id, caller, later)
      ensures r.secret != null ==> fresh(r.secret) && r.secret !in buffers
    {
      Fields();
      hide Valid, State, M.Respond, M.Admit, AgentPIN;
      r := Answer(0, null, 0, 0, M.Disabled);
      if ttl <= 0 {
        return;
      }
      var sk := M.SeenKey(caller, id.key);
      var trackRetry := !AgentPIN(id.key);
      var retry := trackRetry && sk in seen;
      if (trackRetry && !retry && |seen| >= M.MAX_CALLERS) || |tickets| >= M.MAX_TICKETS
         || (id.key !in entries && |entries| >= M.MAX_KEYS) {
        r := r.(reason := M.Capacity);
        return;
      }
      var changed := Admit(id);
      r := Respond(id, caller, later, changed);
    }

    method Respond(id: Identity, caller: string, later: int, changed: bool) returns (r: Answer)
      requires Valid() && id.key in entries && id.key in State().entries
      modifies this`seqno, this`tickets, this`seen, entries.Values, buffers
      ensures Valid() && (State(), Contents(r)) == M.Respond(old(State()), id, caller, later, changed)
      ensures r.secret != null ==> fresh(r.secret) && r.secret !in buffers
    {
      Fields();
      hide Valid, State, M.Issue, AgentPIN;
      var sk := M.SeenKey(caller, id.key);
      var trackRetry := !AgentPIN(id.key);
      var e := entries[id.key];
      if trackRetry && sk in seen {
        if seen[sk] == e.generation {
          Erase(id.key);
        }
        r := Lease(id, caller, later, M.Retry);
      } else if e.secret != null && e.secret.Length > 0 {
        var copy := CopySecret(id.key);
        r := Answer(e.generation, copy, 0, 0, M.Hit);
        if trackRetry {
          Remember(sk, e.generation);
        }
      } else {
        r := Lease(id, caller, later, if changed then M.FileChanged else M.Miss);
      }
    }

    /** Hand out a token for the entry as it stands; retry tracking is reserved even if the dialog is cancelled. */
    method Lease(id: Identity, caller: string, later: int, reason: M.Reason) returns (r: Answer)
      requires Valid() && id.key in State().entries
      modifies this`seqno, this`tickets, this`seen
      ensures Valid() && (State(), Contents(r)) == M.Issue(old(State()), id, caller, later, reason)
      ensures r.secret == null
    {
      Fields();
      hide Valid, State, AgentPIN;
      var g := entries[id.key].generation;
      if !AgentPIN(id.key) {
        Remember(M.SeenKey(caller, id.key), 0);
      }
      var token := AddTicket(M.Ticket(id, g, caller, later + M.TICKET_LIFETIME));
      r := Answer(0, null, token, ttl, reason);
    }

    method Begin(id: Identity, caller: string, now: int, later: int) returns (r: Answer)
      requires Valid() && now <= later
      modifies this, entries.Values, buffers
      ensures Valid() && buffers == old(buffers)
      ensures M.Step(old(State()), M.Begin(id, caller, now, later, Contents(r)), State())
      ensures r.secret != null ==> fresh(r.secret) && r.secret !in buffers
    {
      hide Valid, State, M.Expired, M.BeginAfter;
      ghost var s := State();
      Expire(now);
      ghost var m := State();
      r := BeginRest(id, caller, later);
      assert M.Expired(s, now, m) && (State(), Contents(r)) == M.BeginAfter(m, id, caller, later);
    }

    method Current(id: Identity, g: nat, now: int) returns (ok: bool)
      requires Valid()
      modifies this, entries.Values, buffers
      ensures Valid() && buffers == old(buffers)
      ensures M.Step(old(State()), M.Current(id, g, now, ok), State())
    {
      hide Valid, State, M.Expired;
      Expire(now);
      Fields();
      ok := id.key in entries && entries[id.key].identity == id && entries[id.key].generation == g
            && entries[id.key].secret != null && entries[id.key].secret.Length > 0;
    }

    method Reject(id: Identity, g: nat)
      requires Valid()
      modifies this, entries.Values, buffers
      ensures Valid() && buffers == old(buffers)
      ensures M.Step(old(State()), M.Reject(id, g), State())
    {
      hide Valid, State;
      Fields();
      if id.key in entries && entries[id.key].identity == id && entries[id.key].generation == g {
        Erase(id.key);
      }
    }

    method PlaceCopy(k: Key, secret: array<byte>, expires: int)
      requires Valid() && k in entries && entries[k].secret == null && secret !in buffers
      modifies entries[k], this`buffers
      ensures Valid() && buffers == old(buffers) + {entries[k].secret} && fresh(entries[k].secret)
      ensures entries[k].Value() == old(entries[k].Value()).(secret := secret[..], expires := expires)
      ensures forall l | l in entries && l != k :: entries[l].Value() == old(entries[l].Value())
    {
      var b := Copy(secret);
      var e := entries[k];
      e.secret := b;
      e.expires := expires;
      buffers := buffers + {b};
      forall c | c in buffers ensures Owned(c) || Zero(c) {
        if c != b && old(Owned(c)) {
          var l :| l in entries && old(entries[l].secret) == c;
          assert entries[l].secret == c;
        } else if c == b {
          assert entries[k].secret == b;
        }
      }
    }

    /** Put a fresh copy of the answer into a slot that was just wiped. */
    method Fill(k: Key, secret: array<byte>, expires: int)
      requires Valid() && k in entries && entries[k].secret == null && secret !in buffers
      modifies entries.Values, this`buffers
      ensures Valid() && Grew()
      ensures k in old(State()).entries
      ensures State() == old(State()).(entries :=
                old(State()).entries[k := old(State()).entries[k].(secret := secret[..], expires := expires)])
    {
      ghost var s := State();
      Fields();
      hide Valid;
      PlaceCopy(k, secret, expires);
      StateIs(s.(entries := s.entries[k := s.entries[k].(secret := secret[..], expires := expires)]));
    }

    method DropTicket(token: nat)
      requires Valid()
      modifies this`tickets
      ensures Valid() && State() == old(State()).(tickets := old(State()).tickets - {token})
    {
      ghost var s := State();
      tickets := tickets - {token};
      assert Valid();
      hide Valid;
      StateIs(s.(tickets := tickets));
    }

    method Replace(id: Identity, secret: array<byte>, expires: int, ghost bytes: seq<byte>) returns (g: nat)
      requires Valid() && id.key in entries && entries[id.key].identity == id
      requires secret !in buffers && secret[..] == bytes
      modifies this`seqno, this`buffers, entries.Values, buffers
      ensures Valid() && Grew() && secret !in buffers && secret[..] == bytes
      ensures State() == M.Put(old(State()), id.key, M.Entry(id, old(seqno) + 1, bytes, expires))
      ensures g == old(seqno) + 1
    {
      Fields();
      hide Valid, State, M.Erase, M.Put;
      FillErased(State(), id, bytes, expires);
      Erase(id.key);
      Fill(id.key, secret, expires);
      Fields();
      g := entries[id.key].generation;
    }

    /** File keys get a record of the version their caller just stored. */
    method RememberStored(id: Identity, caller: string, g: nat)
      requires Valid()
      modifies this`seen
      ensures Valid() && buffers == old(buffers)
      ensures State() == if AgentPIN(id.key) then old(State())
                         else old(State()).(seen := old(State()).seen[M.SeenKey(caller, id.key) := g])
    {
      hide Valid, State, AgentPIN;
      if !AgentPIN(id.key) {
        Remember(M.SeenKey(caller, id.key), g);
      }
    }

    method Keep(id: Identity, caller: string, secret: array<byte>, later: int, ghost bytes: seq<byte>)
      requires Valid() && id.key in entries && entries[id.key].identity == id
      requires secret !in buffers && secret[..] == bytes
      modifies this`seqno, this`seen, this`buffers, entries.Values, buffers
      ensures Valid() && Grew() && secret !in buffers && secret[..] == bytes
      ensures State() == M.Keep(old(State()), id, caller, bytes, later)
    {
      hide *;
      Counters();
      ghost var s := State();
      var g := Replace(id, secret, later + ttl, bytes);
      ghost var p := State();
      RememberStored(id, caller, g);
      KeptAs(s, p, State(), id, caller, bytes, later);
    }

    method CommitRest(token: nat, id: Identity, caller: string, secret: array<byte>, later: int) returns (ok: bool)
      requires Valid() && secret !in buffers
      modifies this`seqno, this`tickets, this`seen, this`buffers, entries.Values, buffers
      ensures Valid() && Grew() && secret !in buffers
      ensures secret[..] == old(secret[..])
      ensures (State(), ok) == M.CommitAfter(old(State()), token, id, caller, secret[..], later)
    {
      Fields();
      hide Valid, State, M.Keep, Validate;
      ok := false;
      if token !in tickets || tickets[token].caller != caller {
        return;
      }
      var t := tickets[token];
      DropTicket(token);
      Fields();
      if id.key !in entries || t.identity != id || entries[id.key].identity != id
         || t.generation != entries[id.key].generation || secret.Length == 0 || !Validate(secret[..]) {
        return;
      }
      Keep(id, caller, secret, later, secret[..]);
      ok := true;
    }

    /** The submitted buffer stays the client's; the store keeps a copy. */
    method Commit(token: nat, id: Identity, caller: string, secret: array<byte>, now: int, later: int)
      returns (ok: bool)
      requires Valid() && now <= later && secret !in buffers
      modifies this, entries.Values, buffers
      ensures Valid() && Grew() && secret !in buffers
      ensures secret[..] == old(secret[..])
      ensures M.Step(old(State()), M.Commit(token, id, caller, secret[..], now, later, ok), State())
    {
      hide Valid, State, M.Expired, M.CommitAfter;
      ghost var s := State();
      Expire(now);
      ghost var m := State();
      ok := CommitRest(token, id, caller, secret, later);
      assert M.Expired(s, now, m) && (State(), ok) == M.CommitAfter(m, token, id, caller, secret[..], later);
    }

    /** Take an empty slot out of the map. */
    method Remove(k: Key)
      requires Valid() && k in entries && entries[k].Value().secret == []
      modifies this`entries
      ensures Valid() && State() == old(State()).(entries := old(State()).entries - {k})
      ensures entries == old(entries) - {k}
    {
      ghost var s := State();
      ghost var gone := entries[k].secret;
      entries := entries - {k};
      forall b | b in buffers ensures Owned(b) || Zero(b) {
        if b != gone && old(Owned(b)) {
          var l :| l in old(entries) && old(entries[l].secret) == b;
          assert l in entries;
        }
      }
      assert Valid();
      hide Valid;
      StateIs(s.(entries := s.entries - {k}));
    }

    method Discard(k: Key)
      requires Valid() && k in entries
      modifies this`seqno, this`entries, entries.Values, buffers
      ensures Valid() && entries.Keys == old(entries.Keys) - {k} && entries.Values <= old(entries.Values)
      ensures State() == old(State()).(seqno := old(seqno) + 1, entries := old(State()).entries - {k})
    {
      Fields();
      hide Valid, State;
      ghost var s := State();
      Erase(k);
      Remove(k);
      assert M.Erase(s, k).entries - {k} == s.entries - {k};
    }

    method ForgetEntry(k: Key, key: Option<Key>)
      requires Valid() && k in entries
      modifies this`seqno, this`entries, entries.Values, buffers
      ensures Valid() && entries.Values <= old(entries.Values) && old(entries.Keys) - {k} <= entries.Keys
      ensures State() == ForgottenOne(old(State()), key, k)
    {
      if M.Hits(key, k) {
        Fields();
        hide Valid, State;
        Discard(k);
      }
    }

    method ForgetEntries(key: Option<Key>)
      requires Valid()
      modifies this`seqno, this`entries, entries.Values, buffers
      ensures Valid() && PartlyForgotten(old(State()), key, {}, State()) && entries.Values <= old(entries.Values)
    {
      hide *;
      StateKeys();
      ghost var s := State();
      var todo := entries.Keys;
      ghost var cells := entries.Values;
      NothingForgotten(s, key);
      while todo != {}
        invariant Valid() && todo <= entries.Keys && entries.Values <= cells
        invariant PartlyForgotten(s, key, todo, State())
        decreases todo
      {
        var k :| k in todo;
        StateKeys();
        ghost var t := State();
        ForgetStep(s, key, todo, t, k);
        ForgetEntry(k, key);
        todo := todo - {k};
        assert State() == ForgottenOne(t, key, k);
      }
    }

    method ForgetTickets(key: Option<Key>)
      modifies this`tickets
      ensures tickets == M.Forgotten(M.State(0, 0, map[], old(tickets), map[]), key).tickets
    {
      var todo := tickets.Keys;
      while todo != {}
        invariant todo <= tickets.Keys <= old(tickets).Keys
        invariant forall tok | tok in tickets :: tickets[tok] == old(tickets)[tok]
        invariant forall tok | tok in old(tickets) ::
          tok in tickets <==> tok in todo || !M.Hits(key, old(tickets)[tok].identity.key)
        decreases todo
      {
        var tok :| tok in todo;
        if M.Hits(key, tickets[tok].identity.key) {
          tickets := tickets - {tok};
        }
        todo := todo - {tok};
      }
    }

    method Forget(key: Option<Key>)
      requires Valid()
      modifies this, entries.Values, buffers
      ensures Valid() && buffers == old(buffers) && entries.Values <= old(entries.Values)
      ensures M.Step(old(State()), M.Forget(key), State())
    {
      hide *;
      ghost var s := State();
      ForgetEntries(key);
      ghost var t := State();
      ForgetTicketsOf(key);
      AllForgotten(s, key, t);
      ForgetIs(s, key);
    }

    method ForgetTicketsOf(key: Option<Key>)
      requires Valid()
      modifies this`tickets
      ensures Valid() && State() == old(State()).(tickets := M.Forgotten(old(State()), key).tickets)
    {
      ghost var s := State();
      ForgetTickets(key);
      assert Valid();
      hide Valid;
      StateIs(s.(tickets := tickets));
    }

    method SweepSeen(alive: string -> bool)
      modifies this`seen
      ensures seen == map sk | sk in old(seen) && alive(sk.caller) :: old(seen)[sk]
    {
      var todo := seen.Keys;
      while todo != {}
        invariant todo <= seen.Keys <= old(seen).Keys
        invariant forall sk | sk in seen :: seen[sk] == old(seen)[sk]
        invariant forall sk | sk in old(seen) :: sk in seen <==> sk in todo || alive(sk.caller)
        decreases todo
      {
        var sk :| sk in todo;
        if !alive(sk.caller) {
          seen := seen - {sk};
        }
        todo := todo - {sk};
      }
    }

    method SweepTickets(alive: string -> bool)
      modifies this`tickets
      ensures tickets == map tok | tok in old(tickets) && alive(old(tickets)[tok].caller) :: old(tickets)[tok]
    {
      var todo := tickets.Keys;
      while todo != {}
        invariant todo <= tickets.Keys <= old(tickets).Keys
        invariant forall tok | tok in tickets :: tickets[tok] == old(tickets)[tok]
        invariant forall tok | tok in old(tickets) ::
          tok in tickets <==> tok in todo || alive(old(tickets)[tok].caller)
        decreases todo
      {
        var tok :| tok in todo;
        if !alive(tickets[tok].caller) {
          tickets := tickets - {tok};
        }
        todo := todo - {tok};
      }
    }

    method IsPending(k: Key) returns (pending: bool)
      ensures pending <==> M.Pending(tickets, k)
    {
      pending := false;
      var todo := tickets.Keys;
      while todo != {}
        invariant todo <= tickets.Keys
        invariant pending ==> M.Pending(tickets, k)
        invariant !pending ==> forall tok | tok in tickets && tok !in todo :: tickets[tok].identity.key != k
        decreases todo
      {
        var tok :| tok in todo;
        if tickets[tok].identity.key == k {
          pending := true;
          break;
        }
        todo := todo - {tok};
      }
    }

    method SweepEntry(k: Key)
      requires Valid() && k in entries
      modifies this`entries
      ensures Valid() && entries.Values <= old(entries.Values) && old(entries.Keys) - {k} <= entries.Keys
      ensures State() == if Kept(old(State()), k) then old(State())
                         else old(State()).(entries := old(State()).entries - {k})
    {
      Fields();
      hide Valid, State;
      if entries[k].secret == null || entries[k].secret.Length == 0 {
        var pending := IsPending(k);
        if !pending {
          Remove(k);
        }
      }
    }

    method SweepEntries()
      requires Valid()
      modifies this`entries
      ensures Valid() && PartlySwept(old(State()), {}, State())
    {
      hide *;
      StateKeys();
      ghost var s := State();
      var todo := entries.Keys;
      NothingSwept(s);
      while todo != {}
        invariant Valid() && todo <= entries.Keys
        invariant PartlySwept(s, todo, State())
        decreases todo
      {
        var k :| k in todo;
        StateKeys();
        SweepStep(s, todo, State(), k);
        SweepEntry(k);
        todo := todo - {k};
      }
    }

    method Sweep(alive: string -> bool, now: int)
      requires Valid()
      modifies this, entries.Values, buffers
      ensures Valid() && buffers == old(buffers)
      ensures M.Step(old(State()), M.Sweep(alive, now), State())
    {
      hide *;
      ghost var s := State();
      Expire(now);
      ghost var m := State();
      SweepRecords(alive);
      ghost var t := State();
      SweepEntries();
      AllSwept(m, alive, t, State());
      SweepIs(s, alive, now, m);
    }

    method SweepRecords(alive: string -> bool)
      requires Valid()
      modifies this`seen, this`tickets
      ensures Valid()
      ensures State() == old(State()).(seen := M.Swept(old(State()), alive).seen,
                                       tickets := M.Swept(old(State()), alive).tickets)
    {
      ghost var s := State();
      SweepSeen(alive);
      SweepTickets(alive);
      assert Valid();
      hide Valid;
      StateIs(s.(seen := seen, tickets := tickets));
    }
  }

  lemma KeptAs(s: M.State, p: M.State, t: M.State, id: Identity, caller: string, secret: seq<byte>, later: int)
    requires p == M.Put(s, id.key, M.Entry(id, s.seqno + 1, secret, later + s.ttl))
    requires t == if AgentPIN(id.key) then p else p.(seen := p.seen[M.SeenKey(caller, id.key) := s.seqno + 1])
    ensures t == M.Keep(s, id, caller, secret, later)
  {
    hide M.Put, M.Keep, AgentPIN;
    M.KeepIs(s, id, caller, secret, later);
  }

  // ---------------------------------------------------------------- sweeping, slot by slot

  predicate Kept(s: M.State, k: Key)
    requires k in s.entries
  {
    s.entries[k].secret != [] || M.Pending(s.tickets, k)
  }

  ghost predicate PartlySwept(s: M.State, todo: set<Key>, t: M.State) {
    t == s.(entries := map k | k in s.entries && (k in todo || Kept(s, k)) :: s.entries[k])
  }

  lemma NothingSwept(s: M.State)
    ensures PartlySwept(s, s.entries.Keys, s)
  {
  }

  lemma SweepStep(s: M.State, todo: set<Key>, t: M.State, k: Key)
    requires PartlySwept(s, todo, t) && k in todo && k in t.entries
    ensures PartlySwept(s, todo - {k}, if Kept(t, k) then t else t.(entries := t.entries - {k}))
  {
    assert Kept(t, k) == Kept(s, k);
    assert t.entries[k] == s.entries[k];
  }

  lemma AllSwept(m: M.State, alive: string -> bool, t: M.State, u: M.State)
    requires t == m.(seen := M.Swept(m, alive).seen, tickets := M.Swept(m, alive).tickets)
    requires PartlySwept(t, {}, u)
    ensures u == M.Swept(m, alive)
  {
    assert u.entries == M.Swept(m, alive).entries;
  }

  lemma SweepIs(s: M.State, alive: string -> bool, now: int, m: M.State)
    requires M.Expired(s, now, m)
    ensures M.Step(s, M.Sweep(alive, now), M.Swept(m, alive))
  {
    hide M.Expired;
  }

  // ---------------------------------------------------------------- forgetting, slot by slot

  /** One slot is gone if it is hit. */
  function ForgottenOne(s: M.State, key: Option<Key>, k: Key): M.State {
    if M.Hits(key, k) then s.(seqno := s.seqno + 1, entries := s.entries - {k}) else s
  }

  /** The hit slots outside `todo` are gone. */
  ghost predicate PartlyForgotten(s: M.State, key: Option<Key>, todo: set<Key>, t: M.State) {
    var gone := M.HitKeys(s, key) - todo;
    t == s.(seqno := s.seqno + |gone|, entries := s.entries - gone)
  }

  lemma NothingForgotten(s: M.State, key: Option<Key>)
    ensures PartlyForgotten(s, key, s.entries.Keys, s)
  {
    assert M.HitKeys(s, key) - s.entries.Keys == {};
  }

  lemma ForgetStep(s: M.State, key: Option<Key>, todo: set<Key>, t: M.State, k: Key)
    requires PartlyForgotten(s, key, todo, t) && k in todo && k in t.entries
    ensures PartlyForgotten(s, key, todo - {k}, ForgottenOne(t, key, k))
  {
    if M.Hits(key, k) {
      OneMore(s, key, todo, k);
    } else {
      NoneMore(s, key, todo, k);
    }
    hide M.HitKeys, M.Hits;
  }

  lemma OneMore(s: M.State, key: Option<Key>, todo: set<Key>, k: Key)
    requires k in s.entries && k in todo && M.Hits(key, k)
    ensures var gone, more := M.HitKeys(s, key) - todo, M.HitKeys(s, key) - (todo - {k});
            |more| == |gone| + 1 && s.entries - more == s.entries - gone - {k}
  {
    var gone := M.HitKeys(s, key) - todo;
    assert M.HitKeys(s, key) - (todo - {k}) == gone + {k};
  }

  lemma NoneMore(s: M.State, key: Option<Key>, todo: set<Key>, k: Key)
    requires !M.Hits(key, k)
    ensures M.HitKeys(s, key) - (todo - {k}) == M.HitKeys(s, key) - todo
  {
  }

  lemma AllForgotten(s: M.State, key: Option<Key>, t: M.State)
    requires PartlyForgotten(s, key, {}, t)
    ensures t.(tickets := M.Forgotten(t, key).tickets) == M.Forgotten(s, key)
  {
    assert M.HitKeys(s, key) - {} == M.HitKeys(s, key);
  }

  lemma ForgetIs(s: M.State, key: Option<Key>)
    ensures M.Step(s, M.Forget(key), M.Forgotten(s, key))
  {
  }

  lemma FillErased(s: M.State, id: Identity, secret: seq<byte>, expires: int)
    requires id.key in s.entries && s.entries[id.key].identity == id
    ensures var t := M.Erase(s, id.key);
            && id.key in t.entries && t.entries[id.key].generation == s.seqno + 1
            && t.(entries := t.entries[id.key := t.entries[id.key].(secret := secret, expires := expires)])
               == M.Put(s, id.key, M.Entry(id, s.seqno + 1, secret, expires))
  {
  }

  lemma PutTwice(s: M.State, id: Identity)
    requires id.key in s.entries
    ensures var e := M.Erased(s.entries[id.key], s.seqno + 1);
            var t := M.Erase(s, id.key);
            t.(entries := t.entries[id.key := t.entries[id.key].(identity := id)])
            == M.Put(s, id.key, e.(identity := id))
  {
  }
}
