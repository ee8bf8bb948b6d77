/** Version-1 requests on the private socket (handle, internal/cacheipc/ipc.go): what clients other than
    the service's own requests can do to the cache. */
module Ipc {
  import opened Text
  import opened Askpass
  import opened CacheIdentity
  import M = CacheModel
  import C = CacheStore
  import H = HandleModel

  datatype Verb = Begin | Commit | Forget | ForgetAll | Unknown

  datatype Trouble = BadVersion | NoCaller | RelativePath | NoIdentity | BadKey | BadOperation

  /** The answer to a client: an error, or what the store said. */
  datatype Reply = Refused(why: Trouble) | Began(answer: C.Answer) | Committed(stored: bool) | Forgotten

  /** What the kernel and the file system show while the request is handled: the process asking, the
      cleaned form of the path, and the file each resolution finds. */
  datatype View = View(caller: Option<string>, cleaned: string, file: Option<File>)

  predicate Absolute(path: string) {
    HasPrefix(path, "/")
  }

  function Cleaned(k: Key, v: View): Key {
    if AgentPIN(k) then k else k.(path := v.cleaned)
  }

  /** The cache went through these operations, one atomic step each. */
  ghost predicate Runs(s: M.State, ops: seq<M.Op>, t: M.State)
    decreases |ops|
  {
    if ops == [] then s == t
    else exists m :: M.Step(s, ops[0], m) && Runs(m, ops[1..], t)
  }

  lemma One(s: M.State, op: M.Op, t: M.State)
    requires M.Step(s, op, t)
    ensures Runs(s, [op], t)
  {
    hide M.Step;
    assert [op][1..] == [];
    assert Runs(t, [], t);
  }

  lemma Two(s: M.State, a: M.Op, m: M.State, b: M.Op, t: M.State)
    requires M.Step(s, a, m) && M.Step(m, b, t)
    ensures Runs(s, [a, b], t)
  {
    hide M.Step;
    One(m, b, t);
    assert [a, b][1..] == [b];
  }

  /** The operations a version-1 request may have on the cache. */
  predicate Allowed(ops: seq<M.Op>) {
    forall i | 0 <= i < |ops| :: H.ControlOp(ops[i])
  }

  /** A resolved identity never carries a device stamp. */
  lemma ResolvedIsPlain(k: Key, v: View)
    requires Resolve(k, v.file).Some?
    ensures Plain(Resolve(k, v.file).value.stamp)
    ensures forall b, c :: Plain(b) ==> Resolve(k, v.file).value.stamp != DeviceStamp(b, c)
  {
    if v.file.Some? { StampIsPlain(v.file.value.numbers); }
    var stamp := Resolve(k, v.file).value.stamp;
    forall b, c | Plain(b) ensures stamp != DeviceStamp(b, c) {
      DeviceStampInjective(b, c, stamp, "");
    }
  }

  function ForgetOps(key: Key, v: View): seq<M.Op> {
    [M.Forget(Some(Cleaned(key, v)))] + match Resolve(Cleaned(key, v), v.file)
                                        case None => []
                                        case Some(id) => [M.Forget(Some(id.key))]
  }

  /** Forget the key as cleaned, then the key its file resolves to. */
  method ForgetKey(store: C.Store, key: Key, v: View) returns (ghost ops: seq<M.Op>)
    requires store.Valid()
    modifies store, store.entries.Values, store.buffers
    ensures store.Valid() && store.buffers == old(store.buffers)
    ensures Runs(old(store.State()), ops, store.State()) && Allowed(ops)
    ensures ops == ForgetOps(key, v)
  {
    hide Runs, M.Step, Resolve, AgentPIN;
    var k := if AgentPIN(key) then key else key.(path := v.cleaned);
    ghost var s := store.State();
    store.Forget(Some(k));
    ghost var m := store.State();
    var id := Resolve(k, v.file);
    if id.Some? {
      store.Forget(Some(id.value.key));
      Two(s, M.Forget(Some(k)), m, M.Forget(Some(id.value.key)), store.State());
      ops := [M.Forget(Some(k)), M.Forget(Some(id.value.key))];
    } else {
      One(s, M.Forget(Some(k)), m);
      ops := [M.Forget(Some(k))];
    }
  }

  /** Begin or commit for the process asking. */
  method Use(store: C.Store, committing: bool, id: Identity, caller: string, token: nat, secret: array<byte>,
             now: int, later: int)
    returns (reply: Reply, ghost op: M.Op)
    requires store.Valid() && now <= later && secret !in store.buffers
    modifies store, store.entries.Values, store.buffers
    ensures store.Valid() && secret !in store.buffers && secret[..] == old(secret[..])
    ensures M.Step(old(store.State()), op, store.State())
    ensures if committing
            then reply.Committed? && op == M.Commit(token, id, caller, old(secret[..]), now, later, reply.stored)
            else reply.Began? && op == M.Begin(id, caller, now, later, C.Contents(reply.answer))
    ensures reply.Began? && reply.answer.secret != null ==>
              fresh(reply.answer.secret) && reply.answer.secret !in store.buffers
  {
    hide M.Step;
    if committing {
      var ok := store.Commit(token, id, caller, secret, now, later);
      reply, op := Committed(ok), M.Commit(token, id, caller, secret[..], now, later, ok);
    } else {
      var r := store.Begin(id, caller, now, later);
      reply, op := Began(r), M.Begin(id, caller, now, later, C.Contents(r));
    }
  }

  /** What a reply tells about the operations behind it, `given` being the bytes the client sent. */
  ghost predicate Tells(reply: Reply, ops: seq<M.Op>, verb: Verb, key: Key, token: nat, given: seq<byte>, v: View)
    reads if reply.Began? then {reply.answer.secret} else {}
  {
    match reply
    case Refused(_) => ops == []
    case Began(answer) =>
      && verb == Begin && v.caller.Some? && Resolve(key, v.file).Some? && |ops| == 1 && ops[0].Begin?
      && ops[0].id == Resolve(key, v.file).value && ops[0].caller == v.caller.value
      && ops[0].answer == C.Contents(answer)
    case Committed(stored) =>
      && verb == Commit && v.caller.Some? && Resolve(key, v.file).Some? && |ops| == 1 && ops[0].Commit?
      && ops[0].id == Resolve(key, v.file).value && ops[0].caller == v.caller.value
      && ops[0].token == token && ops[0].secret == given && ops[0].ok == stored
    case Forgotten =>
      if verb == ForgetAll then ops == [M.Forget(None)]
      else verb == Forget && ValidKey(key) && ops == ForgetOps(key, v)
  }

  predicate Relative(key: Key) {
    !AgentPIN(key) && !Absolute(key.path)
  }

  /** What the protocol does not serve: another version, an unknown operation, a begin or commit by no known
      process or without an identity, and paths and keys no entry can have. */
  predicate Unserved(version: nat, verb: Verb, key: Key, v: View) {
    || version != 1
    || match verb
       case Begin => v.caller == None || Relative(key) || Resolve(key, v.file) == None
       case Commit => v.caller == None || Relative(key) || Resolve(key, v.file) == None
       case Forget => !ValidKey(key) || Relative(key)
       case ForgetAll => false
       case Unknown => true
  }

  /** Each error names what was found wrong, the first thing in the order of the tests. */
  predicate Because(why: Trouble, version: nat, verb: Verb, key: Key, v: View) {
    match why
    case BadVersion => version != 1
    case NoCaller => version == 1 && verb in {Begin, Commit} && v.caller == None
    case RelativePath => version == 1 && verb in {Begin, Commit} && v.caller.Some? && Relative(key)
    case NoIdentity => version == 1 && verb in {Begin, Commit} && v.caller.Some? && !Relative(key)
                       && Resolve(key, v.file) == None
    case BadKey => version == 1 && verb == Forget && (!ValidKey(key) || Relative(key))
    case BadOperation => version == 1 && verb == Unknown
  }

  /** One version-1 request. What is not served leaves the cache alone; everything else is one or two of its
      operations, those of its verb, begin and commit only for the process asking and the identity its key resolves to.
      The client's own buffer is wiped and never kept. */
  method Handle(store: C.Store, version: nat, verb: Verb, key: Key, token: nat, secret: array<byte>,
                v: View, now: int, later: int)
    returns (reply: Reply, ghost ops: seq<M.Op>)
    requires store.Valid() && now <= later && secret !in store.buffers
    modifies store, store.entries.Values, store.buffers, secret
    ensures store.Valid() && C.Zero(secret) && secret !in store.buffers
    ensures Runs(old(store.State()), ops, store.State()) && Allowed(ops)
    ensures Tells(reply, ops, verb, key, token, old(secret[..]), v)
    ensures reply.Refused? <==> Unserved(version, verb, key, v)
    ensures reply.Refused? ==> Because(reply.why, version, verb, key, v)
    ensures reply.Began? && reply.answer.secret != null ==>
              fresh(reply.answer.secret) && reply.answer.secret !in store.buffers
  {
    hide *;
    if version != 1 {
      reply, ops := Refused(BadVersion), [];
      Nothing(store.State());
      Refuses(version, BadVersion, verb, key, token, secret[..], v);
    } else if verb == Begin || verb == Commit {
      reply, ops := Serve(store, verb, key, token, secret, v, now, later);
    } else {
      reply, ops := Drop(store, verb, key, v, token, secret[..]);
    }
    C.Clear(secret);
  }

  lemma Refuses(version: nat, why: Trouble, verb: Verb, key: Key, token: nat, given: seq<byte>, v: View)
    ensures Tells(Refused(why), [], verb, key, token, given, v) && Allowed([])
    ensures version != 1 ==> Unserved(version, verb, key, v) && Because(BadVersion, version, verb, key, v)
  {
  }

  /** Forgetting, and operations there are none of. */
  method Drop(store: C.Store, verb: Verb, key: Key, v: View, ghost token: nat, ghost given: seq<byte>)
    returns (reply: Reply, ghost ops: seq<M.Op>)
    requires store.Valid() && verb != Begin && verb != Commit
    modifies store, store.entries.Values, store.buffers
    ensures store.Valid() && store.buffers == old(store.buffers) && !reply.Began?
    ensures Runs(old(store.State()), ops, store.State()) && Allowed(ops)
    ensures Tells(reply, ops, verb, key, token, given, v)
    ensures reply.Refused? <==> Unserved(1, verb, key, v)
    ensures reply.Refused? ==> Because(reply.why, 1, verb, key, v)
  {
    hide Runs, M.Step, AgentPIN, Resolve;
    ghost var s := store.State();
    Nothing(s);
    ops := [];
    match verb
    case Forget =>
      if !ValidKey(key) || Relative(key) {
        reply := Refused(BadKey);
      } else {
        ops := ForgetKey(store, key, v);
        reply := Forgotten;
      }
    case ForgetAll =>
      store.Forget(None);
      One(s, M.Forget(None), store.State());
      ops := [M.Forget(None)];
      reply := Forgotten;
    case _ => reply := Refused(BadOperation);
  }

  lemma Nothing(s: M.State)
    ensures Runs(s, [], s)
  {
  }

  /** The common part of begin and commit. */
  method Serve(store: C.Store, verb: Verb, key: Key, token: nat, secret: array<byte>, v: View, now: int, later: int)
    returns (reply: Reply, ghost ops: seq<M.Op>)
    requires store.Valid() && now <= later && secret !in store.buffers
    requires verb == Begin || verb == Commit
    modifies store, store.entries.Values, store.buffers
    ensures store.Valid() && secret !in store.buffers && secret[..] == old(secret[..])
    ensures Runs(old(store.State()), ops, store.State()) && Allowed(ops)
    ensures Tells(reply, ops, verb, key, token, secret[..], v)
    ensures reply.Refused? <==> Unserved(1, verb, key, v)
    ensures reply.Refused? ==> Because(reply.why, 1, verb, key, v)
    ensures reply.Began? && reply.answer.secret != null ==>
              fresh(reply.answer.secret) && reply.answer.secret !in store.buffers
  {
    hide Runs, M.Step, AgentPIN, Plain;
    ops := [];
    Nothing(store.State());
    if v.caller == None { return Refused(NoCaller), ops; }
    if Relative(key) { return Refused(RelativePath), ops; }
    var id := Resolve(key, v.file);
    if id == None { return Refused(NoIdentity), ops; }
    ResolvedIsPlain(key, v);
    hide Resolve;
    ghost var s := store.State();
    ghost var op;
    reply, op := Use(store, verb == Commit, id.value, v.caller.value, token, secret, now, later);
    One(s, op, store.State());
    ops := [op];
  }
}
