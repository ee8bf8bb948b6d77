/** What a scan of the hidraw entries opens, keeps and drops, and when it covers them all. */
module MonitorScan {
  import opened Sizes
  import opened Text
  import opened Descriptor
  import opened MonitorModel

  const MAX_PATHS := 256

  /** The entry's descriptor can be read and understood. */
  predicate Legible(probe: Probe) {
    probe.descriptor.Some? && Recognize(probe.descriptor.value).Some?
  }

  /** The entry has a FIDO input report. */
  predicate IsFido(probe: Probe) {
    Legible(probe) && Recognize(probe.descriptor.value).value != map[]
  }

  ghost predicate SameElsewhere(before: map<string, Reader>, path: string, after: map<string, Reader>) {
    forall p | p != path :: (p in after <==> p in before) && (p in after ==> after[p] == before[p])
  }

  ghost predicate Only(before: map<string, Reader>, seen: set<string>, after: map<string, Reader>) {
    && (forall p :: p in after <==> p in before && p in seen)
    && (forall p | p in after :: after[p] == before[p])
  }

  /** The reader that is open is of the very device node the entry stands for. */
  predicate SameNode(readers: map<string, Reader>, probe: Probe) {
    probe.path in readers && probe.node == Some(readers[probe.path].node)
  }

  /** One entry's turn: nothing if it is no FIDO device, or one whose node is already open; any other is closed, and
      open anew if and only if its handle opens and fewer than 32 others are open. */
  ghost predicate Turned(before: map<string, Reader>, probe: Probe, after: map<string, Reader>) {
    if !IsFido(probe) || SameNode(before, probe) then after == before
    else
      && SameElsewhere(before, probe.path, after)
      && (probe.path in after <==> probe.handle.Some? && |before - {probe.path}| < 32)
      && (probe.path in after ==> after[probe.path] == Opened(probe.handle.value))
  }

  /** The readers before each of the first n entries' turns, and after them. */
  ghost predicate Turns(turns: seq<map<string, Reader>>, before: map<string, Reader>, found: seq<Probe>, n: nat)
    requires n <= |found|
  {
    |turns| == n + 1 && turns[0] == before && forall k | 0 <= k < n :: Turned(turns[k], found[k], turns[k + 1])
  }

  function FidoPaths(found: seq<Probe>, n: nat): set<string>
    requires n <= |found|
  {
    set k | 0 <= k < n && IsFido(found[k]) :: found[k].path
  }

  function Looked(found: seq<Probe>): (n: nat)
    ensures n <= |found|
  {
    if |found| < 256 then |found| else 256
  }

  /** The first 256 entries have their turns in order; then only the FIDO ones among them stay open. */
  ghost predicate Scanned(before: map<string, Reader>, found: seq<Probe>, after: map<string, Reader>) {
    var n := Looked(found);
    exists turns :: Turns(turns, before, found, n) && Only(turns[n], FidoPaths(found, n), after)
  }

  /** No FIDO device can be missing: all entries were listed, looked at and understood, there is a FIDO one, and all
      of those are open, each under a path of its own. */
  ghost predicate Complete(found: seq<Probe>, globFailed: bool, after: map<string, Reader>) {
    && !globFailed && |found| <= 256
    && (forall k | 0 <= k < |found| :: Legible(found[k]))
    && (exists k | 0 <= k < |found| :: IsFido(found[k]))
    && (forall k | 0 <= k < |found| && IsFido(found[k]) :: found[k].path in after)
    && Distinct(found, |found|)
  }

  ghost predicate Distinct(found: seq<Probe>, n: nat)
    requires n <= |found|
  {
    forall j, k | 0 <= j < k < n && IsFido(found[j]) && IsFido(found[k]) :: found[j].path != found[k].path
  }

  // ---------------------------------------------------------------- turn by turn

  lemma TurnsStart(before: map<string, Reader>, found: seq<Probe>)
    ensures Turns([before], before, found, 0) && FidoPaths(found, 0) == {}
  {
  }

  lemma TurnsNext(turns: seq<map<string, Reader>>, before: map<string, Reader>, found: seq<Probe>, n: nat,
                  next: map<string, Reader>)
    requires n < |found| && Turns(turns, before, found, n) && Turned(turns[n], found[n], next)
    ensures Turns(turns + [next], before, found, n + 1)
    ensures FidoPaths(found, n + 1) == FidoPaths(found, n) + if IsFido(found[n]) then {found[n].path} else {}
  {
    hide Turned, IsFido;
  }

  /** A path none of the entries j to k-1 has as a FIDO path is left alone by their turns. */
  lemma {:induction false} LeftAlone(turns: seq<map<string, Reader>>, before: map<string, Reader>, found: seq<Probe>,
                                     n: nat, j: nat, k: nat, path: string)
    requires n <= |found| && Turns(turns, before, found, n) && j <= k <= n
    requires forall i | j <= i < k && IsFido(found[i]) :: found[i].path != path
    ensures path in turns[k] <==> path in turns[j]
    ensures path in turns[k] ==> turns[k][path] == turns[j][path]
    decreases k
  {
    hide IsFido;
    if j < k {
      LeftAlone(turns, before, found, n, j, k - 1, path);
      assert Turned(turns[k - 1], found[k - 1], turns[k]);
    }
  }

  /** A FIDO entry with a path of its own is open after the scan if and only if its node was open already, or its
      handle opens and fewer than 32 others were open when its turn came; it keeps its reader in the one case and
      has a new one in the other. */
  lemma OpensIff(turns: seq<map<string, Reader>>, before: map<string, Reader>, found: seq<Probe>, n: nat,
                 after: map<string, Reader>, k: nat)
    requires n <= |found| && Turns(turns, before, found, n) && Only(turns[n], FidoPaths(found, n), after)
    requires k < n && IsFido(found[k])
    requires forall j | 0 <= j < n && j != k && IsFido(found[j]) :: found[j].path != found[k].path
    ensures var path := found[k].path;
      && (path in after <==>
            SameNode(before, found[k]) || (found[k].handle.Some? && |turns[k] - {path}| < 32))
      && (path in after ==>
            after[path] == if SameNode(before, found[k]) then before[path] else Opened(found[k].handle.value))
  {
    hide IsFido;
    LeftAlone(turns, before, found, n, 0, k, found[k].path);
    LeftAlone(turns, before, found, n, k + 1, n, found[k].path);
    assert Turned(turns[k], found[k], turns[k + 1]);
    assert found[k].path in FidoPaths(found, n);
  }

  // ---------------------------------------------------------------- with room for all

  /** The paths of the FIDO entries whose handle opens. */
  function Openable(found: seq<Probe>, n: nat): set<string>
    requires n <= |found|
  {
    set k | 0 <= k < n && IsFido(found[k]) && found[k].handle.Some? :: found[k].path
  }

  lemma {:induction false} NoOthers(turns: seq<map<string, Reader>>, before: map<string, Reader>, found: seq<Probe>,
                                    n: nat, k: nat)
    requires n <= |found| && Turns(turns, before, found, n) && k <= n
    ensures turns[k].Keys <= before.Keys + Openable(found, n)
  {
    hide IsFido;
    if k > 0 {
      NoOthers(turns, before, found, n, k - 1);
      assert Turned(turns[k - 1], found[k - 1], turns[k]);
      forall p | p in turns[k] ensures p in before.Keys + Openable(found, n) {
        if p !in turns[k - 1] { assert p == found[k - 1].path; }
      }
    }
  }

  /** When the devices open before and the FIDO ones that can be opened are at most 32 in all, the scan leaves open
      exactly those whose node was open already and those that can be opened. */
  lemma RoomForAll(before: map<string, Reader>, found: seq<Probe>, after: map<string, Reader>, path: string)
    requires Scanned(before, found, after) && Distinct(found, Looked(found))
    requires |before.Keys + Openable(found, Looked(found))| <= 32
    ensures path in after <==> exists k :: 0 <= k < Looked(found) && found[k].path == path && IsFido(found[k])
                                           && (SameNode(before, found[k]) || found[k].handle.Some?)
  {
    hide IsFido, SameNode, Turned;
    var n := Looked(found);
    var turns :| Turns(turns, before, found, n) && Only(turns[n], FidoPaths(found, n), after);
    if k :| 0 <= k < n && found[k].path == path && IsFido(found[k]) {
      OpensIff(turns, before, found, n, after, k);
      if found[k].handle.Some? { FitsIn(turns, before, found, n, k); }
      assert forall j | 0 <= j < n && IsFido(found[j]) && found[j].path == path :: j == k;
    }
  }

  lemma FitsIn(turns: seq<map<string, Reader>>, before: map<string, Reader>, found: seq<Probe>, n: nat, k: nat)
    requires n <= |found| && Turns(turns, before, found, n) && k < n
    requires IsFido(found[k]) && found[k].handle.Some? && |before.Keys + Openable(found, n)| <= 32
    ensures |turns[k] - {found[k].path}| < 32
  {
    NoOthers(turns, before, found, n, k);
    hide IsFido, Turns;
    var all := before.Keys + Openable(found, n);
    assert found[k].path in all;
    LacksOne((turns[k] - {found[k].path}).Keys, all, found[k].path);
  }

  // ---------------------------------------------------------------- full coverage

  /** How many of the first n entries are FIDO ones. */
  function FidoCount(found: seq<Probe>, n: nat): nat
    requires n <= |found|
  {
    if n == 0 then 0 else FidoCount(found, n - 1) + if IsFido(found[n - 1]) then 1 else 0
  }

  lemma {:induction false} CountIs(found: seq<Probe>, n: nat)
    requires n <= |found|
    ensures |FidoPaths(found, n)| <= FidoCount(found, n)
    ensures |FidoPaths(found, n)| == FidoCount(found, n) <==> Distinct(found, n)
  {
    hide IsFido;
    if n > 0 {
      CountIs(found, n - 1);
      PathsNext(found, n);
      DistinctNext(found, n);
      hide FidoPaths, Distinct;
    }
  }

  lemma PathsNext(found: seq<Probe>, n: nat)
    requires 0 < n <= |found|
    ensures FidoPaths(found, n)
         == FidoPaths(found, n - 1) + if IsFido(found[n - 1]) then {found[n - 1].path} else {}
  {
    hide IsFido;
  }

  lemma DistinctNext(found: seq<Probe>, n: nat)
    requires 0 < n <= |found|
    ensures Distinct(found, n) <==>
      Distinct(found, n - 1) && (IsFido(found[n - 1]) ==> found[n - 1].path !in FidoPaths(found, n - 1))
  {
    hide IsFido;
  }

  lemma {:induction false} SomeCounted(found: seq<Probe>, n: nat)
    requires n <= |found|
    ensures FidoCount(found, n) > 0 <==> exists k :: 0 <= k < n && IsFido(found[k])
  {
    hide IsFido;
    if n > 0 { SomeCounted(found, n - 1); }
  }

  /** Each of the first n entries was understood in its turn and, if it is a FIDO one, open after it. */
  ghost predicate AllAvailable(turns: seq<map<string, Reader>>, found: seq<Probe>, n: nat)
    requires n <= |found| && |turns| > n
  {
    forall k | 0 <= k < n :: Legible(found[k]) && (IsFido(found[k]) ==> found[k].path in turns[k + 1])
  }

  lemma {:induction false} StillOpen(turns: seq<map<string, Reader>>, before: map<string, Reader>, found: seq<Probe>,
                                     n: nat, k: nat)
    requires n <= |found| && Turns(turns, before, found, n) && AllAvailable(turns, found, n) && k <= n
    ensures FidoPaths(found, k) <= turns[k].Keys
  {
    hide IsFido, Legible;
    if k > 0 {
      StillOpen(turns, before, found, n, k - 1);
      assert Turned(turns[k - 1], found[k - 1], turns[k]);
      forall p | p in FidoPaths(found, k) ensures p in turns[k] {
        if p != found[k - 1].path { assert p in FidoPaths(found, k - 1); }
      }
    }
  }

  /** The counts tell full coverage. */
  lemma CoverIs(turns: seq<map<string, Reader>>, before: map<string, Reader>, found: seq<Probe>,
                after: map<string, Reader>)
    requires |found| <= 256 && Turns(turns, before, found, |found|)
    requires Only(turns[|found|], FidoPaths(found, |found|), after)
    ensures FidoCount(found, |found|) > 0 && |after| == FidoCount(found, |found|) && AllAvailable(turns, found, |found|)
       <==> Complete(found, false, after)
  {
    hide IsFido, Legible, Turned;
    var n := |found|;
    CountIs(found, n);
    SomeCounted(found, n);
    assert |after| == |after.Keys|;
    assert after.Keys <= FidoPaths(found, n);
    if AllAvailable(turns, found, n) {
      StillOpen(turns, before, found, n, n);
      assert after.Keys == FidoPaths(found, n);
    }
    if Complete(found, false, after) {
      assert after.Keys == FidoPaths(found, n);
      forall k | 0 <= k < n && IsFido(found[k]) ensures found[k].path in turns[k + 1] {
        LeftAlone(turns, before, found, n, k + 1, n, found[k].path);
      }
    }
  }
}
