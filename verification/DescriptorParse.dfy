/** The one-pass parser computes the declarative reading of a report descriptor. */
module DescriptorParse {
  import opened Text
  import opened Descriptor
  import opened DescriptorMeaning

  // ---------------------------------------------------------------- the pending usage

  /** u is the usage in force before n, None when there is none. */
  ghost predicate UsageIs(items: seq<Item>, n: nat, u: Option<nat>)
    requires n <= |items|
  {
    match u
    case None => forall j: nat :: !PendingUsage(items, j, n)
    case Some(v) => exists j: nat :: PendingUsage(items, j, n) && FullUsage(items, j) == v
  }

  lemma UsageSet(items: seq<Item>, n: nat, page: nat)
    requires n < |items| && IsUsage(items[n]) && page == InForce(items, Page, n)
    ensures UsageIs(items, n + 1, Some(if items[n].size < 4 then items[n].value + page * 65536 else items[n].value))
  {
    hide InForce;
    assert PendingUsage(items, n, n + 1);
  }

  lemma UsageCleared(items: seq<Item>, n: nat)
    requires n < |items| && IsMain(items[n])
    ensures UsageIs(items, n + 1, None)
  {
    hide InForce;
  }

  lemma UsageKept(items: seq<Item>, n: nat, u: Option<nat>)
    requires n < |items| && UsageIs(items, n, u) && !IsMain(items[n]) && !IsUsage(items[n])
    ensures UsageIs(items, n + 1, u)
  {
    hide InForce, IsMain, IsUsage, FullUsage;
    var k := n + 1;
    forall j: nat ensures PendingUsage(items, j, k) <==> PendingUsage(items, j, n) {
    }
    if u.Some? {
      var j: nat :| PendingUsage(items, j, n) && FullUsage(items, j) == u.value;
      assert PendingUsage(items, j, k);
    }
  }

  lemma UsageStep(items: seq<Item>, n: nat, m: Machine, t: Machine)
    requires n < |items| && m.g.page == InForce(items, Page, n) && UsageIs(items, n, m.usage)
    requires StepItem(m, items[n]) == Some(t)
    ensures UsageIs(items, n + 1, t.usage)
  {
    hide InForce, UsageIs;
    var it := items[n];
    if IsMain(it) {
      UsageCleared(items, n);
    } else if IsUsage(it) {
      UsageSet(items, n, m.g.page);
    } else {
      UsageKept(items, n, m.usage);
    }
  }

  /** The usage the parser remembers decides whether a collection is a FIDO application. */
  lemma OpeningIs(items: seq<Item>, n: nat, u: Option<nat>)
    requires n < |items| && UsageIs(items, n, u) && IsOpen(items[n])
    ensures FidoOpening(items, n) <==> items[n].value == 1 && u == Some(FIDO_USAGE)
  {
    hide InForce, FullUsage;
    if FidoOpening(items, n) {
      var j: nat :| PendingUsage(items, j, n) && FullUsage(items, j) == FIDO_USAGE;
      var k: nat :| PendingUsage(items, k, n) && FullUsage(items, k) == u.value;
      assert j == k;
    }
  }

  // ---------------------------------------------------------------- the open collections

  ghost predicate NonNegative(items: seq<Item>, n: nat)
    requires n <= |items|
  {
    forall i | 0 <= i <= n :: Depth(items, i) >= 0
  }

  /** Item p opened the collection at depth k that is still open before n. */
  ghost predicate OpenAt(items: seq<Item>, p: nat, k: int, n: nat)
    requires n <= |items|
  {
    Encloses(items, p, n) && Depth(items, p) == k
  }

  /** The collection open at depth k is a FIDO application or lies in one. */
  ghost predicate MarkedAt(items: seq<Item>, k: int, n: nat, b: bool)
    requires n <= |items|
  {
    exists p: nat :: OpenAt(items, p, k, n) && (b <==> FidoOpening(items, p) || UnderFido(items, p))
  }

  ghost predicate CollectionsRel(items: seq<Item>, n: nat, c: seq<bool>)
    requires n <= |items|
  {
    && NonNegative(items, n)
    && |c| == Depth(items, n)
    && forall k | 0 <= k < |c| :: MarkedAt(items, k, n, c[k])
  }

  lemma DepthHere(items: seq<Item>, n: nat)
    requires n < |items|
    ensures Depth(items, n + 1)
         == Depth(items, n) + if IsOpen(items[n]) then 1 else if IsClose(items[n]) then -1 else 0
  {
  }

  /** With p opening the innermost collection around n, what encloses n is p and what encloses p. */
  lemma EnclosedBy(items: seq<Item>, p: nat, n: nat, j: nat)
    requires n <= |items| && OpenAt(items, p, Depth(items, n) - 1, n)
    ensures Encloses(items, j, n) <==> j == p || Encloses(items, j, p)
  {
    if p < j <= n {
      assert Depth(items, j) > Depth(items, p);
    }
    if Encloses(items, j, p) {
      forall m | j < m <= n ensures Depth(items, m) > Depth(items, j) {
        if m > p { assert Depth(items, m) > Depth(items, p); }
      }
    }
  }

  lemma NothingEncloses(items: seq<Item>, n: nat)
    requires n <= |items| && NonNegative(items, n) && Depth(items, n) == 0
    ensures !UnderFido(items, n)
  {
    hide FidoOpening;
    forall j: nat ensures !Encloses(items, j, n) {
      if j < n { assert Depth(items, j) >= 0; }
    }
  }

  /** The flag inherited down the stack is "some enclosing collection is a FIDO application". */
  lemma InsideIs(items: seq<Item>, n: nat, m: Machine)
    requires n <= |items| && CollectionsRel(items, n, m.collections)
    ensures Inside(m) <==> UnderFido(items, n)
  {
    hide FidoOpening;
    var c := m.collections;
    if c == [] {
      NothingEncloses(items, n);
    } else {
      assert MarkedAt(items, |c| - 1, n, c[|c| - 1]);
      var p: nat :| OpenAt(items, p, |c| - 1, n) && (c[|c| - 1] <==> FidoOpening(items, p) || UnderFido(items, p));
      UnderFrom(items, p, n);
    }
  }

  lemma UnderFrom(items: seq<Item>, p: nat, n: nat)
    requires n <= |items| && OpenAt(items, p, Depth(items, n) - 1, n)
    ensures UnderFido(items, n) <==> FidoOpening(items, p) || UnderFido(items, p)
  {
    hide FidoOpening, Depth;
    forall j: nat ensures Encloses(items, j, n) <==> j == p || Encloses(items, j, p) {
      EnclosedBy(items, p, n, j);
    }
    hide Encloses;
    if UnderFido(items, p) {
      var j: nat :| Encloses(items, j, p) && FidoOpening(items, j);
      assert Encloses(items, j, n);
    }
    if FidoOpening(items, p) {
      assert Encloses(items, p, n);
    }
  }

  lemma MarkStays(items: seq<Item>, k: int, n: nat, b: bool)
    requires n < |items| && MarkedAt(items, k, n, b) && Depth(items, n + 1) > k
    ensures MarkedAt(items, k, n + 1, b)
  {
    hide Depth, FidoOpening, UnderFido;
    var p: nat :| OpenAt(items, p, k, n) && (b <==> FidoOpening(items, p) || UnderFido(items, p));
    assert OpenAt(items, p, k, n + 1);
  }

  lemma MarksStay(items: seq<Item>, n: nat, before: seq<bool>, c: seq<bool>)
    requires n < |items| && CollectionsRel(items, n, before) && c <= before && |c| <= Depth(items, n + 1)
    ensures forall k | 0 <= k < |c| :: MarkedAt(items, k, n + 1, c[k])
  {
    hide Depth, MarkedAt;
    forall k | 0 <= k < |c| ensures MarkedAt(items, k, n + 1, c[k]) {
      MarkStays(items, k, n, before[k]);
    }
  }

  lemma Opens(items: seq<Item>, n: nat, b: bool)
    requires n < |items| && IsOpen(items[n]) && (b <==> FidoOpening(items, n) || UnderFido(items, n))
    ensures MarkedAt(items, Depth(items, n), n + 1, b)
  {
    hide FidoOpening, UnderFido;
    DepthHere(items, n);
    assert OpenAt(items, n, Depth(items, n), n + 1);
  }

  lemma NonNegativeNext(items: seq<Item>, n: nat)
    requires n < |items| && NonNegative(items, n) && Depth(items, n + 1) >= 0
    ensures NonNegative(items, n + 1)
  {
    hide Depth;
  }

  /** What an item does to the stack of collections. */
  lemma SameCollections(m: Machine, it: Item, t: Machine)
    requires StepItem(m, it) == Some(t)
    ensures IsOpen(it) ==>
              t.collections == m.collections + [Inside(m) || (it.value == 1 && m.usage == Some(FIDO_USAGE))]
    ensures IsClose(it) ==> m.collections != [] && t.collections == m.collections[..|m.collections| - 1]
    ensures !IsOpen(it) && !IsClose(it) ==> t.collections == m.collections
  {
  }

  lemma OpenIsNoClose(it: Item)
    requires IsOpen(it)
    ensures !IsClose(it)
  {
  }

  lemma CollectionsStep(items: seq<Item>, n: nat, m: Machine, t: Machine)
    requires n < |items| && CollectionsRel(items, n, m.collections) && UsageIs(items, n, m.usage)
    requires StepItem(m, items[n]) == Some(t)
    ensures CollectionsRel(items, n + 1, t.collections)
  {
    hide StepItem, Depth, MarkedAt, FidoOpening, UnderFido, UsageIs, IsOpen, IsClose, Inside, NonNegative;
    var it := items[n];
    SameCollections(m, it, t);
    DepthHere(items, n);
    if IsOpen(it) {
      OpenIsNoClose(it);
      OpeningIs(items, n, m.usage);
      InsideIs(items, n, m);
      Opens(items, n, t.collections[|m.collections|]);
      MarksStay(items, n, m.collections, m.collections);
    } else {
      MarksStay(items, n, m.collections, t.collections);
    }
    NonNegativeNext(items, n);
  }

  // ---------------------------------------------------------------- the tables

  /** What the tables say about one report ID. */
  ghost predicate TablesFor(items: seq<Item>, n: nat, m: Machine, id: nat)
    requires n <= |items|
  {
    && (id in m.bits <==> HasInput(items, id, n))
    && Sum(m.bits, id) == TotalBits(items, id, n)
    && (id in m.fido <==> HasFido(items, id, n))
    && (id in m.other <==> HasOther(items, id, n))
  }

  ghost predicate TablesRel(items: seq<Item>, n: nat, m: Machine)
    requires n <= |items|
  {
    && (forall id: nat :: TablesFor(items, n, m, id))
    && (m.numbered <==> Numbered(items, n))
  }

  lemma HasNext(items: seq<Item>, id: nat, n: nat)
    requires n < |items|
    ensures HasInput(items, id, n + 1) <==> HasInput(items, id, n) || InputOf(items, n, id)
    ensures HasFido(items, id, n + 1) <==> HasFido(items, id, n) || (InputOf(items, n, id) && FidoData(items, n))
    ensures HasOther(items, id, n + 1) <==> HasOther(items, id, n) || (InputOf(items, n, id) && !FidoData(items, n))
    ensures TotalBits(items, id, n + 1)
         == TotalBits(items, id, n) + if InputOf(items, n, id) then FieldBits(items, n) else 0
  {
    hide InputOf, FidoData, FieldBits;
  }

  /** What an item does to the tables. */
  lemma SameTables(m: Machine, it: Item, t: Machine)
    requires StepItem(m, it) == Some(t)
    ensures t.numbered <==> m.numbered || Sets(it, Id)
    ensures IsInput(it) ==>
              && t.bits == m.bits[m.g.id := Sum(m.bits, m.g.id) + Width(m.g)]
              && t.fido == (if Inside(m) && it.value % 2 == 0 then m.fido + {m.g.id} else m.fido)
              && t.other == (if Inside(m) && it.value % 2 == 0 then m.other else m.other + {m.g.id})
    ensures !IsInput(it) ==> t.bits == m.bits && t.fido == m.fido && t.other == m.other
  {
    hide Width, Inside;
  }

  lemma TablesNext(items: seq<Item>, n: nat, m: Machine, t: Machine, id: nat)
    requires n < |items| && TablesFor(items, n, m, id) && m.g == GlobalsAt(items, n)
    requires Inside(m) <==> UnderFido(items, n)
    requires StepItem(m, items[n]) == Some(t)
    ensures TablesFor(items, n + 1, t, id)
  {
    FieldBitsIs(items, n, m);
    hide StepItem, HasInput, HasFido, HasOther, TotalBits, UnderFido, InForce, Inside, IsInput, Sets, Width, FieldBits;
    SameTables(m, items[n], t);
    HasNext(items, id, n);
  }

  lemma NumberedNext(items: seq<Item>, n: nat)
    requires n < |items|
    ensures Numbered(items, n + 1) <==> Numbered(items, n) || Sets(items[n], Id)
  {
    hide Sets;
  }

  lemma TablesStep(items: seq<Item>, n: nat, m: Machine, t: Machine)
    requires n < |items| && TablesRel(items, n, m) && m.g == GlobalsAt(items, n)
    requires Inside(m) <==> UnderFido(items, n)
    requires StepItem(m, items[n]) == Some(t)
    ensures TablesRel(items, n + 1, t)
  {
    hide StepItem, TablesFor, Inside, UnderFido, GlobalsAt, Numbered, Sets;
    var k := n + 1;
    forall id: nat ensures TablesFor(items, k, t, id) {
      TablesNext(items, n, m, t, id);
    }
    NumberedNext(items, n);
    SameTables(m, items[n], t);
  }

  // ---------------------------------------------------------------- the whole pass

  ghost predicate Rel(items: seq<Item>, n: nat, m: Machine)
    requires n <= |items|
  {
    && GlobalsRel(items, n, m) && UsageIs(items, n, m.usage)
    && CollectionsRel(items, n, m.collections) && TablesRel(items, n, m)
  }

  lemma RelStep(items: seq<Item>, n: nat, m: Machine, t: Machine)
    requires n < |items| && Rel(items, n, m) && StepItem(m, items[n]) == Some(t)
    ensures Rel(items, n + 1, t)
  {
    hide StepItem, UsageIs, CollectionsRel, TablesRel, InForce, SavedAt;
    GlobalsStep(items, n, m, t);
    UsageStep(items, n, m, t);
    CollectionsStep(items, n, m, t);
    InsideIs(items, n, m);
    TablesStep(items, n, m, t);
  }

  /** The parser stops at exactly the items the reading calls malformed. */
  lemma StepIff(items: seq<Item>, n: nat, m: Machine)
    requires n < |items| && Rel(items, n, m)
    ensures StepItem(m, items[n]).Some? <==> ItemOk(items, n)
  {
    hide UsageIs, TablesFor, SavedAt, MarkedAt, NonNegative, Numbered, InForce, FieldOk, Width, Depth, Level, Inside,
      TotalBits, FieldBits;
    var id := m.g.id;
    assert TablesFor(items, n, m, id);
    BitsNext(items, n, m, id);
    FieldBitsIs(items, n, m);
    FieldLimits(m.g, Sum(m.bits, id));
  }

  lemma FieldBitsIs(items: seq<Item>, n: nat, m: Machine)
    requires n < |items| && m.g == GlobalsAt(items, n)
    ensures FieldBits(items, n) == Width(m.g)
  {
    hide InForce;
  }

  /** The separate limits on size and count follow from the one on the whole report. */
  lemma FieldLimits(g: Globals, b: nat)
    ensures FieldOk(g) && b + Width(g) <= MAX_BITS <==> 1 <= Width(g) && b + Width(g) <= MAX_BITS
  {
    if g.size >= 1 && g.count >= 1 {
      Grows(g.size, g.count);
      Grows(g.count, g.size);
    }
  }

  lemma Grows(a: nat, b: nat)
    requires b >= 1
    ensures a <= a * b == b * a
  {
  }

  lemma BitsNext(items: seq<Item>, n: nat, m: Machine, id: nat)
    requires n < |items| && TablesFor(items, n, m, id) && m.g == GlobalsAt(items, n) && id == m.g.id
    ensures IsInput(items[n]) ==> TotalBits(items, id, n + 1) == Sum(m.bits, id) + Width(m.g)
  {
    FieldBitsIs(items, n, m);
    hide HasInput, HasFido, HasOther, TotalBits, InForce, Width, FieldBits;
    HasNext(items, id, n);
  }

  lemma RelStart(items: seq<Item>)
    ensures Rel(items, 0, Begun())
  {
    forall id: nat ensures TablesFor(items, 0, Begun(), id) {
    }
  }

  lemma {:induction false} ExecIff(items: seq<Item>, n: nat)
    requires n <= |items|
    ensures Exec(items, n).Some? <==> ItemsOk(items, n)
    ensures Exec(items, n).Some? ==> Rel(items, n, Exec(items, n).value)
  {
    hide Rel, ItemOk, StepItem;
    if n == 0 {
      RelStart(items);
    } else {
      ExecIff(items, n - 1);
      if Exec(items, n - 1).Some? {
        var m := Exec(items, n - 1).value;
        StepIff(items, n - 1, m);
        if ItemOk(items, n - 1) {
          RelStep(items, n - 1, m, StepItem(m, items[n - 1]).value);
        }
      }
    }
  }

  // ---------------------------------------------------------------- the result

  /** The descriptor is accepted: of legal length, made of whole short items, well formed, and no
      report 0 to watch once report IDs are in use. */
  ghost predicate Accepted(data: seq<byte>) {
    && 0 < |data| <= 4096
    && Items(data).Some?
    && var items := Items(data).value;
       && WellFormed(items)
       && !(Numbered(items, |items|) && FidoReport(items, 0))
  }

  /** Complete on-wire length of an input report. */
  ghost function WireLength(items: seq<Item>, id: nat): nat {
    TotalBits(items, id, |items|) / 8 + if Numbered(items, |items|) then 1 else 0
  }

  lemma SomeField(items: seq<Item>, id: nat)
    ensures HasInput(items, id, |items|) && !HasOther(items, id, |items|) ==> HasFido(items, id, |items|)
  {
    hide InputOf, FidoData;
  }

  lemma ChosenIs(items: seq<Item>, m: Machine, id: nat)
    requires TablesFor(items, |items|, m, id)
    ensures Chosen(m, id) <==> FidoReport(items, id)
  {
    hide HasInput, HasFido, HasOther, TotalBits;
    SomeField(items, id);
  }

  /** The parser accepts exactly the well-formed descriptors and returns exactly their FIDO reports. */
  lemma RecognizeIff(data: seq<byte>)
    ensures Recognize(data).Some? <==> Accepted(data)
    ensures Recognize(data).Some? ==>
              var items, layout := Items(data).value, Recognize(data).value;
              && (forall id: nat :: id in layout <==> FidoReport(items, id))
              && (forall id | id in layout :: layout[id] == WireLength(items, id))
  {
    hide Items, Exec, Rel, FidoReport, ItemsOk, Level, Depth, Numbered, Chosen;
    if 0 < |data| <= 4096 && Items(data).Some? {
      var items := Items(data).value;
      ExecIff(items, |items|);
      if ItemsOk(items, |items|) {
        var m := Exec(items, |items|).value;
        Ends(items, m);
        assert Chosen(m, 0) <==> FidoReport(items, 0);
        if Finish(m).Some? {
          EndsWith(items, m);
        }
      }
    }
  }

  lemma Ends(items: seq<Item>, m: Machine)
    requires Rel(items, |items|, m)
    ensures |m.stack| == Level(items, |items|) && |m.collections| == Depth(items, |items|)
    ensures m.numbered <==> Numbered(items, |items|)
    ensures forall id: nat :: Chosen(m, id) <==> FidoReport(items, id)
  {
    hide Level, Depth, Numbered, Chosen, FidoReport, TablesFor, SavedAt, MarkedAt, UsageIs;
    forall id: nat ensures Chosen(m, id) <==> FidoReport(items, id) {
      assert TablesFor(items, |items|, m, id);
      ChosenIs(items, m, id);
    }
  }

  lemma EndsWith(items: seq<Item>, m: Machine)
    requires Rel(items, |items|, m) && Finish(m).Some?
    ensures var layout := Finish(m).value;
            && (forall id: nat :: id in layout <==> FidoReport(items, id))
            && (forall id | id in layout :: layout[id] == WireLength(items, id))
  {
    hide Level, Depth, Numbered, FidoReport, TablesFor, SavedAt, MarkedAt, UsageIs, TotalBits;
    Ends(items, m);
    forall id: nat | id in Finish(m).value ensures Finish(m).value[id] == WireLength(items, id) {
      assert TablesFor(items, |items|, m, id);
      BitsAre(items, m, id);
    }
  }

  lemma BitsAre(items: seq<Item>, m: Machine, id: nat)
    requires TablesFor(items, |items|, m, id) && id in m.bits
    ensures m.bits[id] == TotalBits(items, id, |items|)
  {
    hide TotalBits, HasInput, HasFido, HasOther;
  }
}
