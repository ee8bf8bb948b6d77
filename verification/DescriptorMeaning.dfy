/** A declarative reading of HID report descriptors, and that the one-pass parser computes it. */
module DescriptorMeaning {
  import opened Text
  import opened Descriptor

  // ---------------------------------------------------------------- nesting

  predicate IsPush(it: Item) { it.typ == 1 && it.tag == 10 }
  predicate IsPop(it: Item) { it.typ == 1 && it.tag == 11 }
  predicate IsMain(it: Item) { it.typ == 0 }
  predicate IsOpen(it: Item) { it.typ == 0 && it.tag == 10 }
  predicate IsClose(it: Item) { it.typ == 0 && it.tag == 12 }
  predicate IsInput(it: Item) { it.typ == 0 && it.tag == 8 }
  predicate IsUsage(it: Item) { it.typ == 2 && it.tag == 0 }

  /** Pushes minus pops before item n. */
  function Level(items: seq<Item>, n: nat): int
    requires n <= |items|
  {
    if n == 0 then 0
    else Level(items, n - 1) + if IsPush(items[n - 1]) then 1 else if IsPop(items[n - 1]) then -1 else 0
  }

  /** Collections opened minus collections ended before item n. */
  function Depth(items: seq<Item>, n: nat): int
    requires n <= |items|
  {
    if n == 0 then 0
    else Depth(items, n - 1) + if IsOpen(items[n - 1]) then 1 else if IsClose(items[n - 1]) then -1 else 0
  }

  // ---------------------------------------------------------------- global items in force

  datatype Field = Page | Size | Count | Id

  predicate Sets(it: Item, f: Field) {
    it.typ == 1 && it.tag == match f case Page => 0 case Size => 7 case Id => 8 case Count => 9
  }

  /** No Pop between j and n has gone back behind item j. */
  ghost predicate Visible(items: seq<Item>, j: nat, n: nat)
    requires n <= |items|
  {
    j < n && forall m | j < m <= n :: Level(items, m) >= Level(items, j)
  }

  /** Item j is the latest visible one before n that sets f. */
  ghost predicate Governs(items: seq<Item>, j: nat, f: Field, n: nat)
    requires n <= |items|
  {
    && Visible(items, j, n) && Sets(items[j], f)
    && forall l | j < l < n && Sets(items[l], f) :: !Visible(items, l, n)
  }

  /** The value of a global field in force before item n, 0 when nothing has set it. */
  ghost function InForce(items: seq<Item>, f: Field, n: nat): nat
    requires n <= |items|
  {
    if exists j: nat :: Governs(items, j, f, n)
    then var j: nat :| Governs(items, j, f, n); items[j].value else 0
  }

  ghost function GlobalsAt(items: seq<Item>, n: nat): Globals
    requires n <= |items|
  {
    Globals(InForce(items, Page, n), InForce(items, Size, n), InForce(items, Count, n), InForce(items, Id, n))
  }

  lemma GovernedBy(items: seq<Item>, j: nat, f: Field, n: nat)
    requires n <= |items| && Governs(items, j, f, n)
    ensures InForce(items, f, n) == items[j].value
  {
    var l: nat :| Governs(items, l, f, n) && InForce(items, f, n) == items[l].value;
  }

  lemma SameGovernors(items: seq<Item>, f: Field, n: nat, m: nat)
    requires n <= |items| && m <= |items|
    requires forall j: nat :: Governs(items, j, f, n) <==> Governs(items, j, f, m)
    ensures InForce(items, f, n) == InForce(items, f, m)
  {
    hide Governs;
    if j: nat :| Governs(items, j, f, n) {
      GovernedBy(items, j, f, n);
      GovernedBy(items, j, f, m);
    }
  }

  // ---------------------------------------------------------------- usages and collections

  /** Item j is the usage in force before n: no later usage, no main item since. */
  ghost predicate PendingUsage(items: seq<Item>, j: nat, n: nat)
    requires n <= |items|
  {
    j < n && IsUsage(items[j]) && forall l | j < l < n :: !IsUsage(items[l]) && !IsMain(items[l])
  }

  /** A short usage is completed with the usage page in force where it stands. */
  ghost function FullUsage(items: seq<Item>, j: nat): nat
    requires j < |items|
  {
    if items[j].size < 4 then items[j].value + InForce(items, Page, j) * 65536 else items[j].value
  }

  /** Item j opens a FIDO application collection. */
  ghost predicate FidoOpening(items: seq<Item>, j: nat)
    requires j < |items|
  {
    && IsOpen(items[j]) && items[j].value == 1
    && exists u: nat :: PendingUsage(items, u, j) && FullUsage(items, u) == 0xF1D0 * 0x1_0000 + 1
  }

  /** The collection opened by item j is still open before item n. */
  ghost predicate Encloses(items: seq<Item>, j: nat, n: nat)
    requires n <= |items|
  {
    j < n && IsOpen(items[j]) && forall m | j < m <= n :: Depth(items, m) > Depth(items, j)
  }

  /** Some enclosing collection is a FIDO application collection. */
  ghost predicate UnderFido(items: seq<Item>, n: nat)
    requires n <= |items|
  {
    exists j: nat :: Encloses(items, j, n) && FidoOpening(items, j)
  }

  // ---------------------------------------------------------------- input reports

  /** Item i declares input fields of the report with this ID. */
  ghost predicate InputOf(items: seq<Item>, i: nat, id: nat)
    requires i < |items|
  {
    IsInput(items[i]) && InForce(items, Id, i) == id
  }

  /** Data (not constant) fields inside a FIDO application collection. */
  ghost predicate FidoData(items: seq<Item>, i: nat)
    requires i < |items|
  {
    items[i].value % 2 == 0 && UnderFido(items, i)
  }

  function Times(a: nat, b: nat): nat {
    a * b
  }

  /** A field is as many values as the count in force, each as long as the size in force. */
  ghost function FieldBits(items: seq<Item>, i: nat): nat
    requires i < |items|
  {
    Times(InForce(items, Size, i), InForce(items, Count, i))
  }

  /** Bits of the input report with this ID declared before item n. */
  ghost function TotalBits(items: seq<Item>, id: nat, n: nat): nat
    requires n <= |items|
  {
    if n == 0 then 0
    else TotalBits(items, id, n - 1) + if InputOf(items, n - 1, id) then FieldBits(items, n - 1) else 0
  }

  ghost predicate ItemOk(items: seq<Item>, i: nat)
    requires i < |items|
  {
    && (IsPush(items[i]) ==> Level(items, i) < 16)
    && (IsPop(items[i]) ==> Level(items, i) > 0)
    && (IsOpen(items[i]) ==> Depth(items, i) < 32)
    && (IsClose(items[i]) ==> Depth(items, i) > 0)
    && (Sets(items[i], Page) ==> items[i].value <= 0xFFFF)
    && (Sets(items[i], Id) ==> 1 <= items[i].value <= 255)
    && (IsInput(items[i]) ==>
          FieldBits(items, i) >= 1 && TotalBits(items, InForce(items, Id, i), i + 1) <= 8192)
  }

  ghost predicate ItemsOk(items: seq<Item>, n: nat)
    requires n <= |items|
  {
    forall i | 0 <= i < n :: ItemOk(items, i)
  }

  ghost predicate WellFormed(items: seq<Item>) {
    ItemsOk(items, |items|) && Level(items, |items|) == 0 && Depth(items, |items|) == 0
  }

  /** Some report ID item occurs. */
  ghost predicate Numbered(items: seq<Item>, n: nat)
    requires n <= |items|
  {
    exists i | 0 <= i < n :: Sets(items[i], Id)
  }

  ghost predicate HasInput(items: seq<Item>, id: nat, n: nat)
    requires n <= |items|
  {
    exists i | 0 <= i < n :: InputOf(items, i, id)
  }

  /** Some input field of this report is FIDO data, or some is not. */
  ghost predicate HasFido(items: seq<Item>, id: nat, n: nat)
    requires n <= |items|
  {
    exists i | 0 <= i < n :: InputOf(items, i, id) && FidoData(items, i)
  }

  ghost predicate HasOther(items: seq<Item>, id: nat, n: nat)
    requires n <= |items|
  {
    exists i | 0 <= i < n :: InputOf(items, i, id) && !FidoData(items, i)
  }

  /** A FIDO input report: fields exist, all are data under a FIDO application, whole bytes, at least eight. */
  ghost predicate FidoReport(items: seq<Item>, id: nat) {
    && HasInput(items, id, |items|) && !HasOther(items, id, |items|)
    && TotalBits(items, id, |items|) % 8 == 0 && TotalBits(items, id, |items|) >= 64
  }

  // ---------------------------------------------------------------- how the reading moves from item to item

  lemma VisibleNext(items: seq<Item>, j: nat, n: nat)
    requires n < |items| && j < n
    ensures Visible(items, j, n + 1) <==> Visible(items, j, n) && Level(items, n + 1) >= Level(items, j)
  {
  }

  lemma SetHere(items: seq<Item>, f: Field, n: nat)
    requires n < |items| && Sets(items[n], f)
    ensures InForce(items, f, n + 1) == items[n].value
  {
    assert Governs(items, n, f, n + 1);
    GovernedBy(items, n, f, n + 1);
  }

  lemma KeptHere(items: seq<Item>, f: Field, n: nat)
    requires n < |items| && !Sets(items[n], f) && !IsPop(items[n])
    ensures InForce(items, f, n + 1) == InForce(items, f, n)
  {
    forall j: nat ensures Governs(items, j, f, n + 1) <==> Governs(items, j, f, n) {
      if j < n {
        forall l: nat | j <= l < n ensures Visible(items, l, n + 1) <==> Visible(items, l, n) {
          VisibleNext(items, l, n);
        }
      }
    }
    SameGovernors(items, f, n + 1, n);
  }

  /** Item p is the Push that has level k open before n. */
  ghost predicate PushAt(items: seq<Item>, p: nat, k: int, n: nat)
    requires n <= |items|
  {
    p < n && IsPush(items[p]) && Level(items, p) == k && forall m | p < m <= n :: Level(items, m) > k
  }

  /** A Pop brings back exactly the globals in force at its Push. */
  lemma PoppedHere(items: seq<Item>, f: Field, p: nat, n: nat)
    requires n < |items| && IsPop(items[n]) && PushAt(items, p, Level(items, n) - 1, n)
    ensures InForce(items, f, n + 1) == InForce(items, f, p)
  {
    hide Governs;
    forall j: nat ensures Governs(items, j, f, n + 1) <==> Governs(items, j, f, p) {
      PopGovernors(items, f, p, n, j);
    }
    SameGovernors(items, f, n + 1, p);
  }

  lemma PopGovernors(items: seq<Item>, f: Field, p: nat, n: nat, j: nat)
    requires n < |items| && IsPop(items[n]) && PushAt(items, p, Level(items, n) - 1, n)
    ensures Governs(items, j, f, n + 1) <==> Governs(items, j, f, p)
  {
    hide Level;
    forall l: nat | p <= l <= n && Sets(items[l], f) ensures !Visible(items, l, n + 1) {
      HiddenByPop(items, p, n, l, f);
    }
    forall l: nat | l < p ensures Visible(items, l, n + 1) <==> Visible(items, l, p) {
      VisibleAcross(items, l, p, n);
    }
    hide Visible;
  }

  lemma HiddenByPop(items: seq<Item>, p: nat, n: nat, l: nat, f: Field)
    requires n < |items| && IsPop(items[n]) && PushAt(items, p, Level(items, n) - 1, n)
    requires p <= l <= n && Sets(items[l], f)
    ensures !Visible(items, l, n + 1)
  {
    assert p < l;
    assert Level(items, l) > Level(items, n) - 1 == Level(items, n + 1);
  }

  lemma VisibleAcross(items: seq<Item>, j: nat, p: nat, n: nat)
    requires n < |items| && IsPop(items[n]) && PushAt(items, p, Level(items, n) - 1, n) && j < p
    ensures Visible(items, j, n + 1) <==> Visible(items, j, p)
  {
    if Visible(items, j, p) {
      assert Level(items, p) >= Level(items, j);
      forall m | j < m <= n + 1 ensures Level(items, m) >= Level(items, j) {
        if m > p && m <= n { assert Level(items, m) > Level(items, p); }
      }
    }
  }

  // ---------------------------------------------------------------- the parser's state and the reading

  /** The globals in force at the Push that has level k open before n. */
  ghost predicate SavedAt(items: seq<Item>, k: int, n: nat, g: Globals)
    requires n <= |items|
  {
    exists p: nat :: p < n && PushAt(items, p, k, n) && g == GlobalsAt(items, p)
  }

  /** The stack holds, level by level, the globals in force at the pushes still open. */
  ghost predicate GlobalsRel(items: seq<Item>, n: nat, m: Machine)
    requires n <= |items|
  {
    && m.g == GlobalsAt(items, n)
    && |m.stack| == Level(items, n)
    && forall k | 0 <= k < |m.stack| :: SavedAt(items, k, n, m.stack[k])
  }

  lemma SavedStays(items: seq<Item>, k: int, n: nat, g: Globals)
    requires n < |items| && SavedAt(items, k, n, g) && Level(items, n + 1) > k
    ensures SavedAt(items, k, n + 1, g)
  {
    hide GlobalsAt, Level;
    var p: nat :| p < n && PushAt(items, p, k, n) && g == GlobalsAt(items, p);
    assert PushAt(items, p, k, n + 1);
  }

  lemma StackStays(items: seq<Item>, n: nat, m: Machine, stack: seq<Globals>)
    requires n < |items| && GlobalsRel(items, n, m) && stack <= m.stack && |stack| <= Level(items, n + 1)
    ensures forall k | 0 <= k < |stack| :: SavedAt(items, k, n + 1, stack[k])
  {
    hide GlobalsAt, SavedAt, Level;
    forall k | 0 <= k < |stack| ensures SavedAt(items, k, n + 1, stack[k]) {
      SavedStays(items, k, n, m.stack[k]);
    }
  }

  lemma FieldsHere(items: seq<Item>, n: nat)
    requires n < |items| && !IsPop(items[n])
    ensures var g, t := GlobalsAt(items, n), GlobalsAt(items, n + 1);
            && t.page == (if Sets(items[n], Page) then items[n].value else g.page)
            && t.size == (if Sets(items[n], Size) then items[n].value else g.size)
            && t.count == (if Sets(items[n], Count) then items[n].value else g.count)
            && t.id == (if Sets(items[n], Id) then items[n].value else g.id)
  {
    hide InForce, IsPop, Sets;
    FieldHere(items, Page, n);
    FieldHere(items, Size, n);
    FieldHere(items, Count, n);
    FieldHere(items, Id, n);
  }

  lemma FieldHere(items: seq<Item>, f: Field, n: nat)
    requires n < |items| && !IsPop(items[n])
    ensures InForce(items, f, n + 1) == if Sets(items[n], f) then items[n].value else InForce(items, f, n)
  {
    hide InForce;
    if Sets(items[n], f) { SetHere(items, f, n); } else { KeptHere(items, f, n); }
  }

  lemma LevelHere(items: seq<Item>, n: nat)
    requires n < |items|
    ensures Level(items, n + 1) == Level(items, n) + if IsPush(items[n]) then 1 else if IsPop(items[n]) then -1 else 0
  {
  }

  lemma PopStep(items: seq<Item>, n: nat, m: Machine)
    requires n < |items| && GlobalsRel(items, n, m) && IsPop(items[n]) && m.stack != []
    ensures GlobalsRel(items, n + 1, m.(g := m.stack[|m.stack| - 1], stack := m.stack[..|m.stack| - 1]))
  {
    hide InForce, PushAt, Level, IsPop, IsPush;
    LevelHere(items, n);
    PopIsNoPush(items[n]);
    var k := |m.stack| - 1;
    assert SavedAt(items, k, n, m.stack[k]);
    var p: nat :| p < n && PushAt(items, p, k, n) && m.stack[k] == GlobalsAt(items, p);
    PoppedHere(items, Page, p, n);
    PoppedHere(items, Size, p, n);
    PoppedHere(items, Count, p, n);
    PoppedHere(items, Id, p, n);
    hide SavedAt;
    StackStays(items, n, m, m.stack[..k]);
  }

  lemma PopIsNoPush(it: Item)
    requires IsPop(it)
    ensures !IsPush(it)
  {
  }

  lemma PushStep(items: seq<Item>, n: nat, m: Machine)
    requires n < |items| && GlobalsRel(items, n, m) && IsPush(items[n])
    ensures GlobalsRel(items, n + 1, m.(stack := m.stack + [m.g]))
  {
    hide InForce, PushAt, Level;
    LevelHere(items, n);
    FieldsHere(items, n);
    assert PushAt(items, n, |m.stack|, n + 1) by { OpensHere(items, n); }
    assert SavedAt(items, |m.stack|, n + 1, m.g);
    hide SavedAt;
    StackStays(items, n, m, m.stack);
  }

  lemma OpensHere(items: seq<Item>, n: nat)
    requires n < |items| && IsPush(items[n])
    ensures PushAt(items, n, Level(items, n), n + 1)
  {
    LevelHere(items, n);
  }

  lemma FieldStep(items: seq<Item>, n: nat, m: Machine, g: Globals)
    requires n < |items| && GlobalsRel(items, n, m) && !IsPop(items[n]) && !IsPush(items[n])
    requires g == Globals(if Sets(items[n], Page) then items[n].value else m.g.page,
                          if Sets(items[n], Size) then items[n].value else m.g.size,
                          if Sets(items[n], Count) then items[n].value else m.g.count,
                          if Sets(items[n], Id) then items[n].value else m.g.id)
    ensures GlobalsRel(items, n + 1, m.(g := g))
  {
    hide InForce, SavedAt, Level, Sets, IsPop, IsPush;
    LevelHere(items, n);
    FieldsHere(items, n);
    StackStays(items, n, m, m.stack);
  }

  lemma GlobalsStep(items: seq<Item>, n: nat, m: Machine, t: Machine)
    requires n < |items| && GlobalsRel(items, n, m) && StepItem(m, items[n]) == Some(t)
    ensures GlobalsRel(items, n + 1, t)
  {
    hide GlobalsRel, StepItem, IsPop, IsPush, Sets;
    var it := items[n];
    SameGlobals(m, it, t);
    if IsPop(it) {
      PopStep(items, n, m);
      SameRel(items, n + 1, m.(g := m.stack[|m.stack| - 1], stack := m.stack[..|m.stack| - 1]), t);
    } else if IsPush(it) {
      PushStep(items, n, m);
      SameRel(items, n + 1, m.(stack := m.stack + [m.g]), t);
    } else {
      FieldStep(items, n, m, t.g);
      SameRel(items, n + 1, m.(g := t.g), t);
    }
  }

  lemma SameRel(items: seq<Item>, n: nat, m: Machine, t: Machine)
    requires n <= |items| && GlobalsRel(items, n, m) && t.g == m.g && t.stack == m.stack
    ensures GlobalsRel(items, n, t)
  {
  }

  /** What an item does to the globals and their stack. */
  lemma SameGlobals(m: Machine, it: Item, t: Machine)
    requires StepItem(m, it) == Some(t)
    ensures IsPop(it) ==> m.stack != [] && t.g == m.stack[|m.stack| - 1] && t.stack == m.stack[..|m.stack| - 1]
    ensures IsPush(it) ==> t.g == m.g && t.stack == m.stack + [m.g]
    ensures !IsPop(it) && !IsPush(it) ==>
              && t.stack == m.stack
              && t.g == Globals(if Sets(it, Page) then it.value else m.g.page,
                                if Sets(it, Size) then it.value else m.g.size,
                                if Sets(it, Count) then it.value else m.g.count,
                                if Sets(it, Id) then it.value else m.g.id)
  {
  }
}
