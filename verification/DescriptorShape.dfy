/** Machine words suffice for the parser, and the shape of every layout it returns. */
module DescriptorShape {
  import opened Text
  import opened Descriptor

  const TWO_32 := 0x1_0000_0000

  /** Values fit the bytes they were read from. */
  predicate ItemFits(it: Item) {
    && it.size in {0, 1, 2, 4}
    && it.value < if it.size == 0 then 1 else if it.size == 1 then 0x100 else if it.size == 2 then 0x1_0000 else TWO_32
  }

  lemma LittleEndianFits(b: seq<byte>)
    requires |b| <= 4
    ensures LittleEndian(b) < (if |b| == 0 then 1 else if |b| == 1 then 0x100 else if |b| == 2 then 0x1_0000
                               else if |b| == 3 then 0x100_0000 else TWO_32)
  {
    if b != [] {
      LittleEndianFits(b[1..]);
    }
  }

  lemma {:induction false} ItemsFit(data: seq<byte>)
    requires Items(data).Some?
    ensures forall it | it in Items(data).value :: ItemFits(it)
    decreases |data|
  {
    if data != [] {
      var n := DataSize(data[0]);
      LittleEndianFits(data[1..1 + n]);
      ItemsFit(data[1 + n..]);
    }
  }

  predicate GlobalsFit(g: Globals, numbered: bool) {
    && g.page <= 0xFFFF && g.size < TWO_32 && g.count < TWO_32 && g.id <= 255
    && (!numbered ==> g.id == 0)
  }

  predicate UsageFits(usage: Option<nat>) {
    usage.Some? ==> usage.value < TWO_32
  }

  predicate BitsFit(bits: map<nat, nat>, numbered: bool) {
    && (forall id | id in bits :: id <= 255 && bits[id] <= MAX_BITS)
    && (!numbered ==> forall id | id in bits :: id == 0)
  }

  /** Every number the parser holds fits the word it is held in; ids are 0 until a report ID occurs. */
  predicate Fits(m: Machine) {
    && GlobalsFit(m.g, m.numbered)
    && (forall g | g in m.stack :: GlobalsFit(g, m.numbered))
    && UsageFits(m.usage)
    && BitsFit(m.bits, m.numbered)
  }

  /** The sums and products the parser forms on the way stay below two to the thirty-second, and a
      short usage never overlaps the page it is joined with. */
  predicate NoOverflow(m: Machine, it: Item) {
    && (m.g.size <= MAX_BITS && m.g.count <= MAX_BITS ==> Width(m.g) < TWO_32)
    && (FieldOk(m.g) ==> Sum(m.bits, m.g.id) + Width(m.g) < TWO_32)
    && (it.size < 4 ==> it.value < 0x1_0000 && it.value + m.g.page * 0x1_0000 < TWO_32)
  }

  lemma WidthFits(g: Globals)
    requires g.size <= MAX_BITS && g.count <= MAX_BITS
    ensures Width(g) <= MAX_BITS * MAX_BITS
  {
    calc <= {
      g.size * g.count;
      MAX_BITS * g.count;
      MAX_BITS * MAX_BITS;
    }
  }

  lemma StaysSmall(m: Machine, it: Item)
    requires Fits(m) && ItemFits(it)
    ensures NoOverflow(m, it)
  {
    hide Width;
    if m.g.size <= MAX_BITS && m.g.count <= MAX_BITS { WidthFits(m.g); }
  }

  lemma FitsStep(m: Machine, it: Item)
    requires Fits(m) && ItemFits(it) && StepItem(m, it).Some?
    ensures Fits(StepItem(m, it).value)
  {
    hide Width;
    StaysSmall(m, it);
  }

  lemma {:induction false} ExecFits(items: seq<Item>, n: nat)
    requires n <= |items| && Exec(items, n).Some?
    requires forall it | it in items :: ItemFits(it)
    ensures Fits(Exec(items, n).value)
  {
    hide Fits, StepItem, ItemFits;
    if n == 0 {
      BegunFits();
    } else {
      ExecFits(items, n - 1);
      FitsStep(Exec(items, n - 1).value, items[n - 1]);
    }
  }

  lemma BegunFits()
    ensures Fits(Begun())
  {
  }

  /** Over the whole pass nothing wraps around, whatever the bytes. */
  lemma NothingOverflows(data: seq<byte>, n: nat)
    requires Items(data).Some? && n < |Items(data).value| && Exec(Items(data).value, n).Some?
    ensures NoOverflow(Exec(Items(data).value, n).value, Items(data).value[n])
  {
    hide NoOverflow, Items, Exec, ItemFits, Fits;
    var items := Items(data).value;
    ItemsFit(data);
    ExecFits(items, n);
    StaysSmall(Exec(items, n).value, items[n]);
  }

  /** A layout is either report 0 alone or free of report 0; reports are 8 to 1025 bytes on the wire,
      counting the ID byte that numbered ones carry. */
  predicate Shaped(layout: Layout) {
    && (0 in layout ==> layout.Keys == {0})
    && (forall id | id in layout ::
          id <= 255 && (if id == 0 then 8 else 9) <= layout[id] <= (if id == 0 then 1024 else 1025))
  }

  lemma LayoutsAreShaped(data: seq<byte>)
    requires Recognize(data).Some?
    ensures Shaped(Recognize(data).value)
  {
    hide Items, Exec, ItemFits;
    var items := Items(data).value;
    ItemsFit(data);
    ExecFits(items, |items|);
    FinishShaped(Exec(items, |items|).value);
  }

  lemma FinishShaped(m: Machine)
    requires Fits(m) && Finish(m).Some?
    ensures Shaped(Finish(m).value)
  {
    var layout := Finish(m).value;
    if 0 in layout {
      assert forall id | id in layout :: id in m.bits;
    }
  }
}
