/** Recognising the FIDO input reports of a HID report descriptor (internal/touch/report.go). */
module Descriptor {
  import opened Text

  /** One short item: type, tag, number of data bytes and their little-endian value
      (section 6.2.2.2 of the USB HID Device Class Definition 1.11). */
  datatype Item = Item(typ: nat, tag: nat, size: nat, value: nat)

  /** Report IDs with the on-wire length of their input report; 0 stands for unnumbered. */
  type Layout = map<nat, nat>

  const LONG_ITEM: byte := 0xFE

  function DataSize(prefix: byte): nat {
    if prefix % 4 == 3 then 4 else (prefix % 4) as nat
  }

  function LittleEndian(b: seq<byte>): nat {
    if b == [] then 0 else b[0] as nat + 256 * LittleEndian(b[1..])
  }

  /** The items of a descriptor, None when one is long or cut short. */
  function Items(data: seq<byte>): Option<seq<Item>>
    decreases |data|
  {
    if data == [] then Some([])
    else
      var n := DataSize(data[0]);
      if data[0] == LONG_ITEM || 1 + n > |data| then None
      else
        match Items(data[1 + n..])
        case None => None
        case Some(rest) => Some([FirstItem(data)] + rest)
  }

  function FirstItem(data: seq<byte>): Item
    requires data != [] && 1 + DataSize(data[0]) <= |data|
  {
    var n := DataSize(data[0]);
    Item((data[0] / 4 % 4) as nat, (data[0] / 16) as nat, n, LittleEndian(data[1..1 + n]))
  }

  // ---------------------------------------------------------------- one pass over the items

  datatype Globals = Globals(page: nat, size: nat, count: nat, id: nat)

  datatype Machine = Machine(
    g: Globals,
    stack: seq<Globals>,
    collections: seq<bool>,
    usage: Option<nat>,
    bits: map<nat, nat>,
    fido: set<nat>,
    other: set<nat>,
    numbered: bool)

  const MAX_BITS := 8192
  const MAX_STACK := 16
  const MAX_DEPTH := 32
  /** Usage page F1D0, usage 1. */
  const FIDO_USAGE := 0xF1D0_0001

  function Begun(): Machine {
    Machine(Globals(0, 0, 0, 0), [], [], None, map[], {}, {}, false)
  }

  function Inside(m: Machine): bool {
    m.collections != [] && m.collections[|m.collections| - 1]
  }

  function GlobalItem(m: Machine, it: Item): Option<Machine> {
    if it.tag == 0 then
      if it.value > 0xFFFF then None else Some(m.(g := m.g.(page := it.value)))
    else if it.tag == 7 then Some(m.(g := m.g.(size := it.value)))
    else if it.tag == 8 then
      if it.value == 0 || it.value > 255 then None
      else Some(m.(g := m.g.(id := it.value), numbered := true))
    else if it.tag == 9 then Some(m.(g := m.g.(count := it.value)))
    else if it.tag == 10 then
      if |m.stack| >= MAX_STACK then None else Some(m.(stack := m.stack + [m.g]))
    else if it.tag == 11 then
      if m.stack == [] then None
      else Some(m.(g := m.stack[|m.stack| - 1], stack := m.stack[..|m.stack| - 1]))
    else Some(m)
  }

  function LocalItem(m: Machine, it: Item): Machine {
    if it.tag == 0 then
      m.(usage := Some(if it.size < 4 then it.value + m.g.page * 65536 else it.value))
    else m
  }

  /** The bits an input item declares. */
  function Width(g: Globals): nat {
    g.size * g.count
  }

  predicate FieldOk(g: Globals) {
    1 <= g.size <= MAX_BITS && 1 <= g.count <= MAX_BITS && Width(g) <= MAX_BITS
  }

  function Sum(bits: map<nat, nat>, id: nat): nat {
    if id in bits then bits[id] else 0
  }

  function InputItem(m: Machine, it: Item): Option<Machine> {
    if !FieldOk(m.g) then None
    else
      var b := Sum(m.bits, m.g.id) + Width(m.g);
      if b > MAX_BITS then None
      else
        var data := Inside(m) && it.value % 2 == 0;
        Some(m.(bits := m.bits[m.g.id := b],
                fido := if data then m.fido + {m.g.id} else m.fido,
                other := if data then m.other else m.other + {m.g.id}))
  }

  function MainItem(m: Machine, it: Item): Option<Machine> {
    if it.tag == 10 then
      if |m.collections| >= MAX_DEPTH then None
      else Some(m.(collections := m.collections + [Inside(m) || (it.value == 1 && m.usage == Some(FIDO_USAGE))]))
    else if it.tag == 12 then
      if m.collections == [] then None
      else Some(m.(collections := m.collections[..|m.collections| - 1]))
    else if it.tag == 8 then InputItem(m, it)
    else Some(m)
  }

  function StepItem(m: Machine, it: Item): Option<Machine> {
    if it.typ == 1 then GlobalItem(m, it)
    else if it.typ == 2 then Some(LocalItem(m, it))
    else if it.typ == 0 then
      match MainItem(m, it)
      case None => None
      case Some(t) => Some(t.(usage := None))
    else Some(m)
  }

  /** The state after the first n items. */
  function Exec(items: seq<Item>, n: nat): Option<Machine>
    requires n <= |items|
  {
    if n == 0 then Some(Begun())
    else
      match Exec(items, n - 1)
      case None => None
      case Some(m) => StepItem(m, items[n - 1])
  }

  predicate Chosen(m: Machine, id: nat) {
    id in m.bits && id in m.fido && id !in m.other && m.bits[id] % 8 == 0 && m.bits[id] / 8 >= 8
  }

  function Finish(m: Machine): Option<Layout> {
    if m.collections != [] || m.stack != [] then None
    else if m.numbered && Chosen(m, 0) then None
    else Some(map id | id in m.bits && Chosen(m, id) :: m.bits[id] / 8 + if m.numbered then 1 else 0)
  }

  function Recognize(data: seq<byte>): Option<Layout> {
    if |data| == 0 || |data| > 4096 then None
    else
      match Items(data)
      case None => None
      case Some(items) =>
        match Exec(items, |items|)
        case None => None
        case Some(m) => Finish(m)
  }

  // ---------------------------------------------------------------- the loop

  method ReadValue(data: seq<byte>, i: nat, n: nat) returns (v: nat)
    requires i + n <= |data|
    ensures v == LittleEndian(data[i..i + n])
  {
    v := 0;
    var shift: nat := 1;
    var j := 0;
    while j < n
      invariant j <= n
      invariant LittleEndian(data[i..i + n]) == v + shift * LittleEndian(data[i + j..i + n])
    {
      assert data[i + j..i + n][0] == data[i + j] && data[i + j..i + n][1..] == data[i + j + 1..i + n];
      Distribute(shift, data[i + j] as nat, LittleEndian(data[i + j + 1..i + n]));
      v := v + shift * data[i + j] as nat;
      shift := shift * 256;
      j := j + 1;
    }
  }

  lemma Distribute(a: nat, b: nat, c: nat)
    ensures a * (b + 256 * c) == a * b + (a * 256) * c
  {
  }

  /** What has been read so far, with what is left, makes up the whole. */
  ghost predicate Split(data: seq<byte>, i: nat, items: seq<Item>) {
    i <= |data| && Items(data) == match Items(data[i..]) case None => None case Some(rest) => Some(items + rest)
  }

  lemma {:induction false} ExecPrefix(a: seq<Item>, b: seq<Item>, n: nat)
    requires n <= |a|
    ensures Exec(a + b, n) == Exec(a, n)
  {
    if n > 0 {
      ExecPrefix(a, b, n - 1);
      assert (a + b)[n - 1] == a[n - 1];
    }
  }

  lemma {:induction false} ExecFails(items: seq<Item>, n: nat, m: nat)
    requires n <= m <= |items| && Exec(items, n) == None
    ensures Exec(items, m) == None
    decreases m
  {
    if n < m {
      ExecFails(items, n, m - 1);
    }
  }

  lemma SplitNext(data: seq<byte>, i: nat, items: seq<Item>)
    requires Split(data, i, items) && i < |data|
    requires data[i] != LONG_ITEM && i + 1 + DataSize(data[i]) <= |data|
    ensures Split(data, i + 1 + DataSize(data[i]), items + [FirstItem(data[i..])])
    ensures FirstItem(data[i..])
         == Item((data[i] / 4 % 4) as nat, (data[i] / 16) as nat, DataSize(data[i]),
                 LittleEndian(data[i + 1..i + 1 + DataSize(data[i])]))
  {
    FirstAt(data, i);
    hide FirstItem, LittleEndian, DataSize;
    var n := DataSize(data[i]);
    assert data[i..][1 + n..] == data[i + 1 + n..];
    match Items(data[i + 1 + n..])
    case None =>
    case Some(rest) =>
      assert items + ([FirstItem(data[i..])] + rest) == items + [FirstItem(data[i..])] + rest;
  }

  lemma FirstAt(data: seq<byte>, i: nat)
    requires i < |data| && i + 1 + DataSize(data[i]) <= |data|
    ensures FirstItem(data[i..])
         == Item((data[i] / 4 % 4) as nat, (data[i] / 16) as nat, DataSize(data[i]),
                 LittleEndian(data[i + 1..i + 1 + DataSize(data[i])]))
  {
    hide LittleEndian;
    var n := DataSize(data[i]);
    assert data[i..][1..1 + n] == data[i + 1..i + 1 + n];
  }

  /** An item that fails makes the whole descriptor fail. */
  lemma FailsEarly(data: seq<byte>, i: nat, items: seq<Item>)
    requires Split(data, i, items) && Exec(items, |items|) == None
    ensures Recognize(data) == None
  {
    if Items(data[i..]).Some? {
      var rest := Items(data[i..]).value;
      ExecPrefix(items, rest, |items|);
      ExecFails(items + rest, |items|, |items + rest|);
    }
  }

  /** The parser: one loop over the bytes, with two stacks, three tables and the pending usage. */
  method Parse(data: seq<byte>) returns (r: Option<Layout>)
    ensures r == Recognize(data)
  {
    hide *;
    if |data| == 0 || |data| > 4096 {
      WrongLength(data);
      return None;
    }
    var g := Globals(0, 0, 0, 0);
    var stack: seq<Globals> := [];
    var collections: seq<bool> := [];
    var usage: Option<nat> := None;
    var bits: map<nat, nat> := map[];
    var fido, other: set<nat>, numbered := {}, {}, false;
    ghost var items: seq<Item> := [];
    var i := 0;
    SplitAll(data);
    NothingRead();
    while i < |data|
      invariant i <= |data| && Split(data, i, items)
      invariant Exec(items, |items|) == Some(Machine(g, stack, collections, usage, bits, fido, other, numbered))
      decreases |data| - i
    {
      var prefix := data[i];
      var n := DataSize(prefix);
      if prefix == LONG_ITEM || i + 1 + n > |data| {
        CutShort(data, i, items);
        return None;
      }
      SplitNext(data, i, items);
      var v := ReadValue(data, i + 1, n);
      var typ, tag := Kind(prefix);
      ghost var before := Machine(g, stack, collections, usage, bits, fido, other, numbered);
      NextItem(items, Item(typ, tag, n, v));
      items := items + [Item(typ, tag, n, v)];
      i := i + 1 + n;
      var ok;
      ok, g, stack, collections, usage, bits, fido, other, numbered :=
        ApplyItem(typ, tag, n, v, g, stack, collections, usage, bits, fido, other, numbered);
      if !ok {
        FailsEarly(data, i, items);
        return None;
      }
    }
    ParseEnds(data, items);
    r := Collect(collections, stack, bits, fido, other, numbered,
                 Machine(g, stack, collections, usage, bits, fido, other, numbered));
  }

  method Kind(prefix: byte) returns (typ: nat, tag: nat)
    ensures typ == (prefix / 4 % 4) as nat && tag == (prefix / 16) as nat && typ < 4
  {
    typ, tag := (prefix / 4 % 4) as nat, (prefix / 16) as nat;
  }

  lemma WrongLength(data: seq<byte>)
    requires |data| == 0 || |data| > 4096
    ensures Recognize(data) == None
  {
  }

  lemma NothingRead()
    ensures Exec([], 0) == Some(Machine(Globals(0, 0, 0, 0), [], [], None, map[], {}, {}, false))
  {
  }

  lemma CutShort(data: seq<byte>, i: nat, items: seq<Item>)
    requires Split(data, i, items) && i < |data|
    requires data[i] == LONG_ITEM || i + 1 + DataSize(data[i]) > |data|
    ensures Recognize(data) == None
  {
    assert Items(data[i..]) == None;
  }

  lemma ParseEnds(data: seq<byte>, items: seq<Item>)
    requires Split(data, |data|, items) && 0 < |data| <= 4096
    ensures Recognize(data) == match Exec(items, |items|) case None => None case Some(m) => Finish(m)
  {
    assert data[|data|..] == [] && items + [] == items;
  }

  lemma NextItem(items: seq<Item>, it: Item)
    requires Exec(items, |items|).Some?
    ensures Exec(items + [it], |items + [it]|) == StepItem(Exec(items, |items|).value, it)
  {
    ExecPrefix(items, [it], |items|);
  }

  /** The switch over the item types. */
  method ApplyItem(typ: nat, tag: nat, n: nat, v: nat, g0: Globals, stack0: seq<Globals>, collections0: seq<bool>,
                   usage0: Option<nat>, bits0: map<nat, nat>, fido0: set<nat>, other0: set<nat>, numbered0: bool)
    returns (ok: bool, g: Globals, stack: seq<Globals>, collections: seq<bool>, usage: Option<nat>,
             bits: map<nat, nat>, fido: set<nat>, other: set<nat>, numbered: bool)
    requires typ < 4
    ensures StepItem(Machine(g0, stack0, collections0, usage0, bits0, fido0, other0, numbered0), Item(typ, tag, n, v))
         == if ok then Some(Machine(g, stack, collections, usage, bits, fido, other, numbered)) else None
  {
    ghost var m := Machine(g0, stack0, collections0, usage0, bits0, fido0, other0, numbered0);
    ok, g, stack, collections, usage := true, g0, stack0, collections0, usage0;
    bits, fido, other, numbered := bits0, fido0, other0, numbered0;
    match typ
    case 1 =>
      ok, g, stack, numbered := ApplyGlobal(tag, v, g, stack, numbered, m, n);
    case 2 =>
      if tag == 0 {
        usage := Some(if n < 4 then v + g.page * 65536 else v);
      }
    case 0 =>
      ok, collections, bits, fido, other := ApplyMain(tag, v, g, collections, usage, bits, fido, other, m, n);
      usage := None;
    case _ =>
  }

  lemma SplitAll(data: seq<byte>)
    ensures Split(data, 0, [])
  {
    assert data[0..] == data;
    match Items(data)
    case None =>
    case Some(items) => assert [] + items == items;
  }

  /** The switch over global items. */
  method ApplyGlobal(tag: nat, v: nat, g0: Globals, stack0: seq<Globals>, numbered0: bool, ghost m: Machine,
                     ghost n: nat)
    returns (ok: bool, g: Globals, stack: seq<Globals>, numbered: bool)
    requires m.g == g0 && m.stack == stack0 && m.numbered == numbered0
    ensures StepItem(m, Item(1, tag, n, v))
         == if ok then Some(m.(g := g, stack := stack, numbered := numbered)) else None
  {
    ok, g, stack, numbered := true, g0, stack0, numbered0;
    match tag
    case 0 =>
      if v > 0xFFFF { ok := false; } else { g := g.(page := v); }
    case 7 => g := g.(size := v);
    case 8 =>
      if v == 0 || v > 255 { ok := false; } else { g, numbered := g.(id := v), true; }
    case 9 => g := g.(count := v);
    case 10 =>
      if |stack| >= MAX_STACK { ok := false; } else { stack := stack + [g]; }
    case 11 =>
      if stack == [] { ok := false; } else { g, stack := stack[|stack| - 1], stack[..|stack| - 1]; }
    case _ =>
  }

  /** The switch over main items. */
  method ApplyMain(tag: nat, v: nat, g: Globals, collections0: seq<bool>, usage: Option<nat>,
                   bits0: map<nat, nat>, fido0: set<nat>, other0: set<nat>, ghost m: Machine, ghost n: nat)
    returns (ok: bool, collections: seq<bool>, bits: map<nat, nat>, fido: set<nat>, other: set<nat>)
    requires m.g == g && m.collections == collections0 && m.usage == usage
    requires m.bits == bits0 && m.fido == fido0 && m.other == other0
    ensures StepItem(m, Item(0, tag, n, v)) ==
      if ok then Some(m.(collections := collections, bits := bits, fido := fido, other := other, usage := None))
      else None
  {
    ok, collections, bits, fido, other := true, collections0, bits0, fido0, other0;
    var inside := collections != [] && collections[|collections| - 1];
    match tag
    case 10 =>
      if |collections| >= MAX_DEPTH {
        ok := false;
      } else {
        collections := collections + [inside || (v == 1 && usage == Some(FIDO_USAGE))];
      }
    case 12 =>
      if collections == [] { ok := false; } else { collections := collections[..|collections| - 1]; }
    case 8 =>
      if g.size == 0 || g.count == 0 || g.size > MAX_BITS || g.count > MAX_BITS || g.size * g.count > MAX_BITS {
        ok := false;
      } else {
        bits := bits[g.id := Sum(bits, g.id) + g.size * g.count];
        if bits[g.id] > MAX_BITS {
          ok := false;
        } else if inside && v % 2 == 0 {
          fido := fido + {g.id};
        } else {
          other := other + {g.id};
        }
      }
    case _ =>
  }

  /** The closing loop over the table of bit counts, in any order. */
  method Collect(collections: seq<bool>, stack: seq<Globals>, bits: map<nat, nat>, fido: set<nat>, other: set<nat>,
                 numbered: bool, ghost m: Machine)
    returns (r: Option<Layout>)
    requires m.collections == collections && m.stack == stack && m.bits == bits
    requires m.fido == fido && m.other == other && m.numbered == numbered
    ensures r == Finish(m)
  {
    if collections != [] || stack != [] {
      return None;
    }
    var layout: Layout := map[];
    var todo := bits.Keys;
    while todo != {}
      invariant todo <= bits.Keys
      invariant numbered && Chosen(m, 0) ==> 0 in todo
      invariant layout == map id | id in bits && id !in todo && Chosen(m, id) ::
                            bits[id] / 8 + if numbered then 1 else 0
      decreases todo
    {
      var id :| id in todo;
      todo := todo - {id};
      var b := bits[id];
      if id in fido && id !in other && b % 8 == 0 && b / 8 >= 8 {
        if numbered && id == 0 {
          return None;
        }
        layout := layout[id := b / 8 + if numbered then 1 else 0];
      }
    }
    assert layout == map id | id in bits && Chosen(m, id) :: bits[id] / 8 + if numbered then 1 else 0;
    r := Some(layout);
  }
}
