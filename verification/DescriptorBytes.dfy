/** The items of a HID report descriptor and the bytes they are written in (section 6.2.2.2 of the USB HID Device
    Class Definition 1.11). */
module DescriptorBytes {
  import opened Text
  import opened Descriptor

  /** A short item whose value fits its data bytes; one prefix is taken by long items. */
  predicate Short(it: Item) {
    && it.typ < 4 && it.tag < 16 && it.size in {0, 1, 2, 4} && !(it.tag == 15 && it.typ == 3 && it.size == 2)
    && (it.size == 0 ==> it.value == 0)
    && (it.size == 1 ==> it.value < 0x100)
    && (it.size == 2 ==> it.value < 0x1_0000)
    && (it.size == 4 ==> it.value < 0x1_0000_0000)
  }

  function SizeCode(size: nat): nat {
    if size == 4 then 3 else size
  }

  /** The n lowest bytes of v, lowest first. */
  function DataBytes(v: nat, n: nat): (b: seq<byte>)
    ensures |b| == n
  {
    if n == 0 then [] else [(v % 256) as byte] + DataBytes(v / 256, n - 1)
  }

  function EncodeItem(it: Item): seq<byte>
    requires Short(it)
  {
    [(16 * it.tag + 4 * it.typ + SizeCode(it.size)) as byte] + DataBytes(it.value, it.size)
  }

  function Encode(items: seq<Item>): seq<byte>
    requires forall it | it in items :: Short(it)
  {
    if items == [] then [] else EncodeItem(items[0]) + Encode(items[1..])
  }

  // ---------------------------------------------------------------- values

  function Power(n: nat): nat {
    if n == 0 then 1 else 256 * Power(n - 1)
  }

  lemma {:induction false} ValueBack(v: nat, n: nat)
    requires v < Power(n)
    ensures LittleEndian(DataBytes(v, n)) == v
  {
    if n > 0 {
      assert v / 256 < Power(n - 1);
      ValueBack(v / 256, n - 1);
      var b := DataBytes(v, n);
      assert b[1..] == DataBytes(v / 256, n - 1);
    }
  }

  lemma {:induction false} BytesBack(b: seq<byte>)
    ensures DataBytes(LittleEndian(b), |b|) == b && LittleEndian(b) < Power(|b|)
  {
    if b != [] {
      BytesBack(b[1..]);
      var v, low := LittleEndian(b[1..]), b[0] as nat;
      assert (low + 256 * v) % 256 == low && (low + 256 * v) / 256 == v;
      assert b == [b[0]] + b[1..];
    }
  }

  lemma Powers()
    ensures Power(0) == 1 && Power(1) == 0x100 && Power(2) == 0x1_0000 && Power(4) == 0x1_0000_0000
  {
    assert Power(3) == 256 * Power(2);
  }

  // ---------------------------------------------------------------- one item

  lemma PrefixBack(it: Item)
    requires Short(it)
    ensures var p := (16 * it.tag + 4 * it.typ + SizeCode(it.size)) as byte;
            p != 0xFE && DataSize(p) == it.size && (p / 4 % 4) as nat == it.typ && (p / 16) as nat == it.tag
  {
  }

  lemma ItemBack(it: Item, rest: seq<byte>)
    requires Short(it)
    ensures var data := EncodeItem(it) + rest;
            && data != [] && data[0] != 0xFE && 1 + DataSize(data[0]) <= |data|
            && FirstItem(data) == it && data[1 + DataSize(data[0])..] == rest
  {
    PrefixBack(it);
    Powers();
    ValueBack(it.value, it.size);
    var data := EncodeItem(it) + rest;
    assert data[1..1 + it.size] == DataBytes(it.value, it.size);
    assert data[1 + it.size..] == rest;
    hide DataBytes, LittleEndian, Power;
  }

  lemma ItemIs(data: seq<byte>)
    requires data != [] && data[0] != 0xFE && 1 + DataSize(data[0]) <= |data|
    ensures Short(FirstItem(data)) && EncodeItem(FirstItem(data)) == data[..1 + DataSize(data[0])]
  {
    var n := DataSize(data[0]);
    Powers();
    BytesBack(data[1..1 + n]);
    PrefixIs(data[0]);
    assert data[..1 + n] == [data[0]] + data[1..1 + n];
    hide DataBytes, LittleEndian, Power;
  }

  lemma PrefixIs(p: byte)
    ensures var tag, typ := (p / 16) as nat, (p / 4 % 4) as nat;
            && p as nat == 16 * tag + 4 * typ + SizeCode(DataSize(p)) && tag < 16 && typ < 4
            && DataSize(p) in {0, 1, 2, 4}
            && (p != 0xFE ==> !(tag == 15 && typ == 3 && DataSize(p) == 2))
  {
  }

  // ---------------------------------------------------------------- whole descriptors

  /** Writing items and reading them gives them back. */
  lemma {:induction false} EncodedItemsAreRead(items: seq<Item>)
    requires forall it | it in items :: Short(it)
    ensures Items(Encode(items)) == Some(items)
  {
    hide Short, FirstItem, EncodeItem, DataSize;
    if items != [] {
      EncodedItemsAreRead(items[1..]);
      ItemBack(items[0], Encode(items[1..]));
      assert [items[0]] + items[1..] == items;
    }
  }

  /** And any bytes that are read as items are what those items are written as. */
  lemma {:induction false} ReadItemsAreEncoded(data: seq<byte>)
    requires Items(data).Some?
    ensures forall it | it in Items(data).value :: Short(it)
    ensures Encode(Items(data).value) == data
    decreases |data|
  {
    hide Short, FirstItem, EncodeItem, DataSize;
    if data != [] {
      var n := DataSize(data[0]);
      var items := Items(data).value;
      assert items == [FirstItem(data)] + Items(data[1 + n..]).value;
      assert items[1..] == Items(data[1 + n..]).value;
      ReadItemsAreEncoded(data[1 + n..]);
      ItemIs(data);
      assert data[..1 + n] + data[1 + n..] == data;
    }
  }

  /** The bytes read as items are exactly the encodings of short items, and each for just these items. */
  lemma ItemsIff(data: seq<byte>, items: seq<Item>)
    ensures Items(data) == Some(items) <==> (forall it | it in items :: Short(it)) && Encode(items) == data
  {
    hide Short;
    if Items(data) == Some(items) { ReadItemsAreEncoded(data); }
    if (forall it | it in items :: Short(it)) && Encode(items) == data { EncodedItemsAreRead(items); }
  }
}
