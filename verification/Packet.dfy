/** The packet serializer (common/packet_interface.h) on the buffers of common/thread_buffer.h. */
module Packet {
  import opened Collections
  import opened Words

  /** How the elements of a container are kept: as they come, as a std::set, or as a std::map. */
  datatype Kind = InOrder | AsSet | AsMap

  /** The type of a value: a scalar of some bytes, a string, two values in a row (the fields of a
      structure, an entry of a map), or a container. */
  datatype Shape =
    | Scalar(width: nat)
    | Text
    | Both(first: Shape, second: Shape)
    | Many(elem: Shape, kind: Kind)

  datatype Value =
    | Raw(bytes: seq<byte>)
    | Tuple(a: Value, b: Value)
    | Container(items: seq<Value>)

  /** `ph_number`, `ph_trans_id` and `ph_flag`. */
  const HEADER := Both(Scalar(2), Both(Scalar(4), Scalar(4)))

  /** operator< of the C++ types. */
  type Order = (Value, Value) -> bool

  // -------------------------------------------------------------------------------------------
  // Containers
  // -------------------------------------------------------------------------------------------

  /** What std::set and std::map sort by. */
  function Key(kind: Kind, x: Value): Value {
    if kind == AsMap && x.Tuple? then x.a else x
  }

  predicate Increasing(less: Order, kind: Kind, items: seq<Value>) {
    forall i, j :: 0 <= i < j < |items| ==>
      less(Key(kind, items[i]), Key(kind, items[j])) && !less(Key(kind, items[j]), Key(kind, items[i]))
  }

  /** `insert` into a set, or assignment to the entry of a map: an equivalent key keeps its place. */
  function Insert(less: Order, kind: Kind, items: seq<Value>, x: Value): seq<Value> {
    if items == [] || less(Key(kind, x), Key(kind, items[0])) then [x] + items
    else if less(Key(kind, items[0]), Key(kind, x)) then [items[0]] + Insert(less, kind, items[1..], x)
    else if kind == AsMap && items[0].Tuple? && x.Tuple? then [Tuple(items[0].a, x.b)] + items[1..]
    else items
  }

  function Added(less: Order, kind: Kind, items: seq<Value>, x: Value): seq<Value> {
    if kind == InOrder then items + [x] else Insert(less, kind, items, x)
  }

  lemma {:induction false} InsertLast(less: Order, kind: Kind, items: seq<Value>, x: Value)
    requires Increasing(less, kind, items + [x])
    ensures Insert(less, kind, items, x) == items + [x]
  {
    if items != [] {
      var all := items + [x];
      assert all[0] == items[0] && all[|items|] == x;
      assert all[1..] == items[1..] + [x];
      forall i, j | 0 <= i < j < |all[1..]|
        ensures less(Key(kind, all[1..][i]), Key(kind, all[1..][j])) && !less(Key(kind, all[1..][j]), Key(kind, all[1..][i]))
      {
        assert all[1..][i] == all[i + 1] && all[1..][j] == all[j + 1];
      }
      InsertLast(less, kind, items[1..], x);
    }
  }

  // -------------------------------------------------------------------------------------------
  // Writing
  // -------------------------------------------------------------------------------------------

  /** The values of a shape; every size fits 32 bits, and sets and maps are in their order. */
  ghost predicate Shaped(less: Order, shape: Shape, v: Value)
    decreases shape
  {
    match shape
    case Scalar(width) => v.Raw? && |v.bytes| == width > 0
    case Text => v.Raw? && |v.bytes| < 0x1_0000_0000
    case Both(first, second) => v.Tuple? && Shaped(less, first, v.a) && Shaped(less, second, v.b)
    case Many(elem, kind) =>
      && v.Container? && |v.items| < 0x1_0000_0000
      && (forall i :: 0 <= i < |v.items| ==> Shaped(less, elem, v.items[i]))
      && (kind != InOrder ==> Increasing(less, kind, v.items))
  }

  ghost function Encode(less: Order, shape: Shape, v: Value): seq<byte>
    requires Shaped(less, shape, v)
    decreases shape, 0, 0
  {
    match shape
    case Scalar(_) => v.bytes
    case Text => PutU32(|v.bytes|) + v.bytes
    case Both(first, second) => Encode(less, first, v.a) + Encode(less, second, v.b)
    case Many(elem, _) => PutU32(|v.items|) + EncodeAll(less, elem, v.items)
  }

  ghost function EncodeAll(less: Order, elem: Shape, items: seq<Value>): seq<byte>
    requires forall i :: 0 <= i < |items| ==> Shaped(less, elem, items[i])
    decreases elem, 1, |items|
  {
    if items == [] then [] else Encode(less, elem, items[0]) + EncodeAll(less, elem, items[1..])
  }

  // -------------------------------------------------------------------------------------------
  // Reading
  // -------------------------------------------------------------------------------------------

  datatype Got<+T> = Got(value: T, pos: nat)

  /** `thread_recv_buffer::read`: None is the exception; reading up to the end rewinds to the beginning. */
  function ReadRaw(data: seq<byte>, pos: nat, n: nat): (g: Option<Got<seq<byte>>>)
    ensures g.Some? ==> |g.value.value| == n && g.value.pos <= |data|
  {
    if pos + n > |data| then None
    else Some(Got(data[pos..pos + n], if pos + n == |data| then 0 else pos + n))
  }

  function ReadU32(data: seq<byte>, pos: nat): (g: Option<Got<u32>>)
    ensures g.Some? ==> g.value.pos <= |data|
  {
    match ReadRaw(data, pos, 4)
    case None => None
    case Some(g) => Some(Got(GetU32(g.value), g.pos))
  }

  /** `operator >>`. A string is copied from the buffer without a check; None if it reaches beyond it. */
  function Read(less: Order, shape: Shape, data: seq<byte>, pos: nat): (g: Option<Got<Value>>)
    requires pos <= |data|
    ensures g.Some? ==> g.value.pos <= |data|
    decreases shape, 0, 0
  {
    match shape
    case Scalar(width) =>
      (match ReadRaw(data, pos, width)
       case None => None
       case Some(g) => Some(Got(Raw(g.value), g.pos)))
    case Text =>
      (match ReadU32(data, pos)
       case None => None
       case Some(n) =>
         if n.pos + n.value > |data| then None
         else Some(Got(Raw(data[n.pos..n.pos + n.value]), n.pos + n.value)))
    case Both(first, second) =>
      (match Read(less, first, data, pos)
       case None => None
       case Some(a) =>
         match Read(less, second, data, a.pos)
         case None => None
         case Some(b) => Some(Got(Tuple(a.value, b.value), b.pos)))
    case Many(elem, kind) =>
      (match ReadU32(data, pos)
       case None => None
       case Some(n) =>
         match ReadAll(less, elem, kind, n.value, data, n.pos, [])
         case None => None
         case Some(g) => Some(Got(Container(g.value), g.pos)))
  }

  /** `n` more elements, after the ones in `items`. */
  function ReadAll(less: Order, elem: Shape, kind: Kind, n: nat, data: seq<byte>, pos: nat, items: seq<Value>): (g: Option<Got<seq<Value>>>)
    requires pos <= |data|
    ensures g.Some? ==> g.value.pos <= |data|
    decreases elem, 1, n
  {
    if n == 0 then Some(Got(items, pos))
    else
      match Read(less, elem, data, pos)
      case None => None
      case Some(x) => ReadAll(less, elem, kind, n - 1, data, x.pos, Added(less, kind, items, x.value))
  }

  // -------------------------------------------------------------------------------------------
  // Reading what was written
  // -------------------------------------------------------------------------------------------

  /** The last bytes of the value are the characters of a string. */
  predicate EndsInText(shape: Shape, v: Value)
    decreases shape
  {
    match shape
    case Scalar(_) => false
    case Text => v.Raw? && v.bytes != []
    case Both(_, second) => v.Tuple? && EndsInText(second, v.b)
    case Many(elem, _) => v.Container? && v.items != [] && EndsInText(elem, v.items[|v.items| - 1])
  }

  /** Where a read that ends at `end` leaves the position. */
  function Rewound(end: nat, data: seq<byte>, inText: bool): nat {
    if end == |data| && !inText then 0 else end
  }

  /** The bytes lie in the data at this position. */
  predicate At(data: seq<byte>, pos: nat, bytes: seq<byte>) {
    pos + |bytes| <= |data| && data[pos..pos + |bytes|] == bytes
  }

  lemma AtParts(data: seq<byte>, pos: nat, a: seq<byte>, b: seq<byte>)
    requires At(data, pos, a + b)
    ensures At(data, pos, a) && At(data, pos + |a|, b) && |a + b| == |a| + |b|
  {
    assert data[pos..pos + |a|] == (a + b)[..|a|] == a;
    assert data[pos + |a|..pos + |a| + |b|] == (a + b)[|a|..] == b;
  }

  lemma AtMiddle(before: seq<byte>, bytes: seq<byte>, rest: seq<byte>)
    ensures At(before + bytes + rest, |before|, bytes)
  {
  }

  lemma ReadU32Back(data: seq<byte>, pos: nat, n: u32)
    requires At(data, pos, PutU32(n))
    ensures ReadU32(data, pos) == Some(Got(n, Rewound(pos + 4, data, false)))
  {
    hide PutU32, GetU32;
    GetPutU32(n);
  }

  lemma {:induction false} EncodedIsNotEmpty(less: Order, shape: Shape, v: Value)
    requires Shaped(less, shape, v)
    ensures |Encode(less, shape, v)| > 0
    decreases shape
  {
    if shape.Both? {
      EncodedIsNotEmpty(less, shape.first, v.a);
    }
  }

  // One lemma per shape keeps the definitions out of the induction.

  lemma ReadScalar(less: Order, raw: seq<byte>, data: seq<byte>, pos: nat)
    requires At(data, pos, raw)
    ensures Read(less, Scalar(|raw|), data, pos) == Some(Got(Raw(raw), Rewound(pos + |raw|, data, false)))
  {
  }

  lemma ReadText(less: Order, raw: seq<byte>, data: seq<byte>, pos: nat)
    requires |raw| < 0x1_0000_0000 && At(data, pos, PutU32(|raw|) + raw)
    ensures Read(less, Text, data, pos) == Some(Got(Raw(raw), Rewound(pos + 4 + |raw|, data, raw != [])))
  {
    hide ReadU32, PutU32;
    AtParts(data, pos, PutU32(|raw|), raw);
    ReadU32Back(data, pos, |raw|);
  }

  lemma ReadBoth(less: Order, first: Shape, second: Shape, data: seq<byte>, pos: nat, a: Got<Value>, b: Got<Value>)
    requires pos <= |data| && Read(less, first, data, pos) == Some(a)
    requires Read(less, second, data, a.pos) == Some(b)
    ensures Read(less, Both(first, second), data, pos) == Some(Got(Tuple(a.value, b.value), b.pos))
  {
  }

  lemma ReadMany(less: Order, elem: Shape, kind: Kind, data: seq<byte>, pos: nat, n: Got<u32>, g: Got<seq<Value>>)
    requires pos <= |data| && ReadU32(data, pos) == Some(n)
    requires ReadAll(less, elem, kind, n.value, data, n.pos, []) == Some(g)
    ensures Read(less, Many(elem, kind), data, pos) == Some(Got(Container(g.value), g.pos))
  {
  }

  lemma ReadMore(less: Order, elem: Shape, kind: Kind, n: nat, data: seq<byte>, pos: nat, items: seq<Value>, x: Got<Value>)
    requires pos <= |data| && Read(less, elem, data, pos) == Some(x)
    ensures ReadAll(less, elem, kind, n + 1, data, pos, items) == ReadAll(less, elem, kind, n, data, x.pos, Added(less, kind, items, x.value))
  {
  }

  lemma ReadNoMore(less: Order, elem: Shape, kind: Kind, data: seq<byte>, pos: nat, items: seq<Value>)
    requires pos <= |data|
    ensures ReadAll(less, elem, kind, 0, data, pos, items) == Some(Got(items, pos))
  {
  }

  lemma {:induction false} ReadAt(less: Order, shape: Shape, v: Value, data: seq<byte>, pos: nat)
    requires Shaped(less, shape, v) && At(data, pos, Encode(less, shape, v))
    ensures pos <= |data| && Read(less, shape, data, pos) ==
      Some(Got(v, Rewound(pos + |Encode(less, shape, v)|, data, EndsInText(shape, v))))
    decreases shape, 0, 0
  {
    hide Read, ReadAll, ReadU32, PutU32, At;
    AtFits(data, pos, Encode(less, shape, v));
    match shape
    case Scalar(width) => ReadScalar(less, v.bytes, data, pos);
    case Text => ReadText(less, v.bytes, data, pos);
    case Both(first, second) =>
      var a, b := Encode(less, first, v.a), Encode(less, second, v.b);
      AtParts(data, pos, a, b);
      AtFits(data, pos + |a|, b);
      EncodedIsNotEmpty(less, second, v.b);
      ReadAt(less, first, v.a, data, pos);
      ReadAt(less, second, v.b, data, pos + |a|);
      ReadBoth(less, first, second, data, pos, Got(v.a, pos + |a|), Read(less, second, data, pos + |a|).value);
    case Many(elem, kind) => ReadManyAt(less, elem, kind, v.items, data, pos);
  }

  lemma ReadEmpty(less: Order, elem: Shape, kind: Kind, data: seq<byte>, pos: nat)
    requires pos <= |data| && pos + 4 <= |data| && ReadU32(data, pos) == Some(Got(0, Rewound(pos + 4, data, false)))
    ensures Read(less, Many(elem, kind), data, pos) == Some(Got(Container([]), Rewound(pos + 4, data, false)))
  {
    hide ReadU32;
  }

  lemma NothingToEncode(less: Order, elem: Shape)
    ensures EncodeAll(less, elem, []) == []
  {
  }

  lemma EncodeFirst(less: Order, elem: Shape, items: seq<Value>)
    requires items != [] && forall i :: 0 <= i < |items| ==> Shaped(less, elem, items[i])
    ensures EncodeAll(less, elem, items) == Encode(less, elem, items[0]) + EncodeAll(less, elem, items[1..])
  {
  }

  lemma AllEncodedIsNotEmpty(less: Order, elem: Shape, items: seq<Value>)
    requires items != [] && forall i :: 0 <= i < |items| ==> Shaped(less, elem, items[i])
    ensures |EncodeAll(less, elem, items)| > 0
  {
    EncodedIsNotEmpty(less, elem, items[0]);
  }

  lemma {:induction false} ReadManyAt(less: Order, elem: Shape, kind: Kind, items: seq<Value>, data: seq<byte>, pos: nat)
    requires Shaped(less, Many(elem, kind), Container(items))
    requires At(data, pos, PutU32(|items|) + EncodeAll(less, elem, items))
    ensures pos <= |data| && Read(less, Many(elem, kind), data, pos) ==
      Some(Got(Container(items), Rewound(pos + 4 + |EncodeAll(less, elem, items)|, data, EndsInText(Many(elem, kind), Container(items)))))
    decreases elem, 2, 0
  {
    hide Read, ReadAll, ReadU32, PutU32, At, Encode, EncodeAll, Increasing;
    var all := EncodeAll(less, elem, items);
    AtFits(data, pos, PutU32(|items|) + all);
    AtParts(data, pos, PutU32(|items|), all);
    ReadU32Back(data, pos, |items|);
    NothingToEncode(less, elem);
    if items == [] {
      ReadEmpty(less, elem, kind, data, pos);
    } else {
      AllEncodedIsNotEmpty(less, elem, items);
      assert [] + items == items;
      ReadAllAt(less, elem, kind, [], items, data, pos + 4);
      ReadMany(less, elem, kind, data, pos, Got(|items|, pos + 4), ReadAll(less, elem, kind, |items|, data, pos + 4, []).value);
    }
  }

  lemma AtFits(data: seq<byte>, pos: nat, bytes: seq<byte>)
    requires At(data, pos, bytes)
    ensures pos + |bytes| <= |data|
  {
  }

  lemma {:induction false} ReadAllAt(less: Order, elem: Shape, kind: Kind, done: seq<Value>, items: seq<Value>, data: seq<byte>, pos: nat)
    requires items != [] && forall i :: 0 <= i < |items| ==> Shaped(less, elem, items[i])
    requires kind != InOrder ==> Increasing(less, kind, done + items)
    requires At(data, pos, EncodeAll(less, elem, items))
    ensures pos <= |data| && ReadAll(less, elem, kind, |items|, data, pos, done) ==
      Some(Got(done + items, Rewound(pos + |EncodeAll(less, elem, items)|, data, EndsInText(elem, items[|items| - 1]))))
    decreases elem, 1, |items|
  {
    hide Read, ReadAll, At, Increasing, Added, Encode, EndsInText, EncodeAll;
    var x, more := Encode(less, elem, items[0]), EncodeAll(less, elem, items[1..]);
    EncodeFirst(less, elem, items);
    NothingToEncode(less, elem);
    AtFits(data, pos, x + more);
    AtParts(data, pos, x, more);
    ReadAt(less, elem, items[0], data, pos);
    assert done + items == (done + [items[0]]) + items[1..];
    AddedLast(less, kind, done, items);
    ReadMore(less, elem, kind, |items| - 1, data, pos, done, Read(less, elem, data, pos).value);
    if items[1..] != [] {
      AllEncodedIsNotEmpty(less, elem, items[1..]);
      ReadAllAt(less, elem, kind, done + [items[0]], items[1..], data, pos + |x|);
    } else {
      assert more == [] && items == [items[0]];
      ReadNoMore(less, elem, kind, data, Read(less, elem, data, pos).value.pos, done + [items[0]]);
    }
  }

  /** Reading what was written gives the value, and leaves the position behind it; except that a value
      which is all that is left, and does not end in a string, leaves the position at the beginning. */
  lemma ReadWritten(less: Order, shape: Shape, v: Value, before: seq<byte>, rest: seq<byte>)
    requires Shaped(less, shape, v)
    ensures var data := before + Encode(less, shape, v) + rest;
      Read(less, shape, data, |before|) ==
      Some(Got(v, if rest == [] && !EndsInText(shape, v) then 0 else |before| + |Encode(less, shape, v)|))
  {
    hide Encode, Read, Shaped, EndsInText, At;
    AtMiddle(before, Encode(less, shape, v), rest);
    ReadAt(less, shape, v, before + Encode(less, shape, v) + rest, |before|);
  }

  /** So what follows the value is what is read next exactly when something follows it, or the value ends
      in a string. */
  lemma RestIsLeftIff(less: Order, shape: Shape, v: Value, rest: seq<byte>)
    requires Shaped(less, shape, v)
    ensures var data := Encode(less, shape, v) + rest;
      Read(less, shape, data, 0).Some? &&
      (data[Read(less, shape, data, 0).value.pos..] == rest <==> rest != [] || EndsInText(shape, v))
  {
    hide Encode, Read, Shaped, EndsInText;
    var data := Encode(less, shape, v) + rest;
    assert [] + Encode(less, shape, v) + rest == data;
    ReadWritten(less, shape, v, [], rest);
    EncodedIsNotEmpty(less, shape, v);
    assert data[|Encode(less, shape, v)|..] == rest;
    assert data[0..] == data;
  }

  /** Different values are written differently, and none is the beginning of another. */
  lemma WrittenIsUnique(less: Order, shape: Shape, v: Value, w: Value, more: seq<byte>)
    requires Shaped(less, shape, v) && Shaped(less, shape, w) && Encode(less, shape, w) == Encode(less, shape, v) + more
    ensures v == w
  {
    hide Encode;
    var data := Encode(less, shape, w);
    assert [] + Encode(less, shape, v) + more == data == [] + Encode(less, shape, w) + [];
    ReadWritten(less, shape, v, [], more);
    ReadWritten(less, shape, w, [], []);
  }

  // -------------------------------------------------------------------------------------------
  // A message that was cut short
  // -------------------------------------------------------------------------------------------

  /** After `k` bytes of the value the reader stands between two reads of the buffer, so that a message
      which is cut there looks to it like one that it has read to the end. */
  ghost predicate Between(less: Order, shape: Shape, v: Value, k: nat)
    requires Shaped(less, shape, v)
    decreases shape, 0, 0
  {
    match shape
    case Scalar(_) => false
    case Text => k == 4 && v.bytes != []
    case Both(first, second) =>
      var n := |Encode(less, first, v.a)|;
      if k < n then Between(less, first, v.a, k)
      else if k == n then !EndsInText(first, v.a)
      else Between(less, second, v.b, k - n)
    case Many(elem, _) =>
      if k < 4 then false
      else if k == 4 then v.items != []
      else BetweenAll(less, elem, v.items, k - 4)
  }

  ghost predicate BetweenAll(less: Order, elem: Shape, items: seq<Value>, k: nat)
    requires forall i :: 0 <= i < |items| ==> Shaped(less, elem, items[i])
    decreases elem, 1, |items|
  {
    if items == [] then false
    else
      var n := |Encode(less, elem, items[0])|;
      if k < n then Between(less, elem, items[0], k)
      else if k == n then |items| > 1 && !EndsInText(elem, items[0])
      else BetweenAll(less, elem, items[1..], k - n)
  }

  /** What the reader makes of a message cut after `k` bytes: between two reads it keeps what it has read
      and goes on from the beginning of the buffer; anywhere else it fails. */
  ghost function AfterCut(less: Order, shape: Shape, v: Value, k: nat, data: seq<byte>): (g: Option<Got<Value>>)
    requires Shaped(less, shape, v)
    ensures g.Some? ==> g.value.pos <= |data|
    decreases shape, 0, 0
  {
    match shape
    case Scalar(_) => None
    case Text => if k != 4 || |v.bytes| > |data| then None else Some(Got(Raw(data[..|v.bytes|]), |v.bytes|))
    case Both(first, second) =>
      var n := |Encode(less, first, v.a)|;
      if k < n then
        (match AfterCut(less, first, v.a, k, data)
         case None => None
         case Some(a) => Paired(a.value, Read(less, second, data, a.pos)))
      else if k == n then if EndsInText(first, v.a) then None else Paired(v.a, Read(less, second, data, 0))
      else Paired(v.a, AfterCut(less, second, v.b, k - n, data))
    case Many(elem, kind) =>
      if k < 4 then None
      else if k == 4 then Contained(ReadAll(less, elem, kind, |v.items|, data, 0, []))
      else Contained(AllAfterCut(less, elem, kind, [], v.items, k - 4, data))
  }

  ghost function AllAfterCut(less: Order, elem: Shape, kind: Kind, done: seq<Value>, items: seq<Value>, k: nat,
                             data: seq<byte>): (g: Option<Got<seq<Value>>>)
    requires forall i :: 0 <= i < |items| ==> Shaped(less, elem, items[i])
    ensures g.Some? ==> g.value.pos <= |data|
    decreases elem, 1, |items|
  {
    if items == [] then None
    else
      var n, rest := |Encode(less, elem, items[0])|, |items| - 1;
      if k < n then
        (match AfterCut(less, elem, items[0], k, data)
         case None => None
         case Some(x) => ReadAll(less, elem, kind, rest, data, x.pos, Added(less, kind, done, x.value)))
      else if k == n then
        if EndsInText(elem, items[0]) then None
        else ReadAll(less, elem, kind, rest, data, 0, Added(less, kind, done, items[0]))
      else AllAfterCut(less, elem, kind, Added(less, kind, done, items[0]), items[1..], k - n, data)
  }

  /** A cut that does not fall between two reads makes the reader fail. */
  lemma {:induction false} NothingAfterCut(less: Order, shape: Shape, v: Value, k: nat, data: seq<byte>)
    requires Shaped(less, shape, v) && k < |Encode(less, shape, v)| && !Between(less, shape, v, k)
    ensures AfterCut(less, shape, v, k, data) == None
    decreases shape, 0, 0
  {
    match shape
    case Scalar(_) =>
    case Text =>
    case Both(first, second) =>
      var n := |Encode(less, first, v.a)|;
      if k < n {
        NothingAfterCut(less, first, v.a, k, data);
      } else if k > n {
        NothingAfterCut(less, second, v.b, k - n, data);
      }
    case Many(elem, kind) =>
      if k == 4 {
        NothingToEncode(less, elem);
      } else if k > 4 {
        NothingAfterCutAll(less, elem, kind, [], v.items, k - 4, data);
      }
  }

  lemma {:induction false} NothingAfterCutAll(less: Order, elem: Shape, kind: Kind, done: seq<Value>, items: seq<Value>,
                                              k: nat, data: seq<byte>)
    requires forall i :: 0 <= i < |items| ==> Shaped(less, elem, items[i])
    requires k < |EncodeAll(less, elem, items)| && !BetweenAll(less, elem, items, k)
    ensures AllAfterCut(less, elem, kind, done, items, k, data) == None
    decreases elem, 1, |items|
  {
    hide Encode, EndsInText, Added;
    var n := |Encode(less, elem, items[0])|;
    if k < n {
      NothingAfterCut(less, elem, items[0], k, data);
    } else if k > n {
      NothingAfterCutAll(less, elem, kind, Added(less, kind, done, items[0]), items[1..], k - n, data);
    } else {
      NothingToEncode(less, elem);
      assert |items| > 1;
    }
  }

  function Paired(a: Value, b: Option<Got<Value>>): Option<Got<Value>> {
    match b case None => None case Some(g) => Some(Got(Tuple(a, g.value), g.pos))
  }

  function Contained(items: Option<Got<seq<Value>>>): Option<Got<Value>> {
    match items case None => None case Some(g) => Some(Got(Container(g.value), g.pos))
  }

  /** The data end with a beginning of these bytes, which starts at this position. */
  predicate CutAt(data: seq<byte>, pos: nat, bytes: seq<byte>) {
    pos <= |data| < pos + |bytes| && data[pos..] == bytes[..|data| - pos]
  }

  /** A cut lies in the first part, at its end, or in the second part. */
  lemma CutParts(data: seq<byte>, pos: nat, a: seq<byte>, b: seq<byte>)
    requires CutAt(data, pos, a + b)
    ensures |data| - pos < |a| ==> CutAt(data, pos, a)
    ensures |data| - pos >= |a| ==> At(data, pos, a)
    ensures |data| - pos > |a| ==> CutAt(data, pos + |a|, b)
    ensures |data| - pos == |a| ==> b != []
  {
    var k := |data| - pos;
    if k < |a| {
      assert (a + b)[..k] == a[..k];
    } else {
      assert data[pos..pos + |a|] == data[pos..][..|a|] == (a + b)[..k][..|a|] == a;
      if k > |a| {
        assert data[pos + |a|..] == data[pos..][|a|..] == (a + b)[..k][|a|..] == b[..k - |a|];
      }
    }
  }

  lemma CutFits(data: seq<byte>, pos: nat, bytes: seq<byte>)
    requires CutAt(data, pos, bytes)
    ensures pos <= |data| < pos + |bytes|
  {
  }

  lemma ReadCutU32(data: seq<byte>, pos: nat, n: u32)
    requires CutAt(data, pos, PutU32(n))
    ensures ReadU32(data, pos) == None
  {
  }

  lemma ReadBothIs(less: Order, first: Shape, second: Shape, data: seq<byte>, pos: nat)
    requires pos <= |data|
    ensures Read(less, Both(first, second), data, pos) ==
      match Read(less, first, data, pos)
      case None => None
      case Some(a) => Paired(a.value, Read(less, second, data, a.pos))
  {
  }

  lemma ReadManyIs(less: Order, elem: Shape, kind: Kind, data: seq<byte>, pos: nat)
    requires pos <= |data|
    ensures Read(less, Many(elem, kind), data, pos) ==
      match ReadU32(data, pos)
      case None => None
      case Some(n) => Contained(ReadAll(less, elem, kind, n.value, data, n.pos, []))
  {
  }

  lemma ReadCutText(less: Order, raw: seq<byte>, data: seq<byte>, pos: nat)
    requires |raw| < 0x1_0000_0000 && CutAt(data, pos, PutU32(|raw|) + raw)
    ensures Read(less, Text, data, pos) ==
      if |data| - pos != 4 || |raw| > |data| then None else Some(Got(Raw(data[..|raw|]), |raw|))
  {
    hide ReadU32, PutU32;
    CutParts(data, pos, PutU32(|raw|), raw);
    if |data| - pos < 4 {
      ReadCutU32(data, pos, |raw|);
    } else {
      ReadU32Back(data, pos, |raw|);
    }
  }

  /** Nothing is read at the end of the data. */
  lemma {:induction false} ReadAtEnd(less: Order, shape: Shape, v: Value, data: seq<byte>)
    requires Shaped(less, shape, v)
    ensures Read(less, shape, data, |data|) == None
    decreases shape
  {
    if shape.Both? {
      ReadAtEnd(less, shape.first, v.a, data);
    }
  }

  /** For every shape, value and place of the cut: what reading gives. */
  lemma {:induction false} ReadCut(less: Order, shape: Shape, v: Value, data: seq<byte>, pos: nat)
    requires Shaped(less, shape, v) && CutAt(data, pos, Encode(less, shape, v))
    ensures pos <= |data| && Read(less, shape, data, pos) ==
      AfterCut(less, shape, v, |data| - pos, data)
    decreases shape, 1, 0
  {
    CutFits(data, pos, Encode(less, shape, v));
    match shape
    case Scalar(_) =>
    case Text => ReadCutText(less, v.bytes, data, pos);
    case Both(first, second) => ReadCutBoth(less, first, second, v, data, pos);
    case Many(elem, kind) => ReadCutMany(less, elem, kind, v.items, data, pos);
  }

  lemma {:induction false} ReadCutBoth(less: Order, first: Shape, second: Shape, v: Value, data: seq<byte>, pos: nat)
    requires Shaped(less, Both(first, second), v)
    requires CutAt(data, pos, Encode(less, first, v.a) + Encode(less, second, v.b))
    ensures pos <= |data| && Read(less, Both(first, second), data, pos) ==
      AfterCut(less, Both(first, second), v, |data| - pos, data)
    decreases Both(first, second), 0, 0
  {
    hide Read, ReadAll, At, CutAt, EndsInText, Encode;
    var a, b := Encode(less, first, v.a), Encode(less, second, v.b);
    CutFits(data, pos, a + b);
    CutParts(data, pos, a, b);
    ReadBothIs(less, first, second, data, pos);
    if |data| - pos < |a| {
      ReadCut(less, first, v.a, data, pos);
    } else {
      ReadAt(less, first, v.a, data, pos);
      if |data| - pos > |a| {
        ReadCut(less, second, v.b, data, pos + |a|);
      } else if EndsInText(first, v.a) {
        ReadAtEnd(less, second, v.b, data);
      }
    }
  }

  lemma {:induction false} ReadCutMany(less: Order, elem: Shape, kind: Kind, items: seq<Value>, data: seq<byte>, pos: nat)
    requires Shaped(less, Many(elem, kind), Container(items))
    requires CutAt(data, pos, PutU32(|items|) + EncodeAll(less, elem, items))
    ensures pos <= |data| && Read(less, Many(elem, kind), data, pos) ==
      AfterCut(less, Many(elem, kind), Container(items), |data| - pos, data)
    decreases elem, 2, 0
  {
    hide Read, ReadAll, ReadU32, PutU32, At, CutAt, Encode, EncodeAll, Increasing, Contained, AllAfterCut;
    var all := EncodeAll(less, elem, items);
    CutFits(data, pos, PutU32(|items|) + all);
    CutParts(data, pos, PutU32(|items|), all);
    ReadManyIs(less, elem, kind, data, pos);
    if |data| - pos < 4 {
      ReadCutU32(data, pos, |items|);
    } else {
      NothingToEncode(less, elem);
      ReadU32Back(data, pos, |items|);
      if |data| - pos > 4 {
        ReadCutAll(less, elem, kind, [], items, data, pos + 4);
      }
    }
  }

  lemma {:induction false} ReadCutAll(less: Order, elem: Shape, kind: Kind, done: seq<Value>, items: seq<Value>,
                                      data: seq<byte>, pos: nat)
    requires forall i :: 0 <= i < |items| ==> Shaped(less, elem, items[i])
    requires CutAt(data, pos, EncodeAll(less, elem, items))
    ensures pos <= |data| && ReadAll(less, elem, kind, |items|, data, pos, done) ==
      AllAfterCut(less, elem, kind, done, items, |data| - pos, data)
    decreases elem, 1, |items|
  {
    hide Read, ReadAll, At, CutAt, Encode, Added, EndsInText, AfterCut, EncodeAll;
    CutFits(data, pos, EncodeAll(less, elem, items));
    NothingToEncode(less, elem);
    EncodeFirst(less, elem, items);
    var x, more := Encode(less, elem, items[0]), EncodeAll(less, elem, items[1..]);
    CutParts(data, pos, x, more);
    ReadMoreIs(less, elem, kind, |items| - 1, data, pos, done);
    var k := |data| - pos;
    if k < |x| {
      ReadCut(less, elem, items[0], data, pos);
    } else {
      ReadAt(less, elem, items[0], data, pos);
      if k > |x| {
        ReadCutAll(less, elem, kind, Added(less, kind, done, items[0]), items[1..], data, pos + |x|);
      } else {
        NothingToEncode(less, elem);
        assert |items| > 1;
        if EndsInText(elem, items[0]) {
          ReadAtEnd(less, elem, items[1], data);
          ReadMoreIs(less, elem, kind, |items| - 2, data, |data|, Added(less, kind, done, items[0]));
        }
      }
    }
  }

  lemma ReadMoreIs(less: Order, elem: Shape, kind: Kind, n: nat, data: seq<byte>, pos: nat, items: seq<Value>)
    requires pos <= |data|
    ensures ReadAll(less, elem, kind, n + 1, data, pos, items) ==
      match Read(less, elem, data, pos)
      case None => None
      case Some(x) => ReadAll(less, elem, kind, n, data, x.pos, Added(less, kind, items, x.value))
  {
  }

  /** Every message cut short, whatever comes before it in the buffer: the reader fails unless the cut falls
      between two reads; there it goes on as AfterCut says. */
  lemma CutMessage(less: Order, shape: Shape, v: Value, before: seq<byte>, k: nat)
    requires Shaped(less, shape, v) && k < |Encode(less, shape, v)|
    ensures var data := before + Encode(less, shape, v)[..k];
      Read(less, shape, data, |before|) == AfterCut(less, shape, v, k, data)
    ensures var data := before + Encode(less, shape, v)[..k];
      !Between(less, shape, v, k) ==> Read(less, shape, data, |before|) == None
  {
    hide Encode, Read, AfterCut, Between;
    var all := Encode(less, shape, v);
    var data := before + all[..k];
    CutOff(before, all, k);
    ReadCut(less, shape, v, data, |before|);
    if !Between(less, shape, v, k) {
      NothingAfterCut(less, shape, v, k, data);
    }
  }

  lemma CutOff(before: seq<byte>, bytes: seq<byte>, k: nat)
    requires k < |bytes|
    ensures CutAt(before + bytes[..k], |before|, bytes)
  {
    assert (before + bytes[..k])[|before|..] == bytes[..k];
  }

  /** A header and nothing else, where a header and a number are expected: the header is accepted, and the
      number is read from the bytes of the header. */
  lemma CutAfterHeader(less: Order, head: Value)
    requires Shaped(less, HEADER, head)
    ensures var data := Encode(less, HEADER, head);
      |data| == 10 && Read(less, HEADER, data, 0) == Some(Got(head, 0)) &&
      Read(less, Both(HEADER, Scalar(4)), data, 0) == Some(Got(Tuple(head, Raw(data[..4])), 4))
  {
    var data := Encode(less, HEADER, head);
    HeaderSize(less, head);
    hide Encode, Shaped, EndsInText;
    assert [] + data + [] == data;
    ReadWritten(less, HEADER, head, [], []);
    ReadBothIs(less, HEADER, Scalar(4), data, 0);
  }

  lemma HeaderSize(less: Order, head: Value)
    requires Shaped(less, HEADER, head)
    ensures |Encode(less, HEADER, head)| == 10 && !EndsInText(HEADER, head)
  {
    assert head.b.Tuple?;
    assert |Encode(less, HEADER.second, head.b)| == 8;
  }

  lemma AddedLast(less: Order, kind: Kind, done: seq<Value>, items: seq<Value>)
    requires items != [] && (kind != InOrder ==> Increasing(less, kind, done + items))
    ensures Added(less, kind, done, items[0]) == done + [items[0]]
  {
    if kind != InOrder {
      var some := done + [items[0]];
      assert forall i :: 0 <= i < |some| ==> some[i] == (done + items)[i];
      InsertLast(less, kind, done, items[0]);
    }
  }

  // -------------------------------------------------------------------------------------------
  // The objects
  // -------------------------------------------------------------------------------------------

  /** PacketSn on its thread_send_buffer. The last byte of the buffer is never used. */
  class PacketSn {
    const buffer: array<byte>
    var pos: nat

    ghost predicate Valid()
      reads this
    {
      pos < buffer.Length
    }

    ghost function Written(): (w: seq<byte>)
      requires Valid()
      reads this, buffer
      ensures |w| < buffer.Length
    {
      buffer[..pos]
    }

    constructor (max: nat)
      requires 0 < max
      ensures Valid() && fresh(buffer) && Written() == [] && buffer.Length == max
    {
      buffer := new byte[max];
      pos := 0;
    }

    /** `write`; false stands for the exception. */
    method AddBuf(item: seq<byte>) returns (ok: bool)
      requires Valid()
      modifies this, buffer
      ensures Valid() && ok == (|old(Written())| + |item| < buffer.Length)
      ensures Written() == if ok then old(Written()) + item else old(Written())
    {
      if pos + |item| >= buffer.Length {
        return false;
      }
      forall k | 0 <= k < |item| {
        buffer[pos + k] := item[k];
      }
      pos := pos + |item|;
      return true;
    }

    /** `operator <<`: all of the value is written, or there is no room for it. */
    method Put(ghost less: Order, shape: Shape, v: Value) returns (ok: bool)
      requires Valid() && Shaped(less, shape, v)
      modifies this, buffer
      ensures Valid() && ok == (|old(Written())| + |Encode(less, shape, v)| < buffer.Length)
      ensures ok ==> Written() == old(Written()) + Encode(less, shape, v)
      ensures |old(Written())| <= |Written()|
      decreases shape, 0
    {
      hide PutU32, Increasing, Written, EncodeAll;
      match shape
      case Scalar(_) => ok := AddBuf(v.bytes);
      case Text => ok := PutText(v.bytes);
      case Both(first, second) =>
        ok := Put(less, first, v.a);
        if ok {
          ok := Put(less, second, v.b);
        }
      case Many(elem, kind) => ok := PutMany(less, elem, v.items);
    }

    method PutText(text: seq<byte>) returns (ok: bool)
      requires Valid() && |text| < 0x1_0000_0000
      modifies this, buffer
      ensures Valid() && ok == (|old(Written())| + 4 + |text| < buffer.Length)
      ensures ok ==> Written() == old(Written()) + (PutU32(|text|) + text)
      ensures |old(Written())| <= |Written()|
    {
      hide PutU32, Written;
      ok := AddBuf(PutU32(|text|));
      if ok {
        ok := AddBuf(text);
      }
    }

    method PutMany(ghost less: Order, elem: Shape, items: seq<Value>) returns (ok: bool)
      requires Valid() && |items| < 0x1_0000_0000 && forall i :: 0 <= i < |items| ==> Shaped(less, elem, items[i])
      modifies this, buffer
      ensures Valid() && ok == (|old(Written())| + 4 + |EncodeAll(less, elem, items)| < buffer.Length)
      ensures ok ==> Written() == old(Written()) + (PutU32(|items|) + EncodeAll(less, elem, items))
      ensures |old(Written())| <= |Written()|
      decreases elem, 2
    {
      hide PutU32, Written, Shaped, EncodeAll;
      ok := AddBuf(PutU32(|items|));
      if ok {
        ok := PutAll(less, elem, items);
      }
    }

    method PutAll(ghost less: Order, elem: Shape, items: seq<Value>) returns (ok: bool)
      requires Valid() && forall i :: 0 <= i < |items| ==> Shaped(less, elem, items[i])
      modifies this, buffer
      ensures Valid() && ok == (|old(Written())| + |EncodeAll(less, elem, items)| < buffer.Length)
      ensures ok ==> Written() == old(Written()) + EncodeAll(less, elem, items)
      ensures |old(Written())| <= |Written()|
      decreases elem, 1
    {
      hide Encode, Shaped, Written, EncodeAll;
      ghost var all := EncodeAll(less, elem, items);
      NothingToEncode(less, elem);
      for i := 0 to |items|
        invariant Valid() && Written() == old(Written()) + EncodeAll(less, elem, items[..i])
      {
        EncodeSplit(less, elem, items, i);
        ok := Put(less, elem, items[i]);
        if !ok {
          return;
        }
      }
      assert items[..|items|] == items;
      return true;
    }
  }

  lemma {:induction false} EncodeAllConcat(less: Order, elem: Shape, a: seq<Value>, b: seq<Value>)
    requires forall i :: 0 <= i < |a| ==> Shaped(less, elem, a[i])
    requires forall i :: 0 <= i < |b| ==> Shaped(less, elem, b[i])
    ensures EncodeAll(less, elem, a + b) == EncodeAll(less, elem, a) + EncodeAll(less, elem, b)
  {
    hide Encode, Shaped;
    if a == [] {
      assert a + b == b;
    } else {
      assert (a + b)[0] == a[0] && (a + b)[1..] == a[1..] + b;
      EncodeAllConcat(less, elem, a[1..], b);
    }
  }

  lemma EncodeSplit(less: Order, elem: Shape, items: seq<Value>, i: nat)
    requires i < |items| && forall i :: 0 <= i < |items| ==> Shaped(less, elem, items[i])
    ensures EncodeAll(less, elem, items[..i + 1]) == EncodeAll(less, elem, items[..i]) + Encode(less, elem, items[i])
    ensures |EncodeAll(less, elem, items[..i + 1])| <= |EncodeAll(less, elem, items)|
  {
    hide Encode, Shaped;
    var x := [items[i]];
    assert items[..i + 1] == items[..i] + x && items == items[..i + 1] + items[i + 1..];
    EncodeAllConcat(less, elem, items[..i], x);
    EncodeAllConcat(less, elem, items[..i + 1], items[i + 1..]);
    assert EncodeAll(less, elem, x) == Encode(less, elem, items[i]) + EncodeAll(less, elem, x[1..]);
  }

  /** PacketUsn on its thread_recv_buffer. */
  class PacketUsn {
    const data: seq<byte>
    var pos: nat

    constructor (data: seq<byte>)
      ensures pos == 0 && this.data == data
    {
      this.data, pos := data, 0;
    }

    /** What the constructor goes on to do: read the header, and start over. */
    method ReadHead(less: Order) returns (head: Option<Value>)
      requires pos == 0
      modifies this
      ensures match Read(less, HEADER, data, 0)
        case None => head == None
        case Some(g) => head == Some(g.value) && pos == 0
    {
      head := Get(less, HEADER);
      if head != None {
        pos := 0;
      }
    }

    method GetBuf(n: nat) returns (item: Option<seq<byte>>)
      requires pos <= |data|
      modifies this
      ensures pos <= |data|
      ensures match ReadRaw(data, old(pos), n)
        case None => item == None
        case Some(g) => item == Some(g.value) && pos == g.pos
    {
      if pos + n > |data| {
        return None;
      }
      item := Some(data[pos..pos + n]);
      pos := pos + n;
      if pos == |data| {
        pos := 0;
      }
    }

    method GetU32() returns (n: Option<u32>)
      requires pos <= |data|
      modifies this
      ensures pos <= |data|
      ensures match ReadU32(data, old(pos))
        case None => n == None
        case Some(g) => n == Some(g.value) && pos == g.pos
    {
      var item := GetBuf(4);
      n := match item case None => None case Some(b) => Some(Words.GetU32(b));
    }

    /** `operator >>`. */
    method Get(less: Order, shape: Shape) returns (v: Option<Value>)
      requires pos <= |data|
      modifies this
      ensures pos <= |data|
      ensures match Read(less, shape, data, old(pos))
        case None => v == None
        case Some(g) => v == Some(g.value) && pos == g.pos
      decreases shape, 0
    {
      hide Words.GetU32, Added;
      match shape
      case Scalar(width) =>
        var item := GetBuf(width);
        v := match item case None => None case Some(b) => Some(Raw(b));
      case Text =>
        var n := GetU32();
        if n == None || pos + n.value > |data| {
          return None;
        }
        v := Some(Raw(data[pos..pos + n.value]));
        pos := pos + n.value;
      case Both(first, second) =>
        var a := Get(less, first);
        if a == None {
          return None;
        }
        var b := Get(less, second);
        if b == None {
          return None;
        }
        v := Some(Tuple(a.value, b.value));
      case Many(elem, kind) =>
        var n := GetU32();
        if n == None {
          return None;
        }
        var items := GetAll(less, elem, kind, n.value);
        v := match items case None => None case Some(s) => Some(Container(s));
    }

    method GetAll(less: Order, elem: Shape, kind: Kind, n: nat) returns (items: Option<seq<Value>>)
      requires pos <= |data|
      modifies this
      ensures pos <= |data|
      ensures match ReadAll(less, elem, kind, n, data, old(pos), [])
        case None => items == None
        case Some(g) => items == Some(g.value) && pos == g.pos
      decreases elem, 1
    {
      hide Read, Added;
      var prop: seq<Value> := [];
      for i := 0 to n
        invariant pos <= |data|
        invariant ReadAll(less, elem, kind, n, data, old(pos), []) == ReadAll(less, elem, kind, n - i, data, pos, prop)
      {
        var temp := Get(less, elem);
        if temp == None {
          return None;
        }
        prop := Added(less, kind, prop, temp.value);
      }
      return Some(prop);
    }
  }

  lemma SampleCount()
    ensures PutU32(2) == [2, 0, 0, 0]
  {
    hide ByteOf, PutU32;
    SmallBytes();
    PutSmall(2);
  }

  lemma SampleHead(less: Order)
    ensures var head := Tuple(Raw([1, 2]), Tuple(Raw([3, 4, 5, 6]), Raw([7, 8, 9, 10])));
      Shaped(less, HEADER, head) && Encode(less, HEADER, head) == [1, 2, 3, 4, 5, 6, 7, 8, 9, 10]
  {
  }

  lemma SampleText(less: Order)
    ensures Shaped(less, Text, Raw([0x61, 0x62])) && Encode(less, Text, Raw([0x61, 0x62])) == [2, 0, 0, 0, 0x61, 0x62]
  {
    SampleCount();
    hide PutU32;
  }

  lemma SampleList(less: Order)
    ensures var list := Container([Raw([11, 12]), Raw([13, 14])]);
      Shaped(less, Many(Scalar(2), InOrder), list) &&
      Encode(less, Many(Scalar(2), InOrder), list) == [2, 0, 0, 0, 11, 12, 13, 14]
  {
    SampleCount();
    hide PutU32;
    var items := [Raw([11, 12]), Raw([13, 14])];
    assert items[1..] == [items[1]] && items[1..][1..] == [];
    assert EncodeAll(less, Scalar(2), items[1..]) == [13, 14];
    assert EncodeAll(less, Scalar(2), items) == [11, 12, 13, 14];
  }

  lemma EncodeBoth(less: Order, first: Shape, second: Shape, a: Value, b: Value)
    requires Shaped(less, first, a) && Shaped(less, second, b)
    ensures Shaped(less, Both(first, second), Tuple(a, b))
    ensures Encode(less, Both(first, second), Tuple(a, b)) == Encode(less, first, a) + Encode(less, second, b)
  {
  }

  /** A header, a string and a list of two numbers: fields in their order, counts in four bytes before what they
      count. */
  lemma SamplePacket(less: Order)
    ensures
      var shape := Both(HEADER, Both(Text, Many(Scalar(2), InOrder)));
      var head := Tuple(Raw([1, 2]), Tuple(Raw([3, 4, 5, 6]), Raw([7, 8, 9, 10])));
      var v := Tuple(head, Tuple(Raw([0x61, 0x62]), Container([Raw([11, 12]), Raw([13, 14])])));
      Shaped(less, shape, v) &&
      Encode(less, shape, v) ==
        [1, 2, 3, 4, 5, 6, 7, 8, 9, 10, 2, 0, 0, 0, 0x61, 0x62, 2, 0, 0, 0, 11, 12, 13, 14]
  {
    var head := Tuple(Raw([1, 2]), Tuple(Raw([3, 4, 5, 6]), Raw([7, 8, 9, 10])));
    var text, list := Raw([0x61, 0x62]), Container([Raw([11, 12]), Raw([13, 14])]);
    SampleHead(less);
    SampleText(less);
    SampleList(less);
    hide Encode, Shaped;
    EncodeBoth(less, Text, Many(Scalar(2), InOrder), text, list);
    EncodeBoth(less, HEADER, Both(Text, Many(Scalar(2), InOrder)), head, Tuple(text, list));
  }
}
