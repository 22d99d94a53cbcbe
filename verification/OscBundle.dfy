/** OSC bundles: the walk with an explicit stack, against the recursive flattening and against trees of messages. */
module OscBundle {
  import opened Wrappers
  import opened Protocol
  import opened Osc

  const MARK: seq<byte> := [35, 98, 117, 110, 100, 108, 101, 0]

  predicate IsBundle(data: seq<byte>) {
    MARK <= data
  }

  /** Where the elements start: behind the mark and the time tag. */
  const BODY: nat := 16

  function Total(parts: seq<seq<byte>>): nat {
    if parts == [] then 0 else |parts[0]| + Total(parts[1..])
  }

  function Size(rest: seq<byte>): int
    requires |rest| >= 4
  {
    Signed(rest[0], rest[1], rest[2], rest[3])
  }

  /** The elements of a bundle's body in wire order; None for framing that does not hold together. */
  function Elements(rest: seq<byte>): (parts: Option<seq<seq<byte>>>)
    ensures parts.Some? ==> Total(parts.value) + 4 * |parts.value| <= |rest|
    decreases |rest|
  {
    if |rest| < 4 then Some([])
    else
      var size := Size(rest);
      if size <= 0 || size % 4 != 0 || 4 + size > |rest| then None
      else
        match Elements(rest[4 + size..])
        case None => None
        case Some(others) =>
          var parts := [rest[4..4 + size]] + others;
          assert parts[1..] == others;
          Some(parts)
  }

  /** One level of a delivery: the message itself, or its elements. */
  function Opened(data: seq<byte>): (parts: Option<seq<seq<byte>>>)
    requires IsBundle(data)
    ensures parts.Some? ==> Total(parts.value) + 4 * |parts.value| + BODY <= |data|
  {
    if |data| < BODY then None else Elements(data[BODY..])
  }

  // The recursive flattening

  function Flatten(data: seq<byte>): Option<seq<seq<byte>>>
    decreases |data|, 0
  {
    if |data| % 4 != 0 then None
    else if !IsBundle(data) then Some([data])
    else
      match Opened(data)
      case None => None
      case Some(parts) => FlattenAll(parts)
  }

  function FlattenAll(parts: seq<seq<byte>>): Option<seq<seq<byte>>>
    decreases Total(parts), |parts| + 1
  {
    if parts == [] then Some([])
    else
      match Flatten(parts[0])
      case None => None
      case Some(first) =>
        match FlattenAll(parts[1..])
        case None => None
        case Some(others) => Some(first + others)
  }

  lemma {:induction false} FlattenBoth(a: seq<seq<byte>>, b: seq<seq<byte>>)
    ensures FlattenAll(a + b) ==
      if FlattenAll(a).Some? && FlattenAll(b).Some? then Some(FlattenAll(a).value + FlattenAll(b).value) else None
  {
    hide Flatten;
    if a == [] {
      assert [] + b == b;
      if FlattenAll(b).Some? {
        assert [] + FlattenAll(b).value == FlattenAll(b).value;
      }
    } else {
      FlattenBoth(a[1..], b);
      assert (a + b)[1..] == a[1..] + b && (a + b)[0] == a[0];
      if Flatten(a[0]).Some? && FlattenAll(a[1..]).Some? && FlattenAll(b).Some? {
        var x, y, z := Flatten(a[0]).value, FlattenAll(a[1..]).value, FlattenAll(b).value;
        assert x + (y + z) == (x + y) + z;
      }
    }
  }

  lemma FlattenOne(data: seq<byte>)
    ensures FlattenAll([data]) == Flatten(data)
  {
    hide Flatten;
    assert [data][1..] == [];
    assert FlattenAll([]) == Some([]);
    if Flatten(data).Some? {
      assert Flatten(data).value + [] == Flatten(data).value;
    }
  }

  // The walk

  function Reversed(parts: seq<seq<byte>>): (r: seq<seq<byte>>)
    ensures |r| == |parts| && forall k :: 0 <= k < |parts| ==> r[k] == parts[|parts| - 1 - k]
  {
    seq(|parts|, k requires 0 <= k < |parts| => parts[|parts| - 1 - k])
  }

  lemma {:induction false} TotalBoth(a: seq<seq<byte>>, b: seq<seq<byte>>)
    ensures Total(a + b) == Total(a) + Total(b)
  {
    if a == [] {
      assert [] + b == b;
    } else {
      TotalBoth(a[1..], b);
      assert (a + b)[1..] == a[1..] + b;
    }
  }

  lemma {:induction false} TotalReversed(parts: seq<seq<byte>>)
    ensures Total(Reversed(parts)) == Total(parts)
  {
    if parts != [] {
      TotalReversed(parts[1..]);
      TotalBoth(Reversed(parts[1..]), [parts[0]]);
      assert Reversed(parts) == Reversed(parts[1..]) + [parts[0]];
      assert [parts[0]][1..] == [];
    }
  }

  /** The element at an offset, and what the rest of the body then amounts to. */
  lemma ElementsAt(current: seq<byte>, offset: nat)
    requires offset <= |current|
    ensures offset + 4 > |current| ==> Elements(current[offset..]) == Some([])
    ensures offset + 4 <= |current| ==>
      var size := Signed(current[offset], current[offset + 1], current[offset + 2], current[offset + 3]);
      if size <= 0 || size % 4 != 0 || offset + 4 + size > |current| then Elements(current[offset..]).None?
      else Elements(current[offset..]) == Joined([current[offset + 4..offset + 4 + size]], Elements(current[offset + 4 + size..]))
  {
    hide Signed;
    var left := current[offset..];
    if offset + 4 <= |current| {
      var size := Signed(current[offset], current[offset + 1], current[offset + 2], current[offset + 3]);
      assert Size(left) == size;
      if 0 < size && offset + 4 + size <= |current| {
        assert left[4 + size..] == current[offset + 4 + size..];
        assert left[4..4 + size] == current[offset + 4..offset + 4 + size];
      }
    }
  }

  /** The elements of a bundle's body, read in a loop. */
  method ReadElements(current: seq<byte>) returns (elements: Option<seq<seq<byte>>>)
    requires |current| >= BODY
    ensures elements == Elements(current[BODY..])
  {
    hide Elements, Signed, Joined;
    var offset: nat := BODY;
    var parts: seq<seq<byte>> := [];
    NothingYet(Elements(current[BODY..]));
    while offset + 4 <= |current|
      invariant BODY <= offset <= |current|
      invariant Elements(current[BODY..]) == Joined(parts, Elements(current[offset..]))
    {
      ElementsAt(current, offset);
      var size := Signed(current[offset], current[offset + 1], current[offset + 2], current[offset + 3]);
      offset := offset + 4;
      if size <= 0 || size % 4 != 0 || offset + size > |current| {
        JoinedNone(parts);
        return None;
      }
      var part := current[offset..offset + size];
      offset := offset + size;
      JoinedThen(parts, [part], Elements(current[offset..]));
      parts := parts + [part];
    }
    ElementsAt(current, offset);
    JoinedAll(parts);
    elements := Some(parts);
  }

  lemma JoinedNone(done: seq<seq<byte>>)
    ensures Joined(done, None) == None
  {
  }

  lemma JoinedAll(done: seq<seq<byte>>)
    ensures Joined(done, Some([])) == Some(done)
  {
    assert done + [] == done;
  }

  /** The messages of a delivery in wire order, at any depth of nesting; nothing where its framing does not hold. */
  method IterOscMessages(datagram: seq<byte>) returns (messages: Option<seq<seq<byte>>>)
    ensures messages == Flatten(datagram)
  {
    hide Flatten, FlattenAll, Opened;
    var pending := [datagram];
    var yielded: seq<seq<byte>> := [];
    FlattenOne(datagram);
    assert Reversed([datagram]) == [datagram];
    NothingYet(Flatten(datagram));
    while pending != []
      invariant Flatten(datagram) == Joined(yielded, FlattenAll(Reversed(pending)))
      decreases Total(pending) + |pending|
    {
      var current := pending[|pending| - 1];
      var below := pending[..|pending| - 1];
      Popped(pending);
      pending := below;
      if |current| % 4 != 0 {
        FlattenUnaligned(current);
        return None;
      }
      if !IsBundle(current) {
        FlattenLeaf(current);
        JoinedThen(yielded, [current], FlattenAll(Reversed(below)));
        yielded := yielded + [current];
      } else {
        FlattenBundle(current);
        if |current| < BODY {
          return None;
        }
        var elements := ReadElements(current);
        if elements.None? {
          return None;
        }
        Pushed(below, elements.value);
        pending := below + Reversed(elements.value);
      }
    }
    FlattenNothing(pending);
    JoinedAll(yielded);
    messages := Some(yielded);
  }

  function Joined(done: seq<seq<byte>>, others: Option<seq<seq<byte>>>): Option<seq<seq<byte>>> {
    if others.None? then None else Some(done + others.value)
  }

  lemma NothingYet(all: Option<seq<seq<byte>>>)
    ensures Joined([], all) == all
  {
    if all.Some? {
      assert [] + all.value == all.value;
    }
  }

  lemma JoinedThen(done: seq<seq<byte>>, more: seq<seq<byte>>, others: Option<seq<seq<byte>>>)
    ensures Joined(done, Joined(more, others)) == Joined(done + more, others)
  {
    if others.Some? {
      assert done + (more + others.value) == done + more + others.value;
    }
  }

  lemma FlattenUnaligned(data: seq<byte>)
    ensures |data| % 4 != 0 ==> Flatten(data).None?
  {
  }

  lemma FlattenLeaf(data: seq<byte>)
    ensures |data| % 4 == 0 && !IsBundle(data) ==> Flatten(data) == Some([data])
  {
  }

  lemma FlattenBundle(data: seq<byte>)
    requires |data| % 4 == 0 && IsBundle(data)
    ensures |data| < BODY ==> Flatten(data).None?
    ensures |data| >= BODY && Elements(data[BODY..]).None? ==> Flatten(data).None?
    ensures |data| >= BODY && Elements(data[BODY..]).Some? ==>
      Flatten(data) == FlattenAll(Elements(data[BODY..]).value)
      && Total(Elements(data[BODY..]).value) + |Elements(data[BODY..]).value| < |data|
  {
  }

  lemma FlattenNothing(pending: seq<seq<byte>>)
    ensures pending == [] ==> FlattenAll(Reversed(pending)) == Some([])
  {
  }

  /** The top of the stack comes first. */
  lemma Popped(pending: seq<seq<byte>>)
    requires pending != []
    ensures var current, below := pending[|pending| - 1], pending[..|pending| - 1];
      && Total(pending) == |current| + Total(below)
      && FlattenAll(Reversed(pending)) ==
         (if Flatten(current).Some? then Joined(Flatten(current).value, FlattenAll(Reversed(below))) else None)
  {
    hide Flatten;
    var current, below := pending[|pending| - 1], pending[..|pending| - 1];
    assert pending == below + [current];
    TotalBoth(below, [current]);
    assert [current][1..] == [];
    assert Reversed(pending) == [current] + Reversed(below);
    FlattenBoth([current], Reversed(below));
    FlattenOne(current);
  }

  /** Pushed in reverse, the elements come off in wire order before everything below. */
  lemma Pushed(below: seq<seq<byte>>, elements: seq<seq<byte>>)
    ensures var pending := below + Reversed(elements);
      && Total(pending) == Total(below) + Total(elements)
      && FlattenAll(Reversed(pending)) ==
         (if FlattenAll(elements).Some? then Joined(FlattenAll(elements).value, FlattenAll(Reversed(below))) else None)
  {
    hide Flatten, FlattenAll;
    TotalBoth(below, Reversed(elements));
    TotalReversed(elements);
    assert Reversed(below + Reversed(elements)) == elements + Reversed(below);
    FlattenBoth(elements, Reversed(below));
  }

  // Deliveries

  function DecodeAll(raws: seq<seq<byte>>): Option<seq<Message>> {
    if raws == [] then Some([])
    else
      match Decode(raws[0])
      case None => None
      case Some(m) =>
        match DecodeAll(raws[1..])
        case None => None
        case Some(others) => Some([m] + others)
  }

  function Delivered(data: seq<byte>): Option<seq<Message>> {
    match Flatten(data)
    case None => None
    case Some(raws) => DecodeAll(raws)
  }

  /** Every message of a delivery, or none of them. */
  method DecodeDelivery(data: seq<byte>) returns (messages: Option<seq<Message>>)
    ensures messages == Delivered(data)
  {
    hide Decode, Flatten, DecodeAll;
    var raws := IterOscMessages(data);
    if raws.None? {
      return None;
    }
    var decoded: seq<Message> := [];
    DecodedSoFarFirst(raws.value);
    for i := 0 to |raws.value|
      invariant DecodedSoFar(raws.value, decoded, i)
    {
      DecodedSoFarNext(raws.value, decoded, i);
      var m := DecodeOsc(raws.value[i]);
      if m.None? {
        return None;
      }
      decoded := decoded + [m.value];
    }
    DecodedSoFarLast(raws.value, decoded);
    messages := Some(decoded);
  }

  ghost predicate DecodedSoFar(raws: seq<seq<byte>>, decoded: seq<Message>, n: nat)
    requires n <= |raws|
  {
    match DecodeAll(raws[n..])
    case None => DecodeAll(raws).None?
    case Some(others) => DecodeAll(raws) == Some(decoded + others)
  }

  lemma DecodedSoFarFirst(raws: seq<seq<byte>>)
    ensures DecodedSoFar(raws, [], 0)
  {
    hide Decode;
    assert raws[0..] == raws;
    if DecodeAll(raws).Some? {
      assert [] + DecodeAll(raws).value == DecodeAll(raws).value;
    }
  }

  lemma DecodedSoFarNext(raws: seq<seq<byte>>, decoded: seq<Message>, n: nat)
    requires n < |raws| && DecodedSoFar(raws, decoded, n)
    ensures Decode(raws[n]).None? ==> DecodeAll(raws).None?
    ensures Decode(raws[n]).Some? ==> DecodedSoFar(raws, decoded + [Decode(raws[n]).value], n + 1)
  {
    hide Decode;
    assert raws[n..][0] == raws[n] && raws[n..][1..] == raws[n + 1..];
    if Decode(raws[n]).Some? && DecodeAll(raws[n + 1..]).Some? {
      var m, others := Decode(raws[n]).value, DecodeAll(raws[n + 1..]).value;
      assert decoded + ([m] + others) == decoded + [m] + others;
    }
  }

  lemma DecodedSoFarLast(raws: seq<seq<byte>>, decoded: seq<Message>)
    requires DecodedSoFar(raws, decoded, |raws|)
    ensures DecodeAll(raws) == Some(decoded)
  {
    hide Decode;
    assert raws[|raws|..] == [];
    assert decoded + [] == decoded;
  }

  /** A delivery is decoded message by message in wire order, and as soon as one part fails there is nothing. */
  lemma {:induction false} AllOrNone(raws: seq<seq<byte>>)
    ensures DecodeAll(raws).Some? <==> forall k :: 0 <= k < |raws| ==> Decode(raws[k]).Some?
    ensures DecodeAll(raws).Some? ==>
      |DecodeAll(raws).value| == |raws| && forall k :: 0 <= k < |raws| ==> Decode(raws[k]) == Some(DecodeAll(raws).value[k])
  {
    hide Decode;
    if raws != [] {
      AllOrNone(raws[1..]);
      assert forall k :: 1 <= k < |raws| ==> raws[k] == raws[1..][k - 1];
    }
  }

  // Trees of messages

  /** What a sender means: a message, or a bundle of such, however deep. */
  datatype Tree = Leaf(message: Message) | Bundle(tag: seq<byte>, elements: seq<Tree>)

  /** A tree that fits the wire: plain messages not called #bundle, eight-byte time tags, elements an int32 can measure. */
  predicate Fits(t: Tree)
    decreases t, 0
  {
    match t
    case Leaf(m) => Plain(m) && m.path != "#bundle"
    case Bundle(tag, elements) => |tag| == 8 && AllFit(elements)
  }

  predicate AllFit(ts: seq<Tree>)
    decreases ts, 0
  {
    ts == [] || (Fits(ts[0]) && |Wire(ts[0])| < INT_LIMIT && AllFit(ts[1..]))
  }

  function Wire(t: Tree): seq<byte>
    requires Fits(t)
    decreases t, 1
  {
    match t
    case Leaf(m) => Encode(m)
    case Bundle(tag, elements) => MARK + tag + Framed(elements)
  }

  function Framed(ts: seq<Tree>): seq<byte>
    requires AllFit(ts)
    decreases ts, 1
  {
    if ts == [] then [] else IntBytes(|Wire(ts[0])|) + Wire(ts[0]) + Framed(ts[1..])
  }

  /** Its messages from left to right. */
  function Leaves(t: Tree): seq<Message> {
    match t
    case Leaf(m) => [m]
    case Bundle(_, elements) => AllLeaves(elements)
  }

  function AllLeaves(ts: seq<Tree>): seq<Message> {
    if ts == [] then [] else Leaves(ts[0]) + AllLeaves(ts[1..])
  }

  lemma {:induction false} WireAligned(t: Tree)
    requires Fits(t)
    ensures |Wire(t)| % 4 == 0 && |Wire(t)| > 0
    decreases t
  {
    hide Encode, Framed, Plain, AllFit;
    match t
    case Leaf(m) => EncodingAligned(m);
    case Bundle(tag, elements) =>
      FramedAligned(elements);
      SumAligned(MARK, tag, Framed(elements));
  }

  lemma {:induction false} FramedAligned(ts: seq<Tree>)
    requires AllFit(ts)
    ensures |Framed(ts)| % 4 == 0
    decreases ts
  {
    hide Wire, IntBytes, Fits;
    if ts != [] {
      WireAligned(ts[0]);
      FramedAligned(ts[1..]);
      SumAligned(IntBytes(|Wire(ts[0])|), Wire(ts[0]), Framed(ts[1..]));
    }
  }

  lemma FramedBody(data: seq<byte>, tag: seq<byte>, body: seq<byte>)
    requires |tag| == 8 && data == MARK + tag + body
    ensures |data| >= BODY && data[..8] == MARK && data[BODY..] == body
  {
  }

  lemma OpenedIs(data: seq<byte>)
    requires |data| >= BODY && data[..8] == MARK
    ensures IsBundle(data) && Opened(data) == Elements(data[BODY..])
  {
  }

  lemma SumAligned(a: seq<byte>, b: seq<byte>, c: seq<byte>)
    requires |a| % 4 == 0 && |b| % 4 == 0 && |c| % 4 == 0
    ensures |a + b + c| % 4 == 0
  {
  }

  function Wires(ts: seq<Tree>): (parts: seq<seq<byte>>)
    requires AllFit(ts)
  {
    if ts == [] then [] else [Wire(ts[0])] + Wires(ts[1..])
  }

  lemma {:induction false} ElementsOfFramed(ts: seq<Tree>)
    requires AllFit(ts)
    ensures Elements(Framed(ts)) == Some(Wires(ts))
  {
    hide Wire, Fits;
    if ts != [] {
      var size := |Wire(ts[0])|;
      var rest := Framed(ts);
      WireAligned(ts[0]);
      SignedOfIntBytes(size);
      assert rest == IntBytes(size) + Wire(ts[0]) + Framed(ts[1..]);
      assert rest[..4] == IntBytes(size) && Size(rest) == size;
      assert rest[4..4 + size] == Wire(ts[0]) && rest[4 + size..] == Framed(ts[1..]);
      ElementsOfFramed(ts[1..]);
    }
  }

  /** An encoded message starts like a bundle only if its path is the mark's own name. */
  lemma MarkedPath(m: Message)
    requires Plain(m) && IsBundle(Encode(m))
    ensures m.path == "#bundle"
  {
    hide ArgsBytes, PlainArgs;
    TagsArePlain(m.args);
    var data, path := Encode(m), OscString(m.path);
    assert forall k :: 0 <= k < 8 ==> data[k] == MARK[k];
    assert forall k :: 0 <= k < |path| ==> data[k] == path[k];
    assert forall k :: 0 <= k < |m.path| ==> path[k] == Ascii(m.path)[k];
    assert path[|m.path|] == 0;
    assert forall k :: 0 <= k < 7 ==> MARK[k] != 0;
    assert MARK[7] == 0;
    assert |m.path| == 7;
    assert forall k :: 0 <= k < 7 ==> m.path[k] as int == MARK[k] as int;
    assert m.path == "#bundle";
  }

  /** However deep it is nested, a tree arrives as its messages from left to right. */
  lemma {:induction false} DeliveredTree(t: Tree)
    requires Fits(t)
    ensures Delivered(Wire(t)) == Some(Leaves(t))
    decreases t
  {
    hide Decode, Encode;
    WireAligned(t);
    match t
    case Leaf(m) =>
      if IsBundle(Wire(t)) {
        MarkedPath(m);
      }
      DecodeEncode(m);
      assert Flatten(Wire(t)) == Some([Wire(t)]);
      assert [Wire(t)][1..] == [];
      DecodeStep([Wire(t)], m);
      assert DecodeAll([]) == Some([]) && [m] + [] == [m];
    case Bundle(tag, elements) =>
      var data := Wire(t);
      FramedBody(data, tag, Framed(elements));
      ElementsOfFramed(elements);
      DeliveredTrees(elements);
      OpenedIs(data);
  }

  lemma {:induction false} DeliveredTrees(ts: seq<Tree>)
    requires AllFit(ts)
    ensures FlattenAll(Wires(ts)).Some? && DecodeAll(FlattenAll(Wires(ts)).value) == Some(AllLeaves(ts))
    decreases ts
  {
    hide Decode, Wire, Flatten, Leaves, Fits;
    if ts != [] {
      DeliveredTree(ts[0]);
      DeliveredTrees(ts[1..]);
      assert Wires(ts)[1..] == Wires(ts[1..]) && Wires(ts)[0] == Wire(ts[0]);
      DecodeBoth(Flatten(Wire(ts[0])).value, FlattenAll(Wires(ts[1..])).value);
    }
  }

  lemma {:induction false} DecodeBoth(a: seq<seq<byte>>, b: seq<seq<byte>>)
    requires DecodeAll(a).Some? && DecodeAll(b).Some?
    ensures DecodeAll(a + b) == Some(DecodeAll(a).value + DecodeAll(b).value)
  {
    hide Decode;
    if a == [] {
      assert [] + b == b && [] + DecodeAll(b).value == DecodeAll(b).value;
    } else {
      DecodeBoth(a[1..], b);
      assert (a + b)[1..] == a[1..] + b && (a + b)[0] == a[0];
      var m := Decode(a[0]).value;
      DecodeStep(a, m);
      DecodeStep(a + b, m);
      Regroup([m], DecodeAll(a[1..]).value, DecodeAll(b).value);
    }
  }

  lemma DecodeStep(raws: seq<seq<byte>>, m: Message)
    requires raws != [] && Decode(raws[0]) == Some(m)
    ensures DecodeAll(raws) == if DecodeAll(raws[1..]).Some? then Some([m] + DecodeAll(raws[1..]).value) else None
  {
    hide Decode;
  }

  lemma Regroup(a: seq<Message>, b: seq<Message>, c: seq<Message>)
    ensures a + (b + c) == (a + b) + c
  {
  }
}
