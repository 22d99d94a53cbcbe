/** The OSC 1.0 messages the desk speaks: int32, float32 and string arguments. */
module Osc {
  import opened Wrappers
  import opened Protocol

  /** A float32 is its four bytes; an int32 is a number in its range. */
  datatype Arg = Int(number: int) | Float(b0: byte, b1: byte, b2: byte, b3: byte) | Text(text: string)

  datatype Message = Message(path: string, args: seq<Arg>)

  const INT_LIMIT: int := 0x8000_0000

  predicate PlainChar(c: char) {
    0 < c as int < 128
  }

  predicate PlainText(s: string) {
    forall k :: 0 <= k < |s| ==> PlainChar(s[k])
  }

  /** What the encoder accepts: ASCII strings without NUL, and numbers an int32 holds. */
  predicate PlainArg(a: Arg) {
    match a
    case Int(n) => -INT_LIMIT <= n < INT_LIMIT
    case Float(_, _, _, _) => true
    case Text(s) => PlainText(s)
  }

  predicate PlainArgs(args: seq<Arg>) {
    forall k :: 0 <= k < |args| ==> PlainArg(args[k])
  }

  predicate Plain(m: Message) {
    PlainText(m.path) && PlainArgs(m.args)
  }

  // Strings

  function ByteOf(c: char): byte
    requires PlainChar(c)
  {
    c as int as byte
  }

  function Ascii(s: string): (r: seq<byte>)
    requires PlainText(s)
    ensures |r| == |s| && forall k :: 0 <= k < |s| ==> r[k] == ByteOf(s[k]) && r[k] != 0
  {
    seq(|s|, k requires 0 <= k < |s| => ByteOf(s[k]))
  }

  function Zeros(n: nat): (r: seq<byte>)
    ensures |r| == n && forall k :: 0 <= k < n ==> r[k] == 0
  {
    seq(n, _ => 0)
  }

  /** How many NULs end a string of this length: at least one, up to a multiple of four. */
  function Padding(length: nat): (n: nat)
    ensures 1 <= n <= 4 && (length + n) % 4 == 0
  {
    4 - length % 4
  }

  function OscString(s: string): (r: seq<byte>)
    requires PlainText(s)
    ensures |r| == |s| + Padding(|s|)
  {
    Ascii(s) + Zeros(Padding(|s|))
  }

  /** How many bytes come before the first NUL; all of them where there is none. */
  function Run(rest: seq<byte>): (n: nat)
    ensures n <= |rest| && (forall k :: 0 <= k < n ==> rest[k] != 0) && (n < |rest| ==> rest[n] == 0)
  {
    if rest == [] || rest[0] == 0 then 0 else 1 + Run(rest[1..])
  }

  predicate IsAscii(text: seq<byte>) {
    forall k :: 0 <= k < |text| ==> text[k] as int < 128
  }

  predicate AllZero(bytes: seq<byte>) {
    forall k :: 0 <= k < |bytes| ==> bytes[k] == 0
  }

  function Chars(text: seq<byte>): (s: string)
    requires IsAscii(text)
    ensures |s| == |text| && forall k :: 0 <= k < |text| ==> s[k] as int == text[k] as int
  {
    seq(|text|, k requires 0 <= k < |text| => text[k] as int as char)
  }

  /** A string at the start of what is left, and what follows it; None where there is none. */
  function TakeString(rest: seq<byte>): Option<(string, seq<byte>)> {
    var n := Run(rest);
    if n == |rest| || n + Padding(n) > |rest| || !IsAscii(rest[..n]) || !AllZero(rest[n..n + Padding(n)]) then None
    else Some((Chars(rest[..n]), rest[n + Padding(n)..]))
  }

  lemma {:induction false} RunStopsAt(rest: seq<byte>, n: nat)
    requires n < |rest| && rest[n] == 0 && forall k :: 0 <= k < n ==> rest[k] != 0
    ensures Run(rest) == n
  {
    if n > 0 {
      RunStopsAt(rest[1..], n - 1);
    }
  }

  lemma TakeOscString(s: string, tail: seq<byte>)
    requires PlainText(s)
    ensures TakeString(OscString(s) + tail) == Some((s, tail))
  {
    var rest := OscString(s) + tail;
    RunStopsAt(rest, |s|);
    assert rest[..|s|] == Ascii(s);
    assert rest[|s| + Padding(|s|)..] == tail;
    assert rest[|s|..|s| + Padding(|s|)] == Zeros(Padding(|s|));
    assert Chars(Ascii(s)) == s;
  }

  lemma TakenWasOscString(rest: seq<byte>)
    requires TakeString(rest).Some?
    ensures var (s, tail) := TakeString(rest).value; PlainText(s) && rest == OscString(s) + tail && |tail| < |rest|
  {
    var n := Run(rest);
    var (s, tail) := TakeString(rest).value;
    assert Ascii(s) == rest[..n];
    assert rest[n..n + Padding(n)] == Zeros(Padding(n));
    assert rest == rest[..n] + rest[n..n + Padding(n)] + rest[n + Padding(n)..];
  }

  // Numbers

  function Word(b0: byte, b1: byte, b2: byte, b3: byte): int {
    b0 as int * 0x100_0000 + b1 as int * 0x1_0000 + b2 as int * 0x100 + b3 as int
  }

  /** Four big-endian bytes as a signed number. */
  function Signed(b0: byte, b1: byte, b2: byte, b3: byte): (n: int)
    ensures -INT_LIMIT <= n < INT_LIMIT
  {
    var u := Word(b0, b1, b2, b3);
    if u >= INT_LIMIT then u - 2 * INT_LIMIT else u
  }

  function IntBytes(n: int): (r: seq<byte>)
    requires -INT_LIMIT <= n < INT_LIMIT
    ensures |r| == 4
  {
    var u := if n < 0 then n + 2 * INT_LIMIT else n;
    var v := u / 0x100;
    var w := v / 0x100;
    [(w / 0x100) as byte, (w % 0x100) as byte, (v % 0x100) as byte, (u % 0x100) as byte]
  }

  lemma SignedOfIntBytes(n: int)
    requires -INT_LIMIT <= n < INT_LIMIT
    ensures var r := IntBytes(n); Signed(r[0], r[1], r[2], r[3]) == n
  {
    var u := if n < 0 then n + 2 * INT_LIMIT else n;
    var r := IntBytes(n);
    var v := u / 0x100;
    var w := v / 0x100;
    assert w == 0x100 * r[0] as int + r[1] as int;
    assert v == 0x100 * w + r[2] as int;
    assert Word(r[0], r[1], r[2], r[3]) == u;
  }

  lemma IntBytesOfSigned(b0: byte, b1: byte, b2: byte, b3: byte)
    ensures IntBytes(Signed(b0, b1, b2, b3)) == [b0, b1, b2, b3]
  {
    var u := Word(b0, b1, b2, b3);
    var w := 0x100 * b0 as int + b1 as int;
    var v := 0x100 * w + b2 as int;
    assert u == 0x100 * v + b3 as int;
    assert u / 0x100 == v && u % 0x100 == b3 as int;
    assert v / 0x100 == w && v % 0x100 == b2 as int;
    assert w / 0x100 == b0 as int && w % 0x100 == b1 as int;
  }

  // Arguments

  function Tag(a: Arg): char {
    match a
    case Int(_) => 'i'
    case Float(_, _, _, _) => 'f'
    case Text(_) => 's'
  }

  function Tags(args: seq<Arg>): (tags: string)
    ensures |tags| == |args|
  {
    if args == [] then "" else [Tag(args[0])] + Tags(args[1..])
  }

  function ArgBytes(a: Arg): seq<byte>
    requires PlainArg(a)
  {
    match a
    case Int(n) => IntBytes(n)
    case Float(b0, b1, b2, b3) => [b0, b1, b2, b3]
    case Text(s) => OscString(s)
  }

  function ArgsBytes(args: seq<Arg>): seq<byte>
    requires PlainArgs(args)
  {
    if args == [] then [] else ArgBytes(args[0]) + ArgsBytes(args[1..])
  }

  function TakeArg(tag: char, rest: seq<byte>): Option<(Arg, seq<byte>)> {
    if tag == 's' then
      match TakeString(rest)
      case None => None
      case Some(taken) => Some((Text(taken.0), taken.1))
    else if |rest| < 4 then None
    else if tag == 'f' then Some((Float(rest[0], rest[1], rest[2], rest[3]), rest[4..]))
    else if tag == 'i' then Some((Int(Signed(rest[0], rest[1], rest[2], rest[3])), rest[4..]))
    else None
  }

  function TakeArgs(tags: string, rest: seq<byte>): Option<(seq<Arg>, seq<byte>)> {
    if tags == "" then Some(([], rest))
    else
      match TakeArg(tags[0], rest)
      case None => None
      case Some(first) =>
        match TakeArgs(tags[1..], first.1)
        case None => None
        case Some(others) => Some(([first.0] + others.0, others.1))
  }

  lemma TakeArgBytes(a: Arg, tail: seq<byte>)
    requires PlainArg(a)
    ensures TakeArg(Tag(a), ArgBytes(a) + tail) == Some((a, tail))
  {
    match a
    case Int(n) =>
      SignedOfIntBytes(n);
      assert (ArgBytes(a) + tail)[4..] == tail;
    case Float(_, _, _, _) =>
      assert (ArgBytes(a) + tail)[4..] == tail;
    case Text(s) =>
      TakeOscString(s, tail);
  }

  lemma TakenWasArg(tag: char, rest: seq<byte>)
    requires TakeArg(tag, rest).Some?
    ensures var (a, tail) := TakeArg(tag, rest).value; PlainArg(a) && Tag(a) == tag && rest == ArgBytes(a) + tail
  {
    if tag == 's' {
      TakenWasOscString(rest);
    } else {
      assert rest == rest[..4] + rest[4..];
      assert rest[..4] == [rest[0], rest[1], rest[2], rest[3]];
      IntBytesOfSigned(rest[0], rest[1], rest[2], rest[3]);
    }
  }

  lemma {:induction false} TakeArgsBytes(args: seq<Arg>, tail: seq<byte>)
    requires PlainArgs(args)
    ensures TakeArgs(Tags(args), ArgsBytes(args) + tail) == Some((args, tail))
  {
    hide TakeArg, ArgBytes, PlainArg, Tag;
    if args == [] {
      assert [] + tail == tail;
    } else {
      var whole, others := ArgsBytes(args) + tail, ArgsBytes(args[1..]) + tail;
      assert whole == ArgBytes(args[0]) + others;
      TakeArgBytes(args[0], others);
      TakeArgsBytes(args[1..], tail);
      var tags := Tags(args);
      assert tags[0] == Tag(args[0]) && tags[1..] == Tags(args[1..]);
      assert [args[0]] + args[1..] == args;
      TakeArgsStep(tags, whole, args[0], others);
    }
  }

  lemma TakeArgsStep(tags: string, rest: seq<byte>, a: Arg, left: seq<byte>)
    requires tags != "" && TakeArg(tags[0], rest) == Some((a, left)) && TakeArgs(tags[1..], left).Some?
    ensures var (others, tail) := TakeArgs(tags[1..], left).value; TakeArgs(tags, rest) == Some(([a] + others, tail))
  {
    hide TakeArg;
  }

  lemma {:induction false} TakenWasArgs(tags: string, rest: seq<byte>)
    requires TakeArgs(tags, rest).Some?
    ensures var (args, tail) := TakeArgs(tags, rest).value; PlainArgs(args) && Tags(args) == tags && rest == ArgsBytes(args) + tail
  {
    hide TakeArg, ArgBytes, PlainArg, Tag;
    if tags == "" {
      assert [] + rest == rest;
    } else {
      var first := TakeArg(tags[0], rest).value;
      TakenWasArg(tags[0], rest);
      TakenWasArgs(tags[1..], first.1);
      var (args, tail) := TakeArgs(tags, rest).value;
      assert args[1..] == TakeArgs(tags[1..], first.1).value.0;
      assert rest == ArgBytes(args[0]) + (ArgsBytes(args[1..]) + tail);
      assert tags == [tags[0]] + tags[1..];
    }
  }

  // Messages

  function Encode(m: Message): seq<byte>
    requires Plain(m)
  {
    TagsArePlain(m.args);
    OscString(m.path) + OscString("," + Tags(m.args)) + ArgsBytes(m.args)
  }

  function Decode(data: seq<byte>): Option<Message> {
    match TakeString(data)
    case None => None
    case Some(path) =>
      match TakeString(path.1)
      case None => None
      case Some(tags) =>
        if tags.0 == "" || tags.0[0] != ',' then None
        else
          match TakeArgs(tags.0[1..], tags.1)
          case None => None
          case Some(args) => if args.1 != [] then None else Some(Message(path.0, args.0))
  }

  lemma {:induction false} TagsArePlain(args: seq<Arg>)
    ensures PlainText("," + Tags(args)) && PlainText(Tags(args))
  {
    if args != [] {
      TagsArePlain(args[1..]);
    }
  }

  /** Decoding undoes encoding, for every message the encoder accepts. */
  lemma DecodeEncode(m: Message)
    requires Plain(m)
    ensures Decode(Encode(m)) == Some(m)
  {
    hide TakeString, TakeArgs, OscString, ArgsBytes, PlainText, PlainArgs;
    TagsArePlain(m.args);
    var tags := "," + Tags(m.args);
    var rest := OscString(tags) + ArgsBytes(m.args);
    assert Encode(m) == OscString(m.path) + rest;
    TakeOscString(m.path, rest);
    TakeOscString(tags, ArgsBytes(m.args));
    TakeArgsBytes(m.args, []);
    assert ArgsBytes(m.args) + [] == ArgsBytes(m.args);
    assert tags[1..] == Tags(m.args);
  }

  /** What the decoder accepts is the one encoding of what it returns. */
  lemma EncodeDecode(data: seq<byte>)
    requires Decode(data).Some?
    ensures Plain(Decode(data).value) && Encode(Decode(data).value) == data
  {
    hide TakeString, TakeArgs, OscString, ArgsBytes, PlainText, PlainArgs;
    var path := TakeString(data).value;
    var tags := TakeString(path.1).value;
    TakenWasOscString(data);
    TakenWasOscString(path.1);
    TakenWasArgs(tags.0[1..], tags.1);
    var args := TakeArgs(tags.0[1..], tags.1).value;
    assert "," + tags.0[1..] == tags.0;
    assert ArgsBytes(args.0) + [] == ArgsBytes(args.0);
    assert data == OscString(path.0) + (OscString(tags.0) + ArgsBytes(args.0));
  }

  /** Accepted encodings are unique. */
  lemma DecodeIsInjective(a: seq<byte>, b: seq<byte>)
    requires Decode(a).Some? && Decode(a) == Decode(b)
    ensures a == b
  {
    EncodeDecode(a);
    EncodeDecode(b);
  }

  lemma {:induction false} ArgsAligned(args: seq<Arg>)
    requires PlainArgs(args)
    ensures |ArgsBytes(args)| % 4 == 0
  {
    hide PlainArg, ArgBytes;
    if args != [] {
      ArgsAligned(args[1..]);
      ArgAligned(args[0]);
      assert ArgsBytes(args) == ArgBytes(args[0]) + ArgsBytes(args[1..]);
    }
  }

  lemma ArgAligned(a: Arg)
    requires PlainArg(a)
    ensures |ArgBytes(a)| % 4 == 0
  {
  }

  /** Every encoding is a multiple of four bytes long, and never empty. */
  lemma EncodingAligned(m: Message)
    requires Plain(m)
    ensures |Encode(m)| % 4 == 0 && |Encode(m)| >= 8
  {
    hide ArgsBytes, OscString, Tags, PlainText, PlainArgs;
    TagsArePlain(m.args);
    ArgsAligned(m.args);
    StringAligned(m.path);
    StringAligned("," + Tags(m.args));
    LengthsAligned(|OscString(m.path)|, |OscString("," + Tags(m.args))|, |ArgsBytes(m.args)|);
  }

  lemma StringAligned(s: string)
    requires PlainText(s)
    ensures |OscString(s)| % 4 == 0 && |OscString(s)| >= 4
  {
    hide Ascii, PlainText;
  }

  lemma LengthsAligned(a: nat, b: nat, c: nat)
    requires a % 4 == 0 && b % 4 == 0 && c % 4 == 0
    ensures (a + b + c) % 4 == 0
  {
  }

  // The loops

  /** The encoder's loop; an argument it cannot write refuses the message. */
  method EncodeOsc(m: Message) returns (data: Option<seq<byte>>)
    ensures data == if Plain(m) then Some(Encode(m)) else None
  {
    hide TakeString, OscString, PlainArg, ArgBytes;
    if !PlainText(m.path) {
      return None;
    }
    TagsArePlain(m.args);
    var bytes := OscString(m.path) + OscString("," + Tags(m.args));
    ghost var head := bytes;
    for i := 0 to |m.args|
      invariant PlainArgs(m.args[..i])
      invariant bytes == head + ArgsBytes(m.args[..i])
    {
      if !PlainArg(m.args[i]) {
        return None;
      }
      assert m.args[..i + 1] == m.args[..i] + [m.args[i]];
      ArgsBytesThen(m.args[..i], m.args[i]);
      bytes := bytes + ArgBytes(m.args[i]);
    }
    assert m.args[..|m.args|] == m.args;
    data := Some(bytes);
  }

  lemma {:induction false} ArgsBytesThen(args: seq<Arg>, a: Arg)
    requires PlainArgs(args) && PlainArg(a)
    ensures PlainArgs(args + [a]) && ArgsBytes(args + [a]) == ArgsBytes(args) + ArgBytes(a)
  {
    hide PlainArg, ArgBytes;
    if args == [] {
      assert [] + [a] == [a];
      assert ArgsBytes([a]) == ArgBytes(a) + ArgsBytes([]);
    } else {
      ArgsBytesThen(args[1..], a);
      assert (args + [a])[1..] == args[1..] + [a];
    }
  }

  /** The string at an offset, and the offset after it; offsets stay multiples of four. */
  method DecodeString(data: seq<byte>, offset: nat) returns (taken: Option<(string, nat)>)
    requires offset <= |data| && offset % 4 == 0
    ensures taken.None? <==> TakeString(data[offset..]).None?
    ensures taken.Some? ==> offset <= taken.value.1 <= |data| && taken.value.1 % 4 == 0
                            && TakeString(data[offset..]) == Some((taken.value.0, data[taken.value.1..]))
  {
    hide TakeString, IsAscii, AllZero;
    var end := offset;
    while end < |data| && data[end] != 0
      invariant offset <= end <= |data| && forall k :: offset <= k < end ==> data[k] != 0
    {
      end := end + 1;
    }
    if end == |data| {
      NothingToTake(data, offset);
      return None;
    }
    TakeAt(data, offset, end);
    if !IsAscii(data[offset..end]) {
      return None;
    }
    var value := Chars(data[offset..end]);
    end := end + 1;
    var padded := end + (4 - end % 4) % 4;
    if padded > |data| || !AllZero(data[end..padded]) {
      return None;
    }
    taken := Some((value, padded));
  }

  lemma NothingToTake(data: seq<byte>, offset: nat)
    requires offset <= |data| && forall k :: offset <= k < |data| ==> data[k] != 0
    ensures TakeString(data[offset..]).None?
  {
    WholeRun(data[offset..]);
  }

  /** Taking a string in terms of offsets into the whole. */
  lemma TakeAt(data: seq<byte>, offset: nat, end: nat)
    requires offset <= end < |data| && offset % 4 == 0 && data[end] == 0 && forall k :: offset <= k < end ==> data[k] != 0
    ensures var padded := end + 1 + (4 - (end + 1) % 4) % 4;
      && padded % 4 == 0
      && (TakeString(data[offset..]).Some? <==> padded <= |data| && IsAscii(data[offset..end]) && AllZero(data[end + 1..padded]))
      && (TakeString(data[offset..]).Some? ==> TakeString(data[offset..]) == Some((Chars(data[offset..end]), data[padded..])))
  {
    hide TakeString, IsAscii, AllZero, Padding;
    var rest, n := data[offset..], end - offset;
    var padded := end + 1 + (4 - (end + 1) % 4) % 4;
    RunStopsAt(rest, n);
    PaddedTo(offset, n);
    TakeStringIs(rest, n);
    assert rest[..n] == data[offset..end];
    if padded <= |data| {
      FromOffset(data, offset, n, Padding(n));
      ZeroFirst(data[end + 1..padded]);
    }
  }

  /** The parts of a padded string, in terms of offsets into the whole. */
  lemma FromOffset(data: seq<byte>, offset: nat, n: nat, padding: nat)
    requires offset + n + padding <= |data| && padding > 0 && data[offset + n] == 0
    ensures data[offset..][n + padding..] == data[offset + n + padding..]
    ensures data[offset..][n..n + padding] == [0] + data[offset + n + 1..offset + n + padding]
  {
  }

  lemma PaddedTo(offset: nat, n: nat)
    requires offset % 4 == 0
    ensures var end := offset + n;
      offset + n + Padding(n) == end + 1 + (4 - (end + 1) % 4) % 4 && (offset + n + Padding(n)) % 4 == 0 && Padding(n) > 0
  {
  }

  lemma TakeStringIs(rest: seq<byte>, n: nat)
    requires n < |rest| && Run(rest) == n
    ensures TakeString(rest).Some? <==> n + Padding(n) <= |rest| && IsAscii(rest[..n]) && AllZero(rest[n..n + Padding(n)])
    ensures TakeString(rest).Some? ==> TakeString(rest) == Some((Chars(rest[..n]), rest[n + Padding(n)..]))
  {
    hide IsAscii, AllZero, Padding, Run;
  }

  lemma {:induction false} WholeRun(rest: seq<byte>)
    requires forall k :: 0 <= k < |rest| ==> rest[k] != 0
    ensures Run(rest) == |rest|
  {
    if rest != [] {
      WholeRun(rest[1..]);
    }
  }

  lemma ZeroFirst(bytes: seq<byte>)
    ensures AllZero([0] + bytes) <==> AllZero(bytes)
  {
    assert forall k :: 0 <= k < |bytes| ==> ([0] + bytes)[k + 1] == bytes[k];
  }

  /** One argument at an offset, and the offset after it. */
  method DecodeArg(data: seq<byte>, offset: nat, tag: char) returns (taken: Option<(Arg, nat)>)
    requires offset <= |data| && offset % 4 == 0
    ensures taken.None? <==> TakeArg(tag, data[offset..]).None?
    ensures taken.Some? ==> offset <= taken.value.1 <= |data| && taken.value.1 % 4 == 0
                            && TakeArg(tag, data[offset..]) == Some((taken.value.0, data[taken.value.1..]))
  {
    hide TakeString;
    if tag == 's' {
      var text := DecodeString(data, offset);
      taken := if text.None? then None else Some((Text(text.value.0), text.value.1));
      return;
    }
    if offset + 4 > |data| {
      return None;
    }
    assert data[offset..][4..] == data[offset + 4..];
    if tag == 'f' {
      taken := Some((Float(data[offset], data[offset + 1], data[offset + 2], data[offset + 3]), offset + 4));
    } else if tag == 'i' {
      taken := Some((Int(Signed(data[offset], data[offset + 1], data[offset + 2], data[offset + 3])), offset + 4));
    } else {
      taken := None;
    }
  }

  /** What is left to take, after these arguments, completes the whole. */
  ghost predicate Continues(tags: string, start: seq<byte>, done: seq<Arg>, left: string, bytes: seq<byte>) {
    match TakeArgs(left, bytes)
    case None => TakeArgs(tags, start).None?
    case Some(others) => TakeArgs(tags, start) == Some((done + others.0, others.1))
  }

  lemma ContinuesWith(tags: string, start: seq<byte>, done: seq<Arg>, left: string, bytes: seq<byte>)
    requires Continues(tags, start, done, left, bytes) && left != ""
    ensures TakeArg(left[0], bytes).None? ==> TakeArgs(tags, start).None?
    ensures TakeArg(left[0], bytes).Some? ==>
      var (a, rest) := TakeArg(left[0], bytes).value; Continues(tags, start, done + [a], left[1..], rest)
  {
    hide TakeArg;
    if TakeArg(left[0], bytes).Some? {
      var (a, rest) := TakeArg(left[0], bytes).value;
      if TakeArgs(left[1..], rest).Some? {
        var others := TakeArgs(left[1..], rest).value;
        assert done + ([a] + others.0) == done + [a] + others.0;
      }
    }
  }

  lemma ContinuesFirst(tags: string, start: seq<byte>)
    ensures Continues(tags, start, [], tags, start)
  {
    if TakeArgs(tags, start).Some? {
      assert [] + TakeArgs(tags, start).value.0 == TakeArgs(tags, start).value.0;
    }
  }

  lemma ContinuesLast(tags: string, start: seq<byte>, done: seq<Arg>, bytes: seq<byte>)
    requires Continues(tags, start, done, "", bytes)
    ensures TakeArgs(tags, start) == Some((done, bytes))
  {
    assert done + [] == done;
  }

  method DecodeOsc(data: seq<byte>) returns (m: Option<Message>)
    ensures m == Decode(data)
  {
    hide TakeString, TakeArgs, TakeArg, Continues;
    var path := DecodeString(data, 0);
    assert data[0..] == data;
    if path.None? {
      return None;
    }
    var tags := DecodeString(data, path.value.1);
    if tags.None? || tags.value.0 == "" || tags.value.0[0] != ',' {
      return None;
    }
    var args := DecodeArgs(data, tags.value.1, tags.value.0[1..]);
    m := if args.None? || args.value.1 != |data| then None else Some(Message(path.value.0, args.value.0));
  }

  method DecodeArgs(data: seq<byte>, start: nat, tags: string) returns (taken: Option<(seq<Arg>, nat)>)
    requires start <= |data| && start % 4 == 0
    ensures taken.None? <==> TakeArgs(tags, data[start..]).None?
    ensures taken.Some? ==> taken.value.1 <= |data| && TakeArgs(tags, data[start..]) == Some((taken.value.0, data[taken.value.1..]))
  {
    hide TakeArgs, TakeArg, Continues;
    var offset := start;
    var args: seq<Arg> := [];
    ContinuesFirst(tags, data[start..]);
    assert tags[0..] == tags;
    for i := 0 to |tags|
      invariant 0 <= offset <= |data| && offset % 4 == 0
      invariant Continues(tags, data[start..], args, tags[i..], data[offset..])
    {
      ContinuesWith(tags, data[start..], args, tags[i..], data[offset..]);
      assert tags[i..][1..] == tags[i + 1..];
      var arg := DecodeArg(data, offset, tags[i]);
      if arg.None? {
        return None;
      }
      args := args + [arg.value.0];
      offset := arg.value.1;
    }
    assert tags[|tags|..] == "";
    ContinuesLast(tags, data[start..], args, data[offset..]);
    taken := Some((args, offset));
  }
}
