/**
 * The BBDO output stream's serializer. An event becomes one or more packets;
 * each packet has an 8-byte header (a 16-bit checksum, a 16-bit payload size
 * and the 32-bit event type, all big-endian) followed by at most 0xFFFF bytes
 * of payload. The payload is the source and destination ids and then the
 * event's fields, each encoded big-endian.
 */
module BbdoOutput {
  import opened Common

  newtype byte = b: int | 0 <= b < 256

  const HeaderSize: nat := 8
  const MaxPayload: nat := 0xFFFF
  const Two16: nat := 0x1_0000
  const Two32: nat := 0x1_0000_0000
  const Two64: nat := 0x1_0000_0000_0000_0000

  function BE16(v: nat): (r: seq<byte>)
    requires v < Two16
    ensures |r| == 2
  {
    [(v / 256) as byte, (v % 256) as byte]
  }

  function BE32(v: nat): (r: seq<byte>)
    requires v < Two32
    ensures |r| == 4
  {
    [(v / 0x100_0000) as byte, (v / 0x1_0000 % 256) as byte, (v / 256 % 256) as byte, (v % 256) as byte]
  }

  function DecodeBE16(b: seq<byte>): (v: nat)
    requires |b| == 2
    ensures v < Two16
  {
    b[0] as nat * 256 + b[1] as nat
  }

  function DecodeBE32(b: seq<byte>): (v: nat)
    requires |b| == 4
    ensures v < Two32
  {
    ((b[0] as nat * 256 + b[1] as nat) * 256 + b[2] as nat) * 256 + b[3] as nat
  }

  lemma BE16RoundTrip(v: nat)
    requires v < Two16
    ensures DecodeBE16(BE16(v)) == v
  {
  }

  lemma BE32RoundTrip(v: nat)
    requires v < Two32
    ensures DecodeBE32(BE32(v)) == v
  {
    var b := BE32(v);
    assert b[0] as nat * 256 + b[1] as nat == v / 0x1_0000;
    assert (v / 0x1_0000) * 256 + b[2] as nat == v / 256;
  }

  /** A field value, as the event mapping hands it to the serializer. */
  datatype FieldValue =
    | BoolVal(b: bool)
      /** The `%f` printing of the double, given as its characters (the printing itself is not modelled). */
    | DoubleVal(printed: seq<byte>)
    | IntVal(i: int)
    | ShortVal(s: int)
    | StringVal(utf8: seq<byte>)
    | TimeVal(t: int)
    | UIntVal(u: nat)
      /** A mapping entry whose type id the serializer does not know. */
    | UnknownVal(typeId: nat)

  /** One entry of the event's mapping: whether it is serialized, and its value. */
  datatype Entry = Entry(serialize: bool, value: FieldValue)

  /** `get_*`: the bytes one field appends, or an error for an unknown type id. */
  function EncodeField(v: FieldValue): (r: Result<seq<byte>>)
    ensures r.Err? <==> v.UnknownVal?
    ensures v.BoolVal? ==> r == Ok([if v.b then 1 else 0])
    ensures v.IntVal? ==> r.Ok? && |r.value| == 4
    ensures v.UIntVal? ==> r.Ok? && |r.value| == 4
    ensures v.ShortVal? ==> r.Ok? && |r.value| == 2
    ensures v.TimeVal? ==> r.Ok? && |r.value| == 8
    ensures v.StringVal? ==> r == Ok(v.utf8 + [0])
    ensures v.DoubleVal? ==> r.Ok? && 1 <= |r.value| <= 32 && r.value[|r.value| - 1] == 0
  {
    match v
    case BoolVal(b) => Ok([if b then 1 else 0])
    case DoubleVal(printed) =>
      // snprintf into a 32-byte buffer: at most 31 characters, then the NUL.
      var n := if |printed| < 31 then |printed| else 31;
      Ok(printed[..n] + [0])
    case IntVal(i) => Ok(BE32(i % Two32))
    case ShortVal(s) => Ok(BE16(s % Two16))
    case StringVal(utf8) => Ok(utf8 + [0])
    case TimeVal(t) =>
      var ts := t % Two64;
      Ok(BE32(ts / Two32) + BE32(ts % Two32))
    case UIntVal(u) => Ok(BE32(u % Two32))
    case UnknownVal(_) => Err("BBDO: invalid mapping for object: not a known type ID")
  }

  /** Integers travel as their 32-bit two's complement, big-endian. */
  lemma IntRoundTrip(i: int)
    requires -0x8000_0000 <= i < 0x8000_0000
    ensures var u := DecodeBE32(EncodeField(IntVal(i)).value);
      (if u >= 0x8000_0000 then u - Two32 else u) == i
  {
    BE32RoundTrip(i % Two32);
  }

  /** Unsigned integers below 2^32 and shorts below 2^16 round-trip. */
  lemma UIntAndShortRoundTrip(u: nat, s: nat)
    requires u < Two32 && s < Two16
    ensures DecodeBE32(EncodeField(UIntVal(u)).value) == u
    ensures DecodeBE16(EncodeField(ShortVal(s)).value) == s
  {
    BE32RoundTrip(u);
  }

  /** A timestamp is its high 32 bits then its low 32 bits. */
  lemma TimeRoundTrip(t: nat)
    requires t < Two64
    ensures var b := EncodeField(TimeVal(t)).value;
      DecodeBE32(b[..4]) * Two32 + DecodeBE32(b[4..]) == t
  {
    var hi, lo := t / Two32, t % Two32;
    assert t % Two64 == t;
    assert hi < Two32;
    var b := EncodeField(TimeVal(t)).value;
    assert b == BE32(hi) + BE32(lo);
    assert b[..4] == BE32(hi) && b[4..] == BE32(lo);
    BE32RoundTrip(hi);
    BE32RoundTrip(lo);
    assert hi * Two32 + lo == t;
  }

  /** The bytes of every entry, in order: an entry that is not serialized adds none. */
  function EncodeEntries(entries: seq<Entry>): (r: Result<seq<seq<byte>>>)
    ensures r.Ok? ==> |r.value| == |entries|
    ensures r.Ok? <==> forall i :: 0 <= i < |entries| && entries[i].serialize ==> !entries[i].value.UnknownVal?
  {
    if entries == [] then Ok([])
    else
      var last := entries[|entries| - 1];
      match EncodeEntries(entries[..|entries| - 1])
      case Err(m) => Err(m)
      case Ok(front) =>
        if !last.serialize then Ok(front + [[]])
        else
          match EncodeField(last.value)
          case Err(m) => Err(m)
          case Ok(bytes) => Ok(front + [bytes])
  }

  function Flatten(parts: seq<seq<byte>>): seq<byte>
  {
    if parts == [] then [] else Flatten(parts[..|parts| - 1]) + parts[|parts| - 1]
  }

  /** Full packets' payloads so far, and the payload of the packet being filled. */
  datatype Split = Split(done: seq<seq<byte>>, cur: seq<byte>)

  /**
   * After each entry: once the current payload reaches 0xFFFF bytes, its first
   * 0xFFFF bytes close a packet and the rest starts the next one.
   */
  function Step(sp: Split, field: seq<byte>): Split
  {
    var c := sp.cur + field;
    if |c| >= MaxPayload then Split(sp.done + [c[..MaxPayload]], c[MaxPayload..]) else Split(sp.done, c)
  }

  /** Fields appended in order; every packet it closes is a full one. */
  function Packetize(initial: seq<byte>, fields: seq<seq<byte>>): (r: Split)
    ensures forall j :: 0 <= j < |r.done| ==> |r.done[j]| == MaxPayload
  {
    if fields == [] then Split([], initial)
    else Step(Packetize(initial, fields[..|fields| - 1]), fields[|fields| - 1])
  }

  /**
   * When no field is longer than 0xFFFF bytes, every closed packet holds exactly
   * 0xFFFF bytes, the last holds fewer, and together they hold the whole
   * payload in order.
   */
  lemma {:induction false} PacketizeSizes(initial: seq<byte>, fields: seq<seq<byte>>)
    requires |initial| < MaxPayload
    requires forall i :: 0 <= i < |fields| ==> |fields[i]| <= MaxPayload
    ensures var sp := Packetize(initial, fields);
      && (forall j :: 0 <= j < |sp.done| ==> |sp.done[j]| == MaxPayload)
      && |sp.cur| < MaxPayload
      && Flatten(sp.done) + sp.cur == initial + Flatten(fields)
  {
    if fields != [] {
      var front := fields[..|fields| - 1];
      var f := fields[|fields| - 1];
      PacketizeSizes(initial, front);
      var sp := Packetize(initial, front);
      var c := sp.cur + f;
      if |c| >= MaxPayload {
        assert (sp.done + [c[..MaxPayload]])[..|sp.done|] == sp.done;
        calc {
          Flatten(sp.done + [c[..MaxPayload]]) + c[MaxPayload..];
          Flatten(sp.done) + c[..MaxPayload] + c[MaxPayload..];
          { assert c[..MaxPayload] + c[MaxPayload..] == c; }
          Flatten(sp.done) + sp.cur + f;
          initial + Flatten(front) + f;
          { assert fields[..|fields| - 1] == front; }
          initial + Flatten(fields);
        }
      } else {
        assert fields[..|fields| - 1] == front;
        assert Packetize(initial, fields) == Split(sp.done, c);
        assert Flatten(sp.done) + c == initial + Flatten(front) + f;
      }
    }
  }

  /** A payload shorter than 0xFFFF bytes stays in one packet. */
  lemma {:induction false} NoSplitWhileSmall(initial: seq<byte>, fields: seq<seq<byte>>)
    requires |initial + Flatten(fields)| < MaxPayload
    ensures Packetize(initial, fields) == Split([], initial + Flatten(fields))
  {
    if fields != [] {
      var front := fields[..|fields| - 1];
      NoSplitWhileSmall(initial, front);
      assert initial + Flatten(front) + fields[|fields| - 1] == initial + Flatten(fields);
    }
  }

  /** The checksum function of the framework, applied to header bytes 2 to 8, kept to 16 bits. */
  function PacketHeader(size: nat, typeId: nat, checksum: seq<byte> -> nat): (h: seq<byte>)
    requires size < Two16 && typeId < Two32
    ensures |h| == HeaderSize
    ensures DecodeBE16(h[2..4]) == size && DecodeBE32(h[4..]) == typeId
    ensures h[..2] == BE16(checksum(h[2..]) % Two16)
  {
    var tail := BE16(size) + BE32(typeId);
    BE16RoundTrip(size);
    BE32RoundTrip(typeId);
    assert (BE16(checksum(tail) % Two16) + tail)[2..] == tail;
    BE16(checksum(tail) % Two16) + tail
  }

  /** Closed packets, each behind a header declaring 0xFFFF bytes. */
  function RenderDone(done: seq<seq<byte>>, typeId: nat, checksum: seq<byte> -> nat): seq<byte>
    requires typeId < Two32
  {
    if done == [] then []
    else RenderDone(done[..|done| - 1], typeId, checksum) + PacketHeader(MaxPayload, typeId, checksum) + done[|done| - 1]
  }

  /**
   * `serialize(e)` as a value: the packets of the event with the given type,
   * ids and mapping entries. The last packet's size has the 16-bit truncation
   * of the source's `htons`.
   */
  function Serialized(typeId: nat, sourceId: nat, destinationId: nat, entries: seq<Entry>,
                      checksum: seq<byte> -> nat): (r: Result<seq<byte>>)
    requires typeId < Two32 && sourceId < Two32 && destinationId < Two32
    ensures r.Err? <==> EncodeEntries(entries).Err?
  {
    match EncodeEntries(entries)
    case Err(m) => Err(m)
    case Ok(fields) =>
      var sp := Packetize(BE32(sourceId) + BE32(destinationId), fields);
      Ok(RenderDone(sp.done, typeId, checksum) + PacketHeader(|sp.cur| % Two16, typeId, checksum) + sp.cur)
  }

  /** An event whose payload is shorter than 0xFFFF bytes is one packet declaring that length. */
  lemma SmallEventIsOnePacket(typeId: nat, sourceId: nat, destinationId: nat, entries: seq<Entry>,
                              checksum: seq<byte> -> nat)
    requires typeId < Two32 && sourceId < Two32 && destinationId < Two32
    requires EncodeEntries(entries).Ok?
    requires HeaderSize + |Flatten(EncodeEntries(entries).value)| < MaxPayload
    ensures var payload := BE32(sourceId) + BE32(destinationId) + Flatten(EncodeEntries(entries).value);
      Serialized(typeId, sourceId, destinationId, entries, checksum)
        == Ok(PacketHeader(|payload|, typeId, checksum) + payload)
  {
    var initial := BE32(sourceId) + BE32(destinationId);
    var fields := EncodeEntries(entries).value;
    var payload := initial + Flatten(fields);
    var header := PacketHeader(|payload|, typeId, checksum);
    calc {
      Serialized(typeId, sourceId, destinationId, entries, checksum);
    ==
      Ok(RenderDone(Packetize(initial, fields).done, typeId, checksum)
         + PacketHeader(|Packetize(initial, fields).cur| % Two16, typeId, checksum) + Packetize(initial, fields).cur);
    == { NoSplitWhileSmall(initial, fields);
         assert |payload| % Two16 == |payload|; }
      Ok(RenderDone([], typeId, checksum) + header + payload);
    == { assert RenderDone([], typeId, checksum) == [];
         assert [] + header + payload == header + payload; }
      Ok(header + payload);
    }
  }

  /** The header reserved for a packet before its size and checksum are known. */
  function Placeholder(typeId: nat): (h: seq<byte>)
    requires typeId < Two32
    ensures |h| == HeaderSize
  {
    [0, 0, 0, 0] + BE32(typeId)
  }

  /** Writing `bytes` over `data` at offset `at`. */
  function Patch(data: seq<byte>, at: nat, bytes: seq<byte>): (r: seq<byte>)
    requires at + |bytes| <= |data|
    ensures |r| == |data| && r[..at] == data[..at] && r[at..at + |bytes|] == bytes
    ensures r[at + |bytes|..] == data[at + |bytes|..]
  {
    data[..at] + bytes + data[at + |bytes|..]
  }

  /** Patching the size and then the checksum into a placeholder makes a finished header. */
  lemma {:induction false} FinishHeader(prefix: seq<byte>, payload: seq<byte>, size: nat, typeId: nat,
                                        checksum: seq<byte> -> nat)
    requires size < Two16 && typeId < Two32
    ensures var data := prefix + Placeholder(typeId) + payload;
      var b := |prefix|;
      var sized := Patch(data, b + 2, BE16(size));
      Patch(sized, b, BE16(checksum(sized[b + 2..b + HeaderSize]) % Two16))
        == prefix + PacketHeader(size, typeId, checksum) + payload
  {
    var data := prefix + Placeholder(typeId) + payload;
    var b := |prefix|;
    var sized := Patch(data, b + 2, BE16(size));
    var tail := BE16(size) + BE32(typeId);
    assert sized == prefix + [0, 0] + tail + payload;
    assert sized[b + 2..b + HeaderSize] == tail;
    var done := Patch(sized, b, BE16(checksum(tail) % Two16));
    assert done == prefix + (BE16(checksum(tail) % Two16) + tail) + payload;
  }

  /**
   * Closing a full packet in the buffer: its header gets the size 0xFFFF and
   * its checksum, and a placeholder header goes in front of the overflow.
   */
  lemma {:induction false} SplitLayout(done: seq<seq<byte>>, c: seq<byte>, typeId: nat,
                                       checksum: seq<byte> -> nat)
    requires typeId < Two32 && |c| >= MaxPayload
    ensures var b := |RenderDone(done, typeId, checksum)|;
      var data := RenderDone(done, typeId, checksum) + Placeholder(typeId) + c;
      var sized := Patch(data, b + 2, BE16(MaxPayload));
      var closed := Patch(sized, b, BE16(checksum(sized[b + 2..b + HeaderSize]) % Two16));
      var cut := b + HeaderSize + MaxPayload;
      && cut <= |closed|
      && closed[..cut] + Placeholder(typeId) + closed[cut..]
         == RenderDone(done + [c[..MaxPayload]], typeId, checksum) + Placeholder(typeId) + c[MaxPayload..]
      && |RenderDone(done + [c[..MaxPayload]], typeId, checksum)| == cut
  {
    var prefix := RenderDone(done, typeId, checksum);
    var b := |prefix|;
    var data := prefix + Placeholder(typeId) + c;
    var sized := Patch(data, b + 2, BE16(MaxPayload));
    var closed := Patch(sized, b, BE16(checksum(sized[b + 2..b + HeaderSize]) % Two16));
    FinishHeader(prefix, c, MaxPayload, typeId, checksum);
    var h := PacketHeader(MaxPayload, typeId, checksum);
    assert closed == prefix + h + c;
    var cut := b + HeaderSize + MaxPayload;
    assert c == c[..MaxPayload] + c[MaxPayload..];
    assert closed == (prefix + h + c[..MaxPayload]) + c[MaxPayload..];
    assert closed[..cut] == prefix + h + c[..MaxPayload];
    assert closed[cut..] == c[MaxPayload..];
    var done' := done + [c[..MaxPayload]];
    assert done'[..|done'| - 1] == done;
    assert RenderDone(done', typeId, checksum) == prefix + h + c[..MaxPayload];
  }

  /**
   * One entry's bytes go at the end of the buffer; when the current packet's
   * payload has reached 0xFFFF bytes, its header is finished and a placeholder
   * header is inserted in front of the overflow.
   */
  method AppendField(data: seq<byte>, beginning: nat, bytes: seq<byte>, typeId: nat,
                     checksum: seq<byte> -> nat, ghost sp: Split)
    returns (data': seq<byte>, beginning': nat)
    requires typeId < Two32
    requires beginning == |RenderDone(sp.done, typeId, checksum)|
    requires data == RenderDone(sp.done, typeId, checksum) + Placeholder(typeId) + sp.cur
    ensures var next := Step(sp, bytes);
      && beginning' == |RenderDone(next.done, typeId, checksum)|
      && data' == RenderDone(next.done, typeId, checksum) + Placeholder(typeId) + next.cur
  {
    ghost var c := sp.cur + bytes;
    data' := data + bytes;
    assert data' == RenderDone(sp.done, typeId, checksum) + Placeholder(typeId) + c;
    beginning' := beginning;
    if |data'| >= beginning + HeaderSize + MaxPayload {
      SplitLayout(sp.done, c, typeId, checksum);
      var sized := Patch(data', beginning + 2, BE16(MaxPayload));
      var sum := checksum(sized[beginning + 2..beginning + HeaderSize]) % Two16;
      var closed := Patch(sized, beginning, BE16(sum));
      beginning' := beginning + HeaderSize + MaxPayload;
      data' := closed[..beginning'] + Placeholder(typeId) + closed[beginning'..];
    }
  }

  /**
   * `serialize` as the source writes it: the buffer grows entry by entry,
   * and each time the current packet's payload reaches 0xFFFF bytes its header
   * is patched and a new placeholder header is inserted. `info` is the
   * registered mapping of the event's type, `None` when the type is unknown.
   */
  method Serialize(typeId: nat, sourceId: nat, destinationId: nat, info: Option<seq<Entry>>,
                   checksum: seq<byte> -> nat) returns (r: Result<Option<seq<byte>>>)
    requires typeId < Two32 && sourceId < Two32 && destinationId < Two32
    ensures info.None? ==> r == Ok(None)
    ensures info.Some? ==>
      var spec := Serialized(typeId, sourceId, destinationId, info.value, checksum);
      (r.Err? <==> spec.Err?) && (r.Ok? ==> r.value == Some(spec.value))
  {
    if info.None? {
      return Ok(None);
    }
    var entries := info.value;
    var initial := BE32(sourceId) + BE32(destinationId);
    var data: seq<byte> := Placeholder(typeId) + initial;
    var beginning: nat := 0;
    var i := 0;
    ghost var fields: seq<seq<byte>> := [];
    while i < |entries|
      invariant i <= |entries|
      invariant EncodeEntries(entries[..i]) == Ok(fields)
      invariant var sp := Packetize(initial, fields);
        && beginning == |RenderDone(sp.done, typeId, checksum)|
        && data == RenderDone(sp.done, typeId, checksum) + Placeholder(typeId) + sp.cur
    {
      ghost var sp := Packetize(initial, fields);
      assert entries[..i + 1][..i] == entries[..i];
      var bytes: seq<byte> := [];
      if entries[i].serialize {
        var enc := EncodeField(entries[i].value);
        if enc.Err? {
          return Err(enc.error);
        }
        bytes := enc.value;
      }
      ghost var front := fields;
      fields := fields + [bytes];
      assert fields[..|fields| - 1] == front;
      data, beginning := AppendField(data, beginning, bytes, typeId, checksum, sp);
      i := i + 1;
    }
    assert entries[..i] == entries;
    ghost var sp := Packetize(initial, fields);
    var size := (|data| - beginning - HeaderSize) % Two16;
    var sized := Patch(data, beginning + 2, BE16(size));
    var sum := checksum(sized[beginning + 2..beginning + HeaderSize]) % Two16;
    data := Patch(sized, beginning, BE16(sum));
    FinishHeader(RenderDone(sp.done, typeId, checksum), sp.cur, size, typeId, checksum);
    r := Ok(Some(data));
  }

  /** An event as the output stream receives it. */
  datatype Event = Event(typeId: nat, sourceId: nat, destinationId: nat)

  /** What `write` hands to the next stream: nothing, a null event, or raw bytes. */
  datatype Forwarded = NothingForwarded | NullForwarded | RawForwarded(bytes: seq<byte>)

  class Output {
    var processOut: bool

    constructor ()
      ensures processOut
    {
      processOut := true;
    }

    /** `process(in, out)`: only the output flag matters. */
    method Process(inFlag: bool, outFlag: bool)
      modifies this
      ensures processOut == outFlag
    {
      processOut := outFlag;
    }

    /**
     * `write`: refused with a shutdown error when output processing is off; a
     * null event is forwarded as is; an event of an unregistered type is
     * dropped. In every other case one event is acknowledged.
     */
    method Write(e: Option<Event>, info: Option<seq<Entry>>, checksum: seq<byte> -> nat)
      returns (r: Result<(Forwarded, nat)>)
      requires e.Some? ==> e.value.typeId < Two32 && e.value.sourceId < Two32 && e.value.destinationId < Two32
      ensures !processOut ==> r == Err("BBDO: output stream is shutdown")
      ensures processOut && e.None? ==> r == Ok((NullForwarded, 1))
      ensures processOut && e.Some? && info.None? ==> r == Ok((NothingForwarded, 1))
      ensures processOut && e.Some? && info.Some? ==>
        var spec := Serialized(e.value.typeId, e.value.sourceId, e.value.destinationId, info.value, checksum);
        (r.Err? <==> spec.Err?) && (r.Ok? ==> r.value == (RawForwarded(spec.value), 1))
    {
      if !processOut {
        return Err("BBDO: output stream is shutdown");
      }
      if e.None? {
        return Ok((NullForwarded, 1));
      }
      var serialized := Serialize(e.value.typeId, e.value.sourceId, e.value.destinationId, info, checksum);
      if serialized.Err? {
        return Err(serialized.error);
      }
      if serialized.value.Some? {
        return Ok((RawForwarded(serialized.value.value), 1));
      }
      r := Ok((NothingForwarded, 1));
    }
  }
}
