/** sump2/devices/ols.py: the Open Logic Sniffer on top of the serial
    client. It reads the device's metadata reply into a dictionary keyed by
    field name and sizes the capture from the number of probes. */
module Ols {
  import opened Common
  import opened Wire
  import opened SumpOps
  import opened Lanes
  import RS232

  // ---------------------------------------------------------------------
  // Field readers

  /** `read_string`: one byte is read before the loop and one more per
      pass, up to the first NUL, which is consumed. Past the end of the
      stream `read(1)` returns '' for ever, which is never NUL. */
  method ReadString(port: Port) returns (r: Result<seq<int>>)
    requires port.Valid()
    modifies port`pos
    ensures port.Valid()
    ensures r == CString(old(port.Remaining())).result
    ensures port.pos == old(port.pos) + CString(old(port.Remaining())).used
  {
    ghost var s0 := port.Remaining();
    ghost var p0 := port.pos;
    var s: seq<int> := [];
    var c := port.Read(1);
    while c != [0]
      invariant port.Valid() && port.input == old(port.input)
      invariant |s| <= |s0| && s == s0[..|s|] && forall j :: 0 <= j < |s| ==> s[j] != 0
      invariant |c| <= 1 && port.pos == p0 + |s| + |c|
      invariant c == [] ==> |s| == |s0|
      invariant c != [] ==> |s| < |s0| && c[0] == s0[|s|]
      decreases |s0| - |s|
    {
      if c == [] {
        // `s.append('')` for ever: the loop does not end.
        CStringAfter(s0, |s|);
        return Err(EndlessLoop);
      }
      assert s0[..|s| + 1] == s + c;
      s := s + c;
      DropDrop(port.input, p0, |s|);
      c := port.Read(1);
    }
    CStringAfter(s0, |s|);
    assert s0[|s|..][0] == 0 && s + [] == s;
    return Ok(s);
  }

  /** `read_uint`: `struct.unpack('>I', read(4))`, a struct error when
      fewer than four bytes arrive. */
  method ReadUint(port: Port) returns (r: Result<int>)
    requires port.Valid()
    modifies port`pos
    ensures port.Valid()
    ensures |old(port.Remaining())| >= 4 ==>
      r == Ok(BigEndian(old(port.Remaining()))) && port.pos == old(port.pos) + 4
    ensures |old(port.Remaining())| < 4 ==> r == Err(StructError) && port.pos == |port.input|
  {
    var b := port.Read(4);
    if |b| < 4 {
      return Err(StructError);
    }
    return Ok(BigEndian(b));
  }

  /** `read_ubyte`: `struct.unpack('B', read(1))`. */
  method ReadUbyte(port: Port) returns (r: Result<int>)
    requires port.Valid()
    modifies port`pos
    ensures port.Valid()
    ensures |old(port.Remaining())| >= 1 ==>
      r == Ok(old(port.Remaining())[0]) && port.pos == old(port.pos) + 1
    ensures |old(port.Remaining())| < 1 ==> r == Err(StructError) && port.pos == old(port.pos)
  {
    var b := port.Read(1);
    if |b| < 1 {
      return Err(StructError);
    }
    return Ok(b[0]);
  }

  // ---------------------------------------------------------------------
  // The key table

  datatype Reader = StringReader | UintReader | UbyteReader

  datatype KeyInfo = KeyInfo(name: string, reader: Reader)

  /** `metadata_keys`: the field name and reader for each key. */
  function MetadataKey(k: int): Option<KeyInfo>
  {
    match k
    case 0x01 => Some(KeyInfo("Device Name", StringReader))
    case 0x02 => Some(KeyInfo("FPGA Firmware Version", StringReader))
    case 0x03 => Some(KeyInfo("PIC Firmware Version", StringReader))
    case 0x20 => Some(KeyInfo("N Probes", UintReader))
    case 0x21 => Some(KeyInfo("Sample Memory", UintReader))
    case 0x22 => Some(KeyInfo("Dynamic Memory", UintReader))
    case 0x23 => Some(KeyInfo("Max Sample Rate", UintReader))
    case 0x24 => Some(KeyInfo("Protocol Version", UintReader))
    case 0x40 => Some(KeyInfo("N Probes (short)", UbyteReader))
    case 0x41 => Some(KeyInfo("Protocol Version (short)", UbyteReader))
    case _ => None
  }

  /** The key whose field has name `name`, 0 (the terminator) for none. */
  function KeyOfName(name: string): int
  {
    if name == "Device Name" then 0x01
    else if name == "FPGA Firmware Version" then 0x02
    else if name == "PIC Firmware Version" then 0x03
    else if name == "N Probes" then 0x20
    else if name == "Sample Memory" then 0x21
    else if name == "Dynamic Memory" then 0x22
    else if name == "Max Sample Rate" then 0x23
    else if name == "Protocol Version" then 0x24
    else if name == "N Probes (short)" then 0x40
    else if name == "Protocol Version (short)" then 0x41
    else 0
  }

  /** A metadata value: the text of a string field or a number. */
  datatype MdValue = Str(text: seq<int>) | Num(n: int)

  type Metadata = map<string, MdValue>

  /** Keys 1-3 name strings, 0x20-0x24 32-bit numbers and 0x40-0x41 single
      bytes. */
  lemma MetadataKeysTable(k: int)
    ensures MetadataKey(k).Some? <==> 1 <= k <= 3 || 0x20 <= k <= 0x24 || 0x40 <= k <= 0x41
    ensures MetadataKey(k).Some? ==>
      (MetadataKey(k).value.reader == StringReader <==> k <= 3) &&
      (MetadataKey(k).value.reader == UintReader <==> 0x20 <= k <= 0x24) &&
      (MetadataKey(k).value.reader == UbyteReader <==> 0x40 <= k)
  {
  }

  /** No two keys share a field name: the name gives the key back. */
  lemma KeyNames(k: int)
    requires MetadataKey(k).Some?
    ensures KeyOfName(MetadataKey(k).value.name) == k
  {
  }

  /** What the reader for a field makes of the bytes after its key. */
  function ReadValue(reader: Reader, s: seq<int>): (r: Decoded<MdValue>)
    requires IsBytes(s)
    ensures r.used <= |s|
  {
    match reader
    case StringReader =>
      var c := CString(s);
      if c.result.Err? then Decoded(Err(c.result.error), c.used) else Decoded(Ok(Str(c.result.value)), c.used)
    case UintReader =>
      if |s| < 4 then Decoded(Err(StructError), |s|)
      else
        assert IsBytes(s[..4]);
        Decoded(Ok(Num(BigEndian(s))), 4)
    case UbyteReader =>
      if |s| < 1 then Decoded(Err(StructError), 0) else Decoded(Ok(Num(s[0])), 1)
  }

  /** The `metadata` loop over the bytes `s` still to arrive, with `md` the
      fields read so far. Key `0x00` ends it; any other key not in the
      table, the '' of an exhausted stream included, raises ValueError. */
  function MetadataOf(s: seq<int>, md: Metadata): (r: Decoded<Metadata>)
    requires IsBytes(s)
    ensures r.used <= |s|
    decreases |s|
  {
    if |s| == 0 then Decoded(Err(ValueError), 0)
    else if s[0] == 0 then Decoded(Ok(md), 1)
    else if MetadataKey(s[0]).None? then Decoded(Err(ValueError), 1)
    else
      var info := MetadataKey(s[0]).value;
      var v := ReadValue(info.reader, s[1..]);
      if v.result.Err? then Decoded(Err(v.result.error), 1 + v.used)
      else
        var rest := MetadataOf(s[1 + v.used..], md[info.name := v.result.value]);
        Decoded(rest.result, 1 + v.used + rest.used)
  }

  /** The reply to command `0x04` for the whole stream `s`. */
  function MetadataReply(s: seq<int>): Decoded<Metadata>
    requires IsBytes(s)
  {
    MetadataOf(s, map[])
  }

  /** A value of the kind its reader produces. */
  predicate OfKind(reader: Reader, v: MdValue)
  {
    match reader
    case StringReader => v.Str? && IsBytes(v.text) && 0 !in v.text
    case UintReader => v.Num? && 0 <= v.n < 4294967296
    case UbyteReader => v.Num? && IsByte(v.n)
  }

  /** Every field present holds a value of its key's kind. */
  predicate WellKinded(md: Metadata)
  {
    forall name :: name in md && MetadataKey(KeyOfName(name)).Some? ==>
      OfKind(MetadataKey(KeyOfName(name)).value.reader, md[name])
  }

  lemma ReadValueKind(reader: Reader, s: seq<int>)
    requires IsBytes(s)
    ensures ReadValue(reader, s).result.Ok? ==> OfKind(reader, ReadValue(reader, s).result.value)
  {
    if reader == StringReader {
      CStringBytes(s);
    }
  }

  /** Whatever the device sends, the fields read are of their keys' kinds:
      strings for the names, 32-bit numbers for the sizes and rates,
      bytes for the short forms. */
  lemma {:induction false} MetadataWellKinded(s: seq<int>, md: Metadata)
    requires IsBytes(s) && WellKinded(md)
    ensures MetadataOf(s, md).result.Ok? ==> WellKinded(MetadataOf(s, md).result.value)
    decreases |s|
  {
    if |s| > 0 && s[0] != 0 && MetadataKey(s[0]).Some? {
      var info := MetadataKey(s[0]).value;
      var v := ReadValue(info.reader, s[1..]);
      if v.result.Ok? {
        ReadValueKind(info.reader, s[1..]);
        KeyNames(s[0]);
        var md' := md[info.name := v.result.value];
        assert WellKinded(md');
        MetadataWellKinded(s[1 + v.used..], md');
      }
    }
  }

  // ---------------------------------------------------------------------
  // The reply a device sends

  /** One field as a device sends it: a key of the table and a value of
      its kind. */
  datatype Entry = Entry(key: int, value: MdValue)

  predicate ValidEntry(e: Entry)
  {
    MetadataKey(e.key).Some? && OfKind(MetadataKey(e.key).value.reader, e.value)
  }

  function EncodeEntry(e: Entry): (r: seq<int>)
    requires ValidEntry(e)
    ensures IsBytes(r) && |r| >= 1 && r[0] == e.key
  {
    match MetadataKey(e.key).value.reader
    case StringReader => [e.key] + e.value.text + [0]
    case UintReader => [e.key] + BeBytes(e.value.n)
    case UbyteReader => [e.key, e.value.n]
  }

  function Encode(es: seq<Entry>): (r: seq<int>)
    requires forall i :: 0 <= i < |es| ==> ValidEntry(es[i])
    ensures IsBytes(r)
  {
    if |es| == 0 then [] else EncodeEntry(es[0]) + Encode(es[1..])
  }

  /** `md[n] = value` for each field in the order received. */
  function Apply(md: Metadata, es: seq<Entry>): Metadata
    requires forall i :: 0 <= i < |es| ==> MetadataKey(es[i].key).Some?
    decreases |es|
  {
    if |es| == 0 then md else Apply(md[MetadataKey(es[0].key).value.name := es[0].value], es[1..])
  }

  /** A field's value is read back from its bytes after the key, whatever
      follows. */
  lemma ValueOfEntry(e: Entry, tail: seq<int>)
    requires ValidEntry(e) && IsBytes(tail)
    ensures IsBytes(EncodeEntry(e)[1..] + tail)
    ensures ReadValue(MetadataKey(e.key).value.reader, EncodeEntry(e)[1..] + tail) ==
      Decoded(Ok(e.value), |EncodeEntry(e)| - 1)
  {
    var b := EncodeEntry(e);
    var s := b[1..] + tail;
    assert IsBytes(s) by {
      forall i | 0 <= i < |s| ensures IsByte(s[i]) {
        if i < |b| - 1 {
          assert s[i] == b[i + 1];
        } else {
          assert s[i] == tail[i - |b| + 1];
        }
      }
    }
    match MetadataKey(e.key).value.reader
    case StringReader =>
      var t := e.value.text;
      assert s == t + [0] + tail;
      CStringOf(t, tail);
    case UintReader =>
      assert s[..4] == BeBytes(e.value.n);
      BigEndianOfBeBytes(e.value.n);
    case UbyteReader =>
      assert s[0] == e.value.n;
  }

  /** One step of the `metadata` loop after a key in the table. */
  lemma MetadataNext(s: seq<int>, md: Metadata)
    requires IsBytes(s) && |s| > 0 && s[0] != 0 && MetadataKey(s[0]).Some?
    ensures var info := MetadataKey(s[0]).value;
      var v := ReadValue(info.reader, s[1..]);
      v.result.Ok? ==>
        MetadataOf(s, md) == Decoded(MetadataOf(s[1 + v.used..], md[info.name := v.result.value]).result,
                                     1 + v.used + MetadataOf(s[1 + v.used..], md[info.name := v.result.value]).used)
  {
  }

  /** One field's bytes are read back as that field, whatever follows. */
  lemma MetadataEntry(e: Entry, tail: seq<int>, md: Metadata)
    requires ValidEntry(e) && IsBytes(tail)
    ensures IsBytes(EncodeEntry(e) + tail)
    ensures MetadataOf(EncodeEntry(e) + tail, md).result ==
      MetadataOf(tail, md[MetadataKey(e.key).value.name := e.value]).result
    ensures MetadataOf(EncodeEntry(e) + tail, md).used ==
      |EncodeEntry(e)| + MetadataOf(tail, md[MetadataKey(e.key).value.name := e.value]).used
  {
    var b := EncodeEntry(e);
    var s := b + tail;
    ValueOfEntry(e, tail);
    assert s[1..] == b[1..] + tail;
    assert IsBytes(s) by {
      forall i | 0 <= i < |s| ensures IsByte(s[i]) {
        if i > 0 {
          assert s[i] == s[1..][i - 1];
        }
      }
    }
    assert s[0] == e.key && e.key != 0;
    MetadataNext(s, md);
    assert s[|b|..] == tail;
  }

  /** A reply ended by key `0x00` is read back as the fields sent, each
      stored under its name in the order received; the terminator is
      consumed and what follows it is not. */
  lemma {:induction false} MetadataRoundTrip(es: seq<Entry>, after: seq<int>, md: Metadata)
    requires forall i :: 0 <= i < |es| ==> ValidEntry(es[i])
    requires IsBytes(after)
    ensures IsBytes(Encode(es) + [0] + after)
    ensures MetadataOf(Encode(es) + [0] + after, md) == Decoded(Ok(Apply(md, es)), |Encode(es)| + 1)
    decreases |es|
  {
    if |es| == 0 {
      assert Encode(es) + [0] + after == [0] + after;
    } else {
      var e, rest := EncodeEntry(es[0]), Encode(es[1..]);
      assert Encode(es) + [0] + after == e + (rest + [0] + after);
      MetadataRoundTrip(es[1..], after, md[MetadataKey(es[0].key).value.name := es[0].value]);
      MetadataEntry(es[0], rest + [0] + after, md);
    }
  }

  /** A field sent more than once keeps its last value: after the fields
      `es`, the entry of key `es[i]` holds `es[i]`'s value when no later
      field has that key. */
  lemma {:induction false} ApplyLast(md: Metadata, es: seq<Entry>, i: nat)
    requires forall j :: 0 <= j < |es| ==> MetadataKey(es[j].key).Some?
    requires i < |es| && forall j :: i < j < |es| ==> es[j].key != es[i].key
    ensures MetadataKey(es[i].key).value.name in Apply(md, es)
    ensures Apply(md, es)[MetadataKey(es[i].key).value.name] == es[i].value
    decreases |es|
  {
    var md' := md[MetadataKey(es[0].key).value.name := es[0].value];
    if i == 0 {
      forall j | 0 <= j < |es[1..]|
        ensures MetadataKey(es[1..][j].key).value.name != MetadataKey(es[0].key).value.name
      {
        KeyNames(es[1..][j].key);
        KeyNames(es[0].key);
      }
      ApplyKeeps(md', es[1..], MetadataKey(es[0].key).value.name);
    } else {
      ApplyLast(md', es[1..], i - 1);
    }
  }

  /** Fields whose names differ from `name` leave its entry alone. */
  lemma {:induction false} ApplyKeeps(md: Metadata, es: seq<Entry>, name: string)
    requires forall j :: 0 <= j < |es| ==> MetadataKey(es[j].key).Some? && MetadataKey(es[j].key).value.name != name
    requires name in md
    ensures name in Apply(md, es) && Apply(md, es)[name] == md[name]
    decreases |es|
  {
    if |es| > 0 {
      ApplyKeeps(md[MetadataKey(es[0].key).value.name := es[0].value], es[1..], name);
    }
  }

  /** The same key sent twice: the dictionary has the second value. */
  lemma RepeatedKeyOverwrites(k: int, first: MdValue, second: MdValue, after: seq<int>)
    requires ValidEntry(Entry(k, first)) && ValidEntry(Entry(k, second)) && IsBytes(after)
    ensures var s := EncodeEntry(Entry(k, first)) + EncodeEntry(Entry(k, second)) + [0] + after;
      IsBytes(s) && MetadataReply(s).result == Ok(map[MetadataKey(k).value.name := second])
  {
    var e1, e2 := Entry(k, first), Entry(k, second);
    var es := [e1, e2];
    var name := MetadataKey(k).value.name;
    assert es[1..] == [e2] && [e2][1..] == [];
    assert Encode([e2]) == EncodeEntry(e2) + Encode([]);
    assert Encode(es) == EncodeEntry(e1) + Encode([e2]);
    assert EncodeEntry(e1) + EncodeEntry(e2) + [0] + after == Encode(es) + [0] + after;
    MetadataRoundTrip(es, after, map[]);
    assert Apply(map[name := second], []) == map[name := second];
    assert Apply(map[], es) == Apply(map[name := first], [e2]);
    assert Apply(map[name := first], [e2]) == Apply(map[name := first][name := second], []);
    assert map[name := first][name := second] == map[name := second];
  }

  /** A key byte outside the table stops the reply with ValueError, and so
      does an exhausted stream. */
  lemma UnknownKeyRaises(s: seq<int>, md: Metadata)
    requires IsBytes(s)
    requires |s| == 0 || (s[0] != 0 && MetadataKey(s[0]).None?)
    ensures MetadataOf(s, md).result == Err(ValueError)
    ensures |s| > 0 ==> MetadataOf(s, md).used == 1
  {
  }

  // ---------------------------------------------------------------------
  // Reading metadata from the port

  /** The reader `uf` the table names for a field. */
  method ReadField(port: Port, reader: Reader) returns (r: Result<MdValue>)
    requires port.Valid()
    modifies port`pos
    ensures port.Valid()
    ensures r == ReadValue(reader, old(port.Remaining())).result
    ensures port.pos == old(port.pos) + ReadValue(reader, old(port.Remaining())).used
  {
    match reader
    case StringReader =>
      var t := ReadString(port);
      if t.Err? {
        return Err(t.error);
      }
      return Ok(Str(t.value));
    case UintReader =>
      var n := ReadUint(port);
      if n.Err? {
        return Err(n.error);
      }
      return Ok(Num(n.value));
    case UbyteReader =>
      var n := ReadUbyte(port);
      if n.Err? {
        return Err(n.error);
      }
      return Ok(Num(n.value));
  }

  /** The loop of `metadata`: `key = read(1)` until key `0x00`, a field
      stored under its name for every key of the table. */
  method ReadMetadata(port: Port) returns (r: Result<Metadata>)
    requires port.Valid()
    modifies port`pos
    ensures port.Valid()
    ensures r == MetadataReply(old(port.Remaining())).result
    ensures port.pos == old(port.pos) + MetadataReply(old(port.Remaining())).used
  {
    ghost var s0 := port.Remaining();
    ghost var p0 := port.pos;
    var md: Metadata := map[];
    while true
      invariant port.Valid() && port.input == old(port.input) && p0 <= port.pos
      invariant MetadataOf(s0, map[]).result == MetadataOf(port.Remaining(), md).result
      invariant MetadataOf(s0, map[]).used == (port.pos - p0) + MetadataOf(port.Remaining(), md).used
      decreases |port.input| - port.pos
    {
      var done;
      done, r := ReadEntry(port, md);
      if done {
        return;
      }
      md := r.value;
    }
  }

  /** One pass of the `metadata` loop: `done` when the loop ends, with the
      outcome of the rest of the reply; otherwise the fields so far, some
      bytes consumed and the outcome unchanged. */
  method ReadEntry(port: Port, md: Metadata) returns (done: bool, r: Result<Metadata>)
    requires port.Valid()
    modifies port`pos
    ensures port.Valid() && port.input == old(port.input)
    ensures done ==> r == MetadataOf(old(port.Remaining()), md).result
    ensures done ==> port.pos == old(port.pos) + MetadataOf(old(port.Remaining()), md).used
    ensures !done ==> r.Ok? && port.pos > old(port.pos)
    ensures !done ==> MetadataOf(old(port.Remaining()), md).result == MetadataOf(port.Remaining(), r.value).result
    ensures !done ==>
      MetadataOf(old(port.Remaining()), md).used == (port.pos - old(port.pos)) + MetadataOf(port.Remaining(), r.value).used
  {
    ghost var s := port.Remaining();
    var key := port.Read(1);
    if key == [0] {
      return true, Ok(md);
    }
    if key == [] || MetadataKey(key[0]).None? {
      return true, Err(ValueError);
    }
    assert key[0] == s[0] && port.Remaining() == s[1..];
    var info := MetadataKey(key[0]).value;
    ghost var va := ReadValue(info.reader, s[1..]);
    var v := ReadField(port, info.reader);
    if v.Err? {
      return true, Err(v.error);
    }
    assert port.Remaining() == s[1 + va.used..];
    return false, Ok(md[info.name := v.value]);
  }

  // ---------------------------------------------------------------------
  // Auto-configuration

  /** `md.get(name, default)` for a numeric field; the fields it is used
      on are numeric whenever present (MetadataWellKinded). */
  function NumOr(md: Metadata, name: string, default: int): int
  {
    if name in md && md[name].Num? then md[name].n else default
  }

  /** `md.get('Sample Memory', 24576)`. */
  function SampleMemory(md: Metadata): int
  {
    NumOr(md, "Sample Memory", 24576)
  }

  /** `md.get('N Probes (short)', md.get('N Probes', None))`. */
  function Probes(md: Metadata): Option<int>
  {
    if "N Probes (short)" in md && md["N Probes (short)"].Num? then Some(md["N Probes (short)"].n)
    else if "N Probes (short)" !in md && "N Probes" in md && md["N Probes"].Num? then Some(md["N Probes"].n)
    else None
  }

  /** The `channel_groups` and `read_count` `_autoconfigure` sets for a
      probe count and sample memory `nb`; other counts change neither. */
  function ProbeConfig(probes: Option<int>, nb: int): Option<(int, int)>
  {
    match probes
    case Some(8) => Some((0xE, nb))
    case Some(16) => Some((0xC, FloorDiv(nb, 2)))
    case Some(32) => Some((0x0, FloorDiv(nb, 4)))
    case _ => None
  }

  lemma EightProbeLanes()
    ensures EnabledLanes(0xE, 4) == [0]
  {
    assert Pow2(1) == 2 && Pow2(2) == 4 && Pow2(3) == 8;
    assert Bit(0xE, 0) == 0 && Bit(0xE, 1) == 1 && Bit(0xE, 2) == 1 && Bit(0xE, 3) == 1;
    assert EnabledLanes(0xE, 1) == [0];
    assert EnabledLanes(0xE, 2) == [0];
    assert EnabledLanes(0xE, 3) == [0];
  }

  lemma SixteenProbeLanes()
    ensures EnabledLanes(0xC, 4) == [0, 1]
  {
    assert Pow2(1) == 2 && Pow2(2) == 4 && Pow2(3) == 8;
    assert Bit(0xC, 0) == 0 && Bit(0xC, 1) == 0 && Bit(0xC, 2) == 1 && Bit(0xC, 3) == 1;
    assert EnabledLanes(0xC, 1) == [0];
    assert EnabledLanes(0xC, 2) == [0, 1];
    assert EnabledLanes(0xC, 3) == [0, 1];
  }

  lemma ThirtyTwoProbeLanes()
    ensures EnabledLanes(0, 4) == [0, 1, 2, 3]
  {
    assert Pow2(1) == 2 && Pow2(2) == 4 && Pow2(3) == 8;
    assert Bit(0, 0) == 0 && Bit(0, 1) == 0 && Bit(0, 2) == 0 && Bit(0, 3) == 0;
    assert EnabledLanes(0, 1) == [0];
    assert EnabledLanes(0, 2) == [0, 1];
    assert EnabledLanes(0, 3) == [0, 1, 2];
  }

  /** With the default four channel groups, a configured capture enables
      one lane per eight probes and reads no more samples than fit the
      sample memory. */
  lemma AutoconfigFits(probes: Option<int>, nb: int)
    requires nb >= 0 && ProbeConfig(probes, nb).Some?
    ensures var (cg, rc) := ProbeConfig(probes, nb).value;
      8 * |EnabledLanes(cg, 4)| == probes.value && 0 <= rc && rc * |EnabledLanes(cg, 4)| <= nb
  {
    var (cg, rc) := ProbeConfig(probes, nb).value;
    var lanes := |EnabledLanes(cg, 4)|;
    if probes.value == 8 {
      EightProbeLanes();
      assert cg == 0xE && rc == nb && lanes == 1;
      assert rc * lanes == nb;
    } else if probes.value == 16 {
      SixteenProbeLanes();
      assert cg == 0xC && rc == nb / 2 && lanes == 2;
      assert rc * lanes == rc * 2 <= nb;
    } else {
      ThirtyTwoProbeLanes();
      assert cg == 0 && rc == nb / 4 && lanes == 4;
      assert rc * lanes == rc * 4 <= nb;
    }
  }

  /** The metadata a device reports makes the sample memory a size, never
      negative. */
  lemma SampleMemoryOfReply(s: seq<int>)
    requires IsBytes(s) && MetadataReply(s).result.Ok?
    ensures SampleMemory(MetadataReply(s).result.value) >= 0
  {
    MetadataWellKinded(s, map[]);
    assert KeyOfName("Sample Memory") == 0x21;
  }

  /** `OLS`: the serial client and the maximum sample rate, unknown until
      metadata are read for it. */
  class OLS {
    const sump: RS232.RS232Sump
    var maxSampleRate: Option<int>

    /** `OLS(...)` on a connected client; see `Autoconfigure` for the
        step `__init__` takes when no settings are given. */
    constructor (sump: RS232.RS232Sump)
      ensures this.sump == sump && maxSampleRate == None
    {
      this.sump := sump;
      maxSampleRate := None;
    }

    /** `metadata`: `0x04`, then the reply read into a dictionary. */
    method Metadata() returns (r: Result<Metadata>)
      requires sump.port.Valid()
      modifies sump.port`output, sump.port`pos
      ensures sump.port.Valid()
      ensures sump.port.output == old(sump.port.output) + [0x04]
      ensures r == MetadataReply(old(sump.port.Remaining())).result
      ensures sump.port.pos == old(sump.port.pos) + MetadataReply(old(sump.port.Remaining())).used
    {
      sump.port.Write([0x04]);
      r := ReadMetadata(sump.port);
    }

    /** `_autoconfigure`: the metadata, then no delay and, for 8, 16 or 32
        probes, one, two or four enabled groups sharing the sample memory.
        An exception from `metadata` changes no setting. */
    method Autoconfigure() returns (err: Option<Error>)
      requires sump.port.Valid()
      modifies sump.port`output, sump.port`pos
      modifies sump.settings`delayCount, sump.settings`channelGroups, sump.settings`readCount
      ensures sump.port.Valid()
      ensures sump.port.output == old(sump.port.output) + [0x04]
      ensures var md := MetadataReply(old(sump.port.Remaining())).result;
        err == (if md.Err? then Some(md.error) else None)
      ensures err.Some? ==> (sump.settings.delayCount == old(sump.settings.delayCount) &&
        sump.settings.channelGroups == old(sump.settings.channelGroups) &&
        sump.settings.readCount == old(sump.settings.readCount))
      ensures err.None? ==> sump.settings.delayCount == 0
      ensures err.None? ==>
        var md := MetadataReply(old(sump.port.Remaining())).result.value;
        var c := ProbeConfig(Probes(md), SampleMemory(md));
        (c.Some? ==> sump.settings.channelGroups == c.value.0 && sump.settings.readCount == c.value.1) &&
        (c.None? ==> sump.settings.channelGroups == old(sump.settings.channelGroups) &&
                     sump.settings.readCount == old(sump.settings.readCount))
    {
      var md := Metadata();
      if md.Err? {
        return Some(md.error);
      }
      var nb := NumOr(md.value, "Sample Memory", 24576);
      sump.settings.delayCount := 0;
      var nprobes := Probes(md.value);
      if nprobes == Some(8) {
        sump.settings.channelGroups := 0xE;
        sump.settings.readCount := nb;
      } else if nprobes == Some(16) {
        sump.settings.channelGroups := 0xC;
        sump.settings.readCount := FloorDiv(nb, 2);
      } else if nprobes == Some(32) {
        sump.settings.channelGroups := 0x0;
        sump.settings.readCount := FloorDiv(nb, 4);
      }
      return None;
    }
  }
}
