/** The metadata reply both first-generation drafts read after command
    `0x04` (sump/sump.py and sump/interface.py share the loop): a stream of
    tokens, each a key byte whose range says what follows it. */
module MetadataTokens {
  import opened Common
  import opened Wire
  import opened SumpOps

  /** What follows a key: a NUL-terminated string (keys `0x01..0x1F`), a
      big-endian 32-bit integer (`0x20..0x3F`), one byte (`0x40..0x5F`), or
      nothing (`0x60..0xFF`, recorded as `None`). */
  datatype Value = Text(text: seq<int>) | Word(word: int) | Octet(octet: int) | NoValue

  datatype Token = Token(key: int, value: Value)

  /** A token as a decoder can deliver it: a non-zero key byte, a value of
      the class its key names, and a value within that class's range. */
  predicate WellFormed(t: Token)
  {
    1 <= t.key < 256 &&
    match t.value
    case Text(v) => t.key <= 0x1F && IsBytes(v) && 0 !in v
    case Word(w) => 0x20 <= t.key <= 0x3F && 0 <= w < 4294967296
    case Octet(o) => 0x40 <= t.key <= 0x5F && IsByte(o)
    case NoValue => 0x60 <= t.key
  }

  /** The value after key `k` (a non-zero byte), read from the bytes `s`
      that follow the key. A word cut short by end of stream fails in
      `big_endian` with IndexError, a missing byte in `ord` with TypeError,
      and a string without terminator never ends. */
  function ValueAfter(k: int, s: seq<int>): (r: Decoded<Value>)
    requires IsBytes(s)
    ensures r.used <= |s|
  {
    if k <= 0x1F then
      var c := CString(s);
      if c.result.Err? then Decoded(Err(c.result.error), c.used)
      else Decoded(Ok(Text(c.result.value)), c.used)
    else if k <= 0x3F then
      if |s| < 4 then Decoded(Err(IndexError), |s|)
      else
        assert IsBytes(s[..4]);
        Decoded(Ok(Word(BigEndian(s))), 4)
    else if k <= 0x5F then
      if |s| < 1 then Decoded(Err(TypeError), 0)
      else Decoded(Ok(Octet(s[0])), 1)
    else Decoded(Ok(NoValue), 0)
  }

  /** The token loop over the bytes `s` still to arrive, with `acc` the
      tokens already collected. It stops at key `0x00` or at end of stream. */
  function Decode(s: seq<int>, acc: seq<Token>): (r: Decoded<seq<Token>>)
    requires IsBytes(s)
    ensures r.used <= |s|
    decreases |s|
  {
    if |s| == 0 then Decoded(Ok(acc), 0)
    else if s[0] == 0 then Decoded(Ok(acc), 1)
    else
      var v := ValueAfter(s[0], s[1..]);
      if v.result.Err? then Decoded(Err(v.result.error), 1 + v.used)
      else
        var n := 1 + v.used;
        var rest := Decode(s[n..], acc + [Token(s[0], v.result.value)]);
        Decoded(rest.result, n + rest.used)
  }

  /** One token step of the decoder, after a non-zero key. */
  lemma DecodeNext(s: seq<int>, acc: seq<Token>)
    requires IsBytes(s) && |s| > 0 && s[0] != 0
    ensures var v := ValueAfter(s[0], s[1..]);
      (v.result.Err? ==> Decode(s, acc) == Decoded(Err(v.result.error), 1 + v.used)) &&
      (v.result.Ok? ==>
        Decode(s, acc).result == Decode(s[1 + v.used..], acc + [Token(s[0], v.result.value)]).result &&
        Decode(s, acc).used == 1 + v.used + Decode(s[1 + v.used..], acc + [Token(s[0], v.result.value)]).used)
  {
  }

  /** A value read after a non-zero key is of the class the key names. */
  lemma ValueWellFormed(k: int, s: seq<int>)
    requires IsBytes(s) && 1 <= k < 256
    ensures ValueAfter(k, s).result.Ok? ==> WellFormed(Token(k, ValueAfter(k, s).result.value))
  {
    if k <= 0x1F {
      CStringBytes(s);
    } else if k <= 0x3F && |s| >= 4 {
      assert IsBytes(s[..4]);
    }
  }

  /** The decoder only adds to the tokens collected so far, and everything
      it adds is well-formed. */
  lemma {:induction false} DecodeWellFormed(s: seq<int>, acc: seq<Token>)
    requires IsBytes(s)
    ensures Decode(s, acc).result.Ok? ==> acc <= Decode(s, acc).result.value
    ensures Decode(s, acc).result.Ok? ==>
      forall i :: |acc| <= i < |Decode(s, acc).result.value| ==> WellFormed(Decode(s, acc).result.value[i])
    decreases |s|
  {
    if |s| > 0 && s[0] != 0 {
      var v := ValueAfter(s[0], s[1..]);
      if v.result.Ok? {
        assert IsByte(s[0]);
        ValueWellFormed(s[0], s[1..]);
        DecodeWellFormed(s[1 + v.used..], acc + [Token(s[0], v.result.value)]);
      }
    }
  }

  /** The metadata reply the whole stream `s` makes. */
  function Tokens(s: seq<int>): Decoded<seq<Token>>
    requires IsBytes(s)
  {
    Decode(s, [])
  }

  /** The bytes a device sends for one token. */
  function EncodeToken(t: Token): (r: seq<int>)
    requires WellFormed(t)
    ensures IsBytes(r) && |r| >= 1 && r[0] == t.key
  {
    match t.value
    case Text(v) => [t.key] + v + [0]
    case Word(w) => [t.key] + BeBytes(w)
    case Octet(o) => [t.key, o]
    case NoValue => [t.key]
  }

  function Encode(ts: seq<Token>): (r: seq<int>)
    requires forall i :: 0 <= i < |ts| ==> WellFormed(ts[i])
    ensures IsBytes(r)
  {
    if |ts| == 0 then [] else EncodeToken(ts[0]) + Encode(ts[1..])
  }

  /** The value of a token is read back from its encoding after the key,
      whatever follows. */
  lemma ValueOfEncoding(t: Token, tail: seq<int>)
    requires WellFormed(t) && IsBytes(tail)
    ensures IsBytes(EncodeToken(t)[1..] + tail)
    ensures ValueAfter(t.key, EncodeToken(t)[1..] + tail) == Decoded(Ok(t.value), |EncodeToken(t)| - 1)
  {
    var e := EncodeToken(t);
    var s := e[1..] + tail;
    assert IsBytes(s) by {
      forall i | 0 <= i < |s| ensures IsByte(s[i]) {
        if i < |e| - 1 {
          assert s[i] == e[i + 1];
        } else {
          assert s[i] == tail[i - |e| + 1];
        }
      }
    }
    match t.value
    case Text(v) =>
      assert s == v + [0] + tail;
      CStringOf(v, tail);
    case Word(w) =>
      assert s[..4] == BeBytes(w);
      BigEndianOfBeBytes(w);
    case Octet(o) =>
      assert s[0] == o;
    case NoValue =>
  }

  /** One token's encoding is decoded back to that token, whatever follows. */
  lemma DecodeToken(t: Token, tail: seq<int>, acc: seq<Token>)
    requires WellFormed(t) && IsBytes(tail)
    ensures IsBytes(EncodeToken(t) + tail)
    ensures Decode(EncodeToken(t) + tail, acc).result == Decode(tail, acc + [t]).result
    ensures Decode(EncodeToken(t) + tail, acc).used == |EncodeToken(t)| + Decode(tail, acc + [t]).used
  {
    var e := EncodeToken(t);
    var s := e + tail;
    ValueOfEncoding(t, tail);
    assert s[1..] == e[1..] + tail;
    assert IsBytes(s) by {
      forall i | 0 <= i < |s| ensures IsByte(s[i]) {
        if i > 0 {
          assert s[i] == s[1..][i - 1];
        }
      }
    }
    DecodeNext(s, acc);
    assert s[|e|..] == tail;
  }

  /** The decoder reads back every sequence of well-formed tokens, in order
      and with repetitions, and then goes on with what follows them. */
  lemma {:induction false} DecodeEncode(ts: seq<Token>, tail: seq<int>, acc: seq<Token>)
    requires forall i :: 0 <= i < |ts| ==> WellFormed(ts[i])
    requires IsBytes(tail)
    ensures IsBytes(Encode(ts) + tail)
    ensures Decode(Encode(ts) + tail, acc).result == Decode(tail, acc + ts).result
    ensures Decode(Encode(ts) + tail, acc).used == |Encode(ts)| + Decode(tail, acc + ts).used
    decreases |ts|
  {
    if |ts| == 0 {
      assert Encode(ts) + tail == tail && acc + ts == acc;
    } else {
      var e, rest := EncodeToken(ts[0]), Encode(ts[1..]);
      assert Encode(ts) + tail == e + (rest + tail);
      DecodeEncode(ts[1..], tail, acc + [ts[0]]);
      DecodeToken(ts[0], rest + tail, acc);
      assert acc + [ts[0]] + ts[1..] == acc + ts;
    }
  }

  /** A reply ended by key `0x00`, or by the end of the stream, decodes to
      exactly the tokens sent; the terminator is consumed and what follows it
      is not. */
  lemma TokensRoundTrip(ts: seq<Token>, after: seq<int>)
    requires forall i :: 0 <= i < |ts| ==> WellFormed(ts[i])
    requires IsBytes(after)
    ensures IsBytes(Encode(ts) + [0] + after) && IsBytes(Encode(ts))
    ensures Tokens(Encode(ts) + [0] + after) == Decoded(Ok(ts), |Encode(ts)| + 1)
    ensures Tokens(Encode(ts)) == Decoded(Ok(ts), |Encode(ts)|)
  {
    assert Encode(ts) + [0] + after == Encode(ts) + ([0] + after);
    DecodeEncode(ts, [0] + after, []);
    DecodeEncode(ts, [], []);
    assert Encode(ts) + [] == Encode(ts);
    assert ([0] + after)[0] == 0 && [] + ts == ts;
  }

  /** Reads the value after key `k`: `''.join` of a C string,
      `big_endian(r(4))`, `ord(r(1))`, or nothing. */
  method ReadValue(port: Port, k: int) returns (r: Result<Value>)
    requires port.Valid()
    modifies port`pos
    ensures port.Valid()
    ensures r == ValueAfter(k, old(port.Remaining())).result
    ensures port.pos == old(port.pos) + ValueAfter(k, old(port.Remaining())).used
  {
    if k <= 0x1F {
      var v := ReadCString(port);
      if v.Err? {
        return Err(v.error);
      }
      return Ok(Text(v.value));
    } else if k <= 0x3F {
      var w := port.Read(4);
      if |w| < 4 {
        return Err(IndexError);
      }
      return Ok(Word(BigEndian(w)));
    } else if k <= 0x5F {
      var o := port.Read(1);
      if o == [] {
        return Err(TypeError);
      }
      return Ok(Octet(o[0]));
    } else {
      return Ok(NoValue);
    }
  }

  /** The token loop of `query_metadata`: `token = r(1)` until an empty read
      or a zero key, then the value its range calls for. */
  method ReadTokens(port: Port) returns (r: Result<seq<Token>>)
    requires port.Valid()
    modifies port`pos
    ensures port.Valid()
    ensures r == Tokens(old(port.Remaining())).result
    ensures port.pos == old(port.pos) + Tokens(old(port.Remaining())).used
  {
    ghost var s0 := port.Remaining();
    ghost var p0 := port.pos;
    var result: seq<Token> := [];
    while true
      invariant port.Valid() && port.input == old(port.input) && p0 <= port.pos
      invariant Decode(s0, []).result == Decode(port.Remaining(), result).result
      invariant Decode(s0, []).used == (port.pos - p0) + Decode(port.Remaining(), result).used
      decreases |port.input| - port.pos
    {
      var done;
      done, r := ReadToken(port, result);
      if done {
        return;
      }
      result := r.value;
    }
  }

  /** One pass of the token loop: `done` when the loop ends, with what the
      decoder makes of the rest; otherwise the tokens so far, a non-empty
      part of the stream consumed, and the decoder's outcome unchanged. */
  method ReadToken(port: Port, acc: seq<Token>) returns (done: bool, r: Result<seq<Token>>)
    requires port.Valid()
    modifies port`pos
    ensures port.Valid() && port.input == old(port.input)
    ensures done ==> r == Decode(old(port.Remaining()), acc).result
    ensures done ==> port.pos == old(port.pos) + Decode(old(port.Remaining()), acc).used
    ensures !done ==> r.Ok? && port.pos > old(port.pos)
    ensures !done ==> Decode(old(port.Remaining()), acc).result == Decode(port.Remaining(), r.value).result
    ensures !done ==>
      Decode(old(port.Remaining()), acc).used == (port.pos - old(port.pos)) + Decode(port.Remaining(), r.value).used
  {
    ghost var s := port.Remaining();
    var t := port.Read(1);
    if t == [] {
      return true, Ok(acc);
    }
    var k := t[0];
    assert k == s[0] && port.Remaining() == s[1..];
    if k == 0 {
      return true, Ok(acc);
    }
    ghost var va := ValueAfter(k, s[1..]);
    var v := ReadValue(port, k);
    DecodeNext(s, acc);
    if v.Err? {
      return true, Err(v.error);
    }
    assert port.Remaining() == s[1 + va.used..];
    return false, Ok(acc + [Token(k, v.value)]);
  }
}
