/**
 The CBOR encoder of the software authenticator (spikes/lib/passkey.ts) against a decoder written from
 RFC 8949, sections 3 and 3.1. Heads carry 32-bit arguments; writing a larger one throws.
 */
module Cbor {
  import opened Prelude

  type byte = x: int | 0 <= x < 256

  /** Text is its UTF-8 bytes. Map keys are numbers or text, kept in insertion order. */
  datatype Value =
    | Num(n: int)
    | Text(utf8: seq<byte>)
    | Bytes(bytes: seq<byte>)
    | Map(entries: seq<Entry>)

  datatype Key = KNum(n: int) | KText(utf8: seq<byte>)

  datatype Entry = Entry(key: Key, value: Value)

  const LIMIT: nat := 0x1_0000_0000

  // --- heads ------------------------------------------------------------------------------------

  function Head(major: nat, value: nat): (h: seq<byte>)
    requires major < 8 && value < LIMIT
    ensures 1 <= |h| <= 5
  {
    if value < 24 then [major * 32 + value]
    else if value < 0x100 then [major * 32 + 24, value]
    else if value < 0x10000 then [major * 32 + 25, value / 256, value % 256]
    else [major * 32 + 26, value / 0x1000000, value / 0x10000 % 256, value / 256 % 256, value % 256]
  }

  function Wide(a: nat, b: nat, c: nat, d: nat): nat {
    a * 0x1000000 + b * 0x10000 + c * 256 + d
  }

  /** The initial byte's low five bits are the argument, or say how many bytes carry it. */
  function DecodeHead(s: seq<byte>): Option<(nat, nat, seq<byte>)> {
    if s == [] then None
    else
      var major: nat, info: nat := s[0] / 32, s[0] % 32;
      if info < 24 then Some((major, info, s[1..]))
      else if info == 24 then if |s| < 2 then None else Some((major, s[1], s[2..]))
      else if info == 25 then if |s| < 3 then None else Some((major, (s[1] as nat) * 256 + s[2], s[3..]))
      else if info == 26 then
        if |s| < 5 then None else Some((major, Wide(s[1], s[2], s[3], s[4]), s[5..]))
      else None
  }

  lemma WideRoundTrip(n: nat)
    requires n < LIMIT
    ensures n / 0x1000000 < 256
    ensures Wide(n / 0x1000000, n / 0x10000 % 256, n / 256 % 256, n % 256) == n
  {
    var a := n / 256;
    var b := n / 0x10000;
    assert n == a * 256 + n % 256;
    assert a == b * 256 + a % 256;
    assert b == n / 0x1000000 * 256 + b % 256;
  }

  /** The decoder's answer depends on the head's own bytes and on what follows them. */
  lemma Prefixed(h: seq<byte>, rest: seq<byte>)
    ensures (h + rest)[|h|..] == rest
    ensures forall i :: 0 <= i < |h| ==> (h + rest)[i] == h[i]
  {
  }

  lemma InitialByte(major: nat, info: nat)
    requires major < 8 && info < 32
    ensures (major * 32 + info) / 32 == major && (major * 32 + info) % 32 == info
  {
  }

  lemma FourByteHead(major: nat, value: nat, rest: seq<byte>)
    requires major < 8 && 0x10000 <= value < LIMIT
    ensures DecodeHead(Head(major, value) + rest) == Some((major, value, rest))
  {
    Prefixed(Head(major, value), rest);
    InitialByte(major, 26);
    WideRoundTrip(value);
  }

  lemma HeadRoundTrip(major: nat, value: nat, rest: seq<byte>)
    requires major < 8 && value < LIMIT
    ensures DecodeHead(Head(major, value) + rest) == Some((major, value, rest))
  {
    if value >= 0x10000 {
      FourByteHead(major, value, rest);
    } else {
      Prefixed(Head(major, value), rest);
      InitialByte(major, if value < 24 then value else if value < 0x100 then 24 else 25);
    }
  }

  /** Among the byte strings that decode to a head's content, the encoder's is the shortest (RFC 8949, section 4.1). */
  lemma HeadIsShortest(s: seq<byte>, major: nat, value: nat)
    requires major < 8 && value < LIMIT && DecodeHead(s) == Some((major, value, []))
    ensures |Head(major, value)| <= |s|
  {
  }

  // --- encoding ---------------------------------------------------------------------------------

  function HeadOf(major: nat, value: nat): Option<seq<byte>>
    requires major < 8
  {
    if value < LIMIT then Some(Head(major, value)) else None
  }

  function Join(a: Option<seq<byte>>, b: Option<seq<byte>>): Option<seq<byte>> {
    if a.Some? && b.Some? then Some(a.value + b.value) else None
  }

  /** None stands for the RangeError of a head that does not fit. */
  function Encode(v: Value): Option<seq<byte>>
    decreases v
  {
    match v
    case Num(n) => if n >= 0 then HeadOf(0, n) else HeadOf(1, -1 - n)
    case Text(s) => Join(HeadOf(3, |s|), Some(s))
    case Bytes(b) => Join(HeadOf(2, |b|), Some(b))
    case Map(entries) => Join(HeadOf(5, |entries|), EncodeEntries(entries))
  }

  function EncodeKey(k: Key): Option<seq<byte>> {
    match k
    case KNum(n) => if n >= 0 then HeadOf(0, n) else HeadOf(1, -1 - n)
    case KText(s) => Join(HeadOf(3, |s|), Some(s))
  }

  function EncodeEntry(e: Entry): Option<seq<byte>>
    decreases e
  {
    Join(EncodeKey(e.key), Encode(e.value))
  }

  function EncodeEntries(entries: seq<Entry>): Option<seq<byte>>
    decreases entries
  {
    if entries == [] then Some([]) else Join(EncodeEntry(entries[0]), EncodeEntries(entries[1..]))
  }

  // --- decoding ---------------------------------------------------------------------------------

  function DecodeKey(s: seq<byte>): (r: Option<(Key, seq<byte>)>)
    ensures r.Some? ==> |r.value.1| < |s|
  {
    var h := DecodeHead(s);
    if h.None? then None
    else
      var (major, n, rest) := h.value;
      if major == 0 then Some((KNum(n), rest))
      else if major == 1 then Some((KNum(-1 - n), rest))
      else if major == 3 && n <= |rest| then Some((KText(rest[..n]), rest[n..]))
      else None
  }

  function Decode(s: seq<byte>): (r: Option<(Value, seq<byte>)>)
    ensures r.Some? ==> |r.value.1| < |s|
    decreases |s|, 0
  {
    var h := DecodeHead(s);
    if h.None? then None
    else
      var (major, n, rest) := h.value;
      if major == 0 then Some((Num(n), rest))
      else if major == 1 then Some((Num(-1 - n), rest))
      else if major == 2 && n <= |rest| then Some((Bytes(rest[..n]), rest[n..]))
      else if major == 3 && n <= |rest| then Some((Text(rest[..n]), rest[n..]))
      else if major == 5 then
        var es := DecodeEntries(n, rest);
        if es.None? then None else Some((Map(es.value.0), es.value.1))
      else None
  }

  function DecodeEntries(n: nat, s: seq<byte>): (r: Option<(seq<Entry>, seq<byte>)>)
    ensures r.Some? ==> |r.value.1| <= |s|
    decreases |s|, 1, n
  {
    if n == 0 then Some(([], s))
    else
      var k := DecodeKey(s);
      if k.None? then None
      else
        var v := Decode(k.value.1);
        if v.None? then None
        else
          var es := DecodeEntries(n - 1, v.value.1);
          if es.None? then None else Some(([Entry(k.value.0, v.value.0)] + es.value.0, es.value.1))
  }

  // --- round trip -------------------------------------------------------------------------------

  /** A head for the length of `body`, then `body`: the head decodes and the body is what it counts. */
  lemma Counted(major: nat, body: seq<byte>, rest: seq<byte>)
    requires major < 8 && |body| < LIMIT
    ensures DecodeHead(Head(major, |body|) + body + rest) == Some((major, |body|, body + rest))
    ensures (body + rest)[..|body|] == body && (body + rest)[|body|..] == rest
  {
    HeadRoundTrip(major, |body|, body + rest);
    assert Head(major, |body|) + body + rest == Head(major, |body|) + (body + rest);
  }

  lemma KeyRoundTrip(k: Key, rest: seq<byte>)
    requires EncodeKey(k).Some?
    ensures DecodeKey(EncodeKey(k).value + rest) == Some((k, rest))
  {
    match k
    case KNum(n) => HeadRoundTrip(if n >= 0 then 0 else 1, if n >= 0 then n else -1 - n, rest);
    case KText(s) => Counted(3, s, rest);
  }

  lemma ScalarRoundTrip(v: Value, rest: seq<byte>)
    requires !v.Map? && Encode(v).Some?
    ensures Decode(Encode(v).value + rest) == Some((v, rest))
  {
    match v
    case Num(n) => HeadRoundTrip(if n >= 0 then 0 else 1, if n >= 0 then n else -1 - n, rest);
    case Text(s) => Counted(3, s, rest);
    case Bytes(b) => Counted(2, b, rest);
  }

  /** Decoding what was encoded gives the value back and leaves what follows, for every nested value. */
  lemma {:induction false} RoundTrip(v: Value, rest: seq<byte>)
    requires Encode(v).Some?
    ensures Decode(Encode(v).value + rest) == Some((v, rest))
    decreases v
  {
    if v.Map? {
      var h, body := Head(5, |v.entries|), EncodeEntries(v.entries).value;
      assert h + body + rest == h + (body + rest);
      HeadRoundTrip(5, |v.entries|, body + rest);
      EntriesRoundTrip(v.entries, rest);
    } else {
      ScalarRoundTrip(v, rest);
    }
  }

  lemma {:induction false} EntryRoundTrip(e: Entry, rest: seq<byte>)
    requires EncodeEntry(e).Some?
    ensures var k := DecodeKey(EncodeEntry(e).value + rest);
            k.Some? && k.value.0 == e.key && Decode(k.value.1) == Some((e.value, rest))
    decreases e
  {
    var k, v := EncodeKey(e.key).value, Encode(e.value).value;
    assert k + v + rest == k + (v + rest);
    KeyRoundTrip(e.key, v + rest);
    RoundTrip(e.value, rest);
  }

  lemma {:induction false} EntriesRoundTrip(entries: seq<Entry>, rest: seq<byte>)
    requires EncodeEntries(entries).Some?
    ensures DecodeEntries(|entries|, EncodeEntries(entries).value + rest) == Some((entries, rest))
    decreases entries
  {
    if entries == [] {
      assert [] + rest == rest;
    } else {
      var first, more := EncodeEntry(entries[0]).value, EncodeEntries(entries[1..]).value;
      assert first + more + rest == first + (more + rest);
      EntryRoundTrip(entries[0], more + rest);
      EntriesRoundTrip(entries[1..], rest);
      assert [entries[0]] + entries[1..] == entries;
    }
  }

  /** No encoding is a prefix of another value's encoding; in particular the encoding is injective. */
  lemma PrefixFree(v: Value, w: Value, tail: seq<byte>)
    requires Encode(v).Some? && Encode(w).Some? && Encode(w).value == Encode(v).value + tail
    ensures v == w && tail == []
  {
    RoundTrip(v, tail);
    RoundTrip(w, []);
    assert Encode(w).value + [] == Encode(w).value;
  }

  // --- what can be encoded ----------------------------------------------------------------------

  /** A length or a number that a 32-bit head can carry. */
  predicate Fits(n: int) {
    0 <= n < 0x1_0000_0000
  }

  predicate FitsKey(k: Key) {
    match k case KNum(n) => Fits(n) || Fits(-1 - n) case KText(s) => Fits(|s|)
  }

  predicate FitsValue(v: Value)
    decreases v
  {
    match v
    case Num(n) => Fits(n) || Fits(-1 - n)
    case Text(s) => Fits(|s|)
    case Bytes(b) => Fits(|b|)
    case Map(entries) => Fits(|entries|) && FitsEntries(entries)
  }

  predicate FitsEntry(e: Entry)
    decreases e
  {
    FitsKey(e.key) && FitsValue(e.value)
  }

  predicate FitsEntries(entries: seq<Entry>)
    decreases entries
  {
    entries == [] || (FitsEntry(entries[0]) && FitsEntries(entries[1..]))
  }

  /** A value is encoded exactly when everything in it fits; anything else is refused. */
  lemma {:induction false} WhenEncoded(v: Value)
    ensures Encode(v).Some? <==> FitsValue(v)
    decreases v
  {
    if v.Map? { EntriesWhenEncoded(v.entries); }
  }

  lemma {:induction false} EntryWhenEncoded(e: Entry)
    ensures EncodeEntry(e).Some? <==> FitsEntry(e)
    decreases e
  {
    WhenEncoded(e.value);
  }

  lemma {:induction false} EntriesWhenEncoded(entries: seq<Entry>)
    ensures EncodeEntries(entries).Some? <==> FitsEntries(entries)
    decreases entries
  {
    if entries != [] {
      EntryWhenEncoded(entries[0]);
      EntriesWhenEncoded(entries[1..]);
    }
  }

  // --- the program's form -----------------------------------------------------------------------

  /** cborUint fills a buffer of the size the value needs. */
  method CborUint(major: nat, value: nat) returns (b: array?<byte>)
    requires major < 8
    ensures if value < LIMIT then b != null && b[..] == Head(major, value) else b == null
  {
    if value < 24 {
      var one := new byte[1];
      one[0] := major * 32 + value;
      return one;
    }
    if value < 0x100 {
      var two := new byte[2];
      two[0], two[1] := major * 32 + 24, value;
      return two;
    }
    if value < 0x10000 {
      var three := new byte[3];
      three[0] := major * 32 + 25;
      three[1], three[2] := value / 256, value % 256;
      return three;
    }
    if value >= LIMIT { return null; }
    var five := new byte[5];
    five[0] := major * 32 + 26;
    five[1], five[2], five[3], five[4] := value / 0x1000000, value / 0x10000 % 256, value / 256 % 256, value % 256;
    return five;
  }

  /** cborEncode, pushing the parts of a map one entry at a time. */
  method CborEncode(v: Value) returns (out: Option<seq<byte>>)
    ensures out == Encode(v)
    decreases v
  {
    match v {
      case Num(n) =>
        out := HeadOf(if n >= 0 then 0 else 1, if n >= 0 then n else -1 - n);
      case Text(s) =>
        out := Join(HeadOf(3, |s|), Some(s));
      case Bytes(b) =>
        out := Join(HeadOf(2, |b|), Some(b));
      case Map(entries) =>
        out := CborEncodeMap(entries);
    }
  }

  method CborEncodeMap(entries: seq<Entry>) returns (parts: Option<seq<byte>>)
    ensures parts == Join(HeadOf(5, |entries|), EncodeEntries(entries))
    decreases entries
  {
    var head := HeadOf(5, |entries|);
    parts := head;
    Associative(head, Some([]), Some([]));
    for i := 0 to |entries|
      invariant parts == Join(head, EncodeEntries(entries[..i]))
    {
      var part := CborEncodeEntry(entries[i]);
      parts := Join(parts, part);
      Extend(head, entries, i);
    }
    assert entries[..|entries|] == entries;
  }

  lemma Extend(head: Option<seq<byte>>, entries: seq<Entry>, i: nat)
    requires i < |entries|
    ensures Join(Join(head, EncodeEntries(entries[..i])), EncodeEntry(entries[i])) == Join(head,
        EncodeEntries(entries[..i + 1]))
  {
    assert entries[..i + 1] == entries[..i] + [entries[i]];
    EncodeSnoc(entries[..i], entries[i]);
    Associative(head, EncodeEntries(entries[..i]), EncodeEntry(entries[i]));
  }

  method CborEncodeEntry(e: Entry) returns (out: Option<seq<byte>>)
    ensures out == EncodeEntry(e)
    decreases e
  {
    var value := CborEncode(e.value);
    out := Join(EncodeKey(e.key), value);
  }

  lemma Associative(a: Option<seq<byte>>, b: Option<seq<byte>>, c: Option<seq<byte>>)
    ensures Join(Join(a, b), c) == Join(a, Join(b, c))
    ensures Join(a, Some([])) == a && Join(Some([]), a) == a
  {
    if a.Some? {
      assert a.value + [] == a.value && [] + a.value == a.value;
      if b.Some? && c.Some? { assert a.value + b.value + c.value == a.value + (b.value + c.value); }
    }
  }

  lemma {:induction false} EncodeSnoc(entries: seq<Entry>, e: Entry)
    ensures EncodeEntries(entries + [e]) == Join(EncodeEntries(entries), EncodeEntry(e))
  {
    var part := EncodeEntry(e);
    Associative(part, part, part);
    if entries == [] {
      assert [] + [e] == [e] && [e][1..] == [];
    } else {
      assert (entries + [e])[1..] == entries[1..] + [e];
      EncodeSnoc(entries[1..], e);
      Associative(EncodeEntry(entries[0]), EncodeEntries(entries[1..]), part);
    }
  }
}
