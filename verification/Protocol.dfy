/** The parts of the X11 protocol and of Rust's integer arithmetic that the clipboard engine relies on. */
module Protocol {

  datatype Option<+T> = None | Some(value: T)

  function Lookup<K, V>(m: map<K, V>, k: K): Option<V> {
    if k in m then Some(m[k]) else None
  }

  /** Store `v` under `k`, or remove `k`. */
  function Put<K, V>(m: map<K, V>, k: K, v: Option<V>): map<K, V> {
    if v.Some? then m[k := v.value] else m - {k}
  }

  lemma AppendLast<T>(a: seq<T>, b: seq<T>)
    requires b != []
    ensures a + b == (a + b[..|b| - 1]) + [b[|b| - 1]]
    ensures (a + b)[..|a + b| - 1] == a + b[..|b| - 1]
  {
  }

  lemma JoinFour<T>(a: seq<T>, b: seq<T>, c: seq<T>, d: seq<T>)
    ensures a + (b + c + d) == a + b + c + d
  {
  }

  lemma TakeOneMore<T>(s: seq<T>, i: nat)
    requires i < |s|
    ensures s[..i + 1] == s[..i] + [s[i]]
  {
  }

  // ---------------------------------------------------------------- machine integers

  const U64_MAX: nat := 0xFFFF_FFFF_FFFF_FFFF
  const U32_MAX: nat := 0xFFFF_FFFF

  type byte = b: int | 0 <= b < 256
  type Bytes = seq<byte>

  function Min(a: nat, b: nat): nat { if a < b then a else b }

  /** `u64::saturating_add`. */
  function SatAdd(a: nat, b: nat): nat { Min(a + b, U64_MAX) }

  /** `u64::saturating_sub`. */
  function SatSub(a: nat, b: nat): nat { if a < b then 0 else a - b }

  /** Length of a GetProperty request, in 4-byte units, that can return `bytes` bytes. */
  function UnitsForBytes(bytes: nat): nat { Min(SatAdd(bytes, 3) / 4, U32_MAX) }

  /** The concatenation of the chunks. */
  function Flat(chunks: seq<Bytes>): Bytes {
    if chunks == [] then [] else Flat(chunks[..|chunks| - 1]) + chunks[|chunks| - 1]
  }

  lemma FlatSnoc(chunks: seq<Bytes>, c: Bytes)
    ensures Flat(chunks + [c]) == Flat(chunks) + c
  {
    assert (chunks + [c])[..|chunks|] == chunks;
  }

  // ---------------------------------------------------------------- atoms and properties

  /** An interned name; 0 is None, and AnyPropertyType in a GetProperty request. */
  type Atom = nat
  type Window = nat

  const NONE: Atom := 0
  const ANY: Atom := 0

  datatype Property = Property(kind: Atom, format: nat, value: Bytes)

  datatype PropertyReply = PropertyReply(kind: Atom, format: nat, value: Bytes, bytesAfter: nat)

  /** GetProperty at offset 0, section 9 of the X Window System Protocol. */
  function GetProperty(slot: Option<Property>, kind: Atom, units: nat): PropertyReply {
    match slot
    case None => PropertyReply(NONE, 0, [], 0)
    case Some(p) =>
      if kind != ANY && kind != p.kind then
        PropertyReply(p.kind, p.format, [], |p.value|)
      else
        var n := Min(|p.value|, 4 * units);
        PropertyReply(p.kind, p.format, p.value[..n], |p.value| - n)
  }

  /** Whether a GetProperty with `delete` set removes the property: it must have been returned to its end. */
  predicate ReadDeletes(slot: Option<Property>, kind: Atom, units: nat) {
    && slot.Some?
    && (kind == ANY || kind == slot.value.kind)
    && GetProperty(slot, kind, units).bytesAfter == 0
  }

  function EncodeU32(x: nat): Bytes {
    [x % 256, x / 256 % 256, x / 65536 % 256, x / 16777216 % 256]
  }

  /** The first 32-bit value of a reply; 0 for a reply that has none (wrong format, wrong type or too short). */
  function FirstU32(reply: PropertyReply): nat {
    if reply.format == 32 && |reply.value| >= 4 then
      (reply.value[0] as int) + 256 * (reply.value[1] as int)
      + 65536 * (reply.value[2] as int) + 16777216 * (reply.value[3] as int)
    else
      0
  }

  /** All the complete 32-bit values of a byte string. */
  function Words(value: Bytes): seq<nat> {
    if |value| < 4 then []
    else [FirstU32(PropertyReply(NONE, 32, value, 0))] + Words(value[4..])
  }

  /** 32-bit values as the bytes of a property. */
  function EncodeWords(words: seq<nat>): Bytes {
    if words == [] then [] else EncodeWords(words[..|words| - 1]) + EncodeU32(words[|words| - 1])
  }

  /** An INCR header written with `x` is read back as `x`. */
  lemma HeaderRoundTrip(kind: Atom, x: nat)
    requires x <= U32_MAX
    ensures FirstU32(GetProperty(Some(Property(kind, 32, EncodeU32(x))), kind, 1)) == x
  {
    assert x / 256 / 256 == x / 65536 && x / 65536 / 256 == x / 16777216;
  }

  // ---------------------------------------------------------------- property names of our own requests

  function Digit(d: nat): char
    requires d < 10
  {
    ('0' as int + d) as char
  }

  function Decimal(n: nat): (s: string)
    ensures |s| >= 1
  {
    if n < 10 then [Digit(n)] else Decimal(n / 10) + [Digit(n % 10)]
  }

  function DigitValue(c: char): nat {
    if '0' <= c then c as int - '0' as int else 0
  }

  function ParseDecimal(s: string): nat {
    if s == [] then 0 else 10 * ParseDecimal(s[..|s| - 1]) + DigitValue(s[|s| - 1])
  }

  lemma {:induction false} ParseOfDecimal(n: nat)
    ensures ParseDecimal(Decimal(n)) == n
  {
    if n < 10 {
      assert Decimal(n)[..0] == [];
    } else {
      ParseOfDecimal(n / 10);
      assert Decimal(n)[..|Decimal(n)| - 1] == Decimal(n / 10);
      assert DigitValue(Digit(n % 10)) == n % 10;
    }
  }

  const TARGETS_PREFIX := "CLIPBUS_TARGETS"
  const DATA_PREFIX := "CLIPBUS_DATA"

  function PropertyName(prefix: string, id: nat): string {
    prefix + "_" + Decimal(id)
  }

  /** Two requests never share a property name, whatever kinds of request they are. */
  lemma PropertyNamesDistinct(p: string, q: string, a: nat, b: nat)
    requires p in {TARGETS_PREFIX, DATA_PREFIX} && q in {TARGETS_PREFIX, DATA_PREFIX}
    requires PropertyName(p, a) == PropertyName(q, b)
    ensures p == q && a == b
  {
    var s, t := PropertyName(p, a), PropertyName(q, b);
    assert s[8] == p[8] && t[8] == q[8];
    assert p == q;
    assert s[|p| + 1..] == Decimal(a) && t[|q| + 1..] == Decimal(b);
    ParseOfDecimal(a);
    ParseOfDecimal(b);
  }
}
