/** The byte stream fed to the hash (_update_text_field of courses/selection.py):
    UTF-8 text fields, each behind its eight-byte big-endian length. */
module Framing {
  import opened Text

  type Byte = x: int | 0 <= x < 256

  // ---------- UTF-8 (section 3 of RFC 3629) ----------

  /** Characters are Unicode scalar values, so each has exactly one encoding. */
  function EncodeChar(c: char): (bytes: seq<Byte>)
    ensures 1 <= |bytes| <= 4
  {
    var code := c as int;
    if code < 0x80 then [code]
    else if code < 0x800 then [0xC0 + code / 64, 0x80 + code % 64]
    else if code < 0x1_0000 then [0xE0 + code / 4096, 0x80 + code / 64 % 64, 0x80 + code % 64]
    else [0xF0 + code / 262144, 0x80 + code / 4096 % 64, 0x80 + code / 64 % 64, 0x80 + code % 64]
  }

  function Utf8(s: string): seq<Byte> {
    if s == "" then [] else EncodeChar(s[0]) + Utf8(s[1..])
  }

  /** The length announced by a lead byte. */
  function Announced(lead: Byte): nat {
    if lead < 0x80 then 1 else if lead < 0xE0 then 2 else if lead < 0xF0 then 3 else 4
  }

  /** The code point of a well-formed encoding. */
  function Decoded(bytes: seq<Byte>): int
    requires 1 <= |bytes| <= 4
  {
    var rest := (k: int) requires 0 <= k < |bytes| => bytes[k] as int - 0x80;
    match |bytes|
    case 1 => bytes[0]
    case 2 => (bytes[0] as int - 0xC0) * 64 + rest(1)
    case 3 => ((bytes[0] as int - 0xE0) * 64 + rest(1)) * 64 + rest(2)
    case _ => (((bytes[0] as int - 0xF0) * 64 + rest(1)) * 64 + rest(2)) * 64 + rest(3)
  }

  lemma {:induction false} Split64(n: int)
    ensures n / 4096 == n / 64 / 64 && n / 262144 == n / 64 / 64 / 64
  {
  }

  /** An encoding announces its own length, decodes to its character, and is the shortest. */
  lemma {:induction false} EncodeCharDecodes(c: char)
    ensures var bytes, code := EncodeChar(c), c as int;
            && (|bytes| == 1 <==> code <= 0x7F) && (|bytes| == 2 <==> 0x80 <= code <= 0x7FF)
            && (|bytes| == 3 <==> 0x800 <= code <= 0xFFFF) && (|bytes| == 4 <==> 0x1_0000 <= code)
    ensures |EncodeChar(c)| == Announced(EncodeChar(c)[0])
    ensures Decoded(EncodeChar(c)) == c as int
  {
    Split64(c as int);
  }

  /** The first character of a stream can be read off it. */
  lemma {:induction false} EncodeCharUnique(c: char, x: seq<Byte>, d: char, y: seq<Byte>)
    requires EncodeChar(c) + x == EncodeChar(d) + y
    ensures c == d && x == y
  {
    EncodeCharDecodes(c);
    EncodeCharDecodes(d);
    assert (EncodeChar(c) + x)[0] == EncodeChar(c)[0] && (EncodeChar(d) + y)[0] == EncodeChar(d)[0];
    var n := |EncodeChar(c)|;
    assert (EncodeChar(c) + x)[..n] == EncodeChar(c) && (EncodeChar(d) + y)[..n] == EncodeChar(d);
    assert (EncodeChar(c) + x)[n..] == x && (EncodeChar(d) + y)[n..] == y;
  }

  lemma {:induction false} Utf8Injective(s: string, t: string)
    requires Utf8(s) == Utf8(t)
    ensures s == t
  {
    if s != "" && t != "" {
      EncodeCharUnique(s[0], Utf8(s[1..]), t[0], Utf8(t[1..]));
      Utf8Injective(s[1..], t[1..]);
      assert s == [s[0]] + s[1..] && t == [t[0]] + t[1..];
    }
  }

  // ---------- Lengths ----------

  const LENGTH_BYTES := 8
  const LENGTH_LIMIT := 0x1_0000_0000_0000_0000

  /** The low `width` bytes of `n`, most significant first. */
  function BigEndian(n: nat, width: nat): (bytes: seq<Byte>)
    ensures |bytes| == width
  {
    if width == 0 then [] else BigEndian(n / 256, width - 1) + [n % 256]
  }

  function Power256(width: nat): nat {
    if width == 0 then 1 else 256 * Power256(width - 1)
  }

  lemma {:induction false} BigEndianInjective(m: nat, n: nat, width: nat)
    requires m < Power256(width) && n < Power256(width) && BigEndian(m, width) == BigEndian(n, width)
    ensures m == n
  {
    if width > 0 {
      var x, y := BigEndian(m, width), BigEndian(n, width);
      assert x[..width - 1] == BigEndian(m / 256, width - 1) && y[..width - 1] == BigEndian(n / 256, width - 1);
      assert x[width - 1] == m % 256 && y[width - 1] == n % 256;
      BigEndianInjective(m / 256, n / 256, width - 1);
    }
  }

  lemma {:induction false} LengthLimitIsEightBytes()
    ensures Power256(LENGTH_BYTES) == LENGTH_LIMIT
  {
    assert Power256(2) == 0x1_0000;
    assert Power256(4) == 0x1_0000_0000;
    assert Power256(6) == 0x1_0000_0000_0000;
  }

  lemma {:induction false} LengthInjective(m: nat, n: nat)
    requires m < LENGTH_LIMIT && n < LENGTH_LIMIT && BigEndian(m, LENGTH_BYTES) == BigEndian(n, LENGTH_BYTES)
    ensures m == n
  {
    LengthLimitIsEightBytes();
    BigEndianInjective(m, n, LENGTH_BYTES);
  }

  // ---------- Fields ----------

  /** The encoder refuses longer fields: their length does not fit eight bytes. */
  predicate Fits(s: string) {
    |Utf8(s)| < LENGTH_LIMIT
  }

  function Field(s: string): seq<Byte> {
    BigEndian(|Utf8(s)|, LENGTH_BYTES) + Utf8(s)
  }

  function Stream(fields: seq<string>): seq<Byte> {
    if fields == [] then [] else Field(fields[0]) + Stream(fields[1..])
  }

  lemma {:induction false} PartsUnique<T>(a: seq<T>, x: seq<T>, b: seq<T>, y: seq<T>)
    requires |a| == |b| && a + x == b + y
    ensures a == b && x == y
  {
    assert (a + x)[..|a|] == a && (b + y)[..|b|] == b;
    assert (a + x)[|a|..] == x && (b + y)[|b|..] == y;
  }

  /** The first field of a stream can be read off it. */
  lemma {:induction false} FieldUnique(s: string, x: seq<Byte>, t: string, y: seq<Byte>)
    requires Fits(s) && Fits(t) && Field(s) + x == Field(t) + y
    ensures s == t && x == y
  {
    var u, v := Utf8(s), Utf8(t);
    var m, n := BigEndian(|u|, LENGTH_BYTES), BigEndian(|v|, LENGTH_BYTES);
    assert Field(s) + x == m + (u + x) && Field(t) + y == n + (v + y);
    PartsUnique(m, u + x, n, v + y);
    LengthInjective(|u|, |v|);
    PartsUnique(u, x, v, y);
    Utf8Injective(s, t);
  }

  predicate AllFit(fields: seq<string>) {
    forall i :: 0 <= i < |fields| ==> Fits(fields[i])
  }

  /** Different field lists never feed the hash the same bytes. */
  lemma {:induction false} StreamInjective(a: seq<string>, b: seq<string>)
    requires AllFit(a) && AllFit(b) && Stream(a) == Stream(b)
    ensures a == b
  {
    assert a != [] ==> |Stream(a)| >= LENGTH_BYTES;
    assert b != [] ==> |Stream(b)| >= LENGTH_BYTES;
    if a != [] {
      FieldUnique(a[0], Stream(a[1..]), b[0], Stream(b[1..]));
      StreamInjective(a[1..], b[1..]);
      assert a == [a[0]] + a[1..] && b == [b[0]] + b[1..];
    }
  }

  /** The number that bytes spell, the most significant first. */
  function Spelled(bytes: seq<Byte>): nat {
    if bytes == [] then 0 else Spelled(bytes[..|bytes| - 1]) * 256 + bytes[|bytes| - 1] as nat
  }

  lemma {:induction false} BigEndianSpells(n: nat, width: nat)
    requires n < Power256(width)
    ensures Spelled(BigEndian(n, width)) == n
  {
    if width > 0 {
      var bytes := BigEndian(n, width);
      BigEndianSpells(n / 256, width - 1);
      assert bytes[..width - 1] == BigEndian(n / 256, width - 1);
    }
  }

  /** A field is eight bytes that spell how many bytes of text follow, and these. */
  lemma {:induction false} FieldLayout(s: string)
    requires |Utf8(s)| < 0x1_0000_0000_0000_0000
    ensures |Field(s)| == 8 + |Utf8(s)| && Field(s)[8..] == Utf8(s)
    ensures Spelled(Field(s)[..8]) == |Utf8(s)|
  {
    LengthLimitIsEightBytes();
    BigEndianSpells(|Utf8(s)|, 8);
    assert Field(s)[..8] == BigEndian(|Utf8(s)|, 8);
  }

  lemma {:induction false} StreamAfterTwo(a: string, b: string, more: seq<string>)
    ensures Stream([a, b] + more) == Field(a) + Field(b) + Stream(more)
  {
    assert ([a, b] + more)[1..] == [b] + more && ([b] + more)[1..] == more;
    assert Stream([b] + more) == Field(b) + Stream(more);
  }

  lemma {:induction false} StreamOfThree(a: string, b: string, c: string)
    ensures Stream([a, b, c]) == Field(a) + Field(b) + Field(c)
  {
    var last := [c];
    StreamAfterTwo(a, b, last);
    assert [a, b] + last == [a, b, c] && last[1..] == [];
  }

  // ---------- What is hashed ----------

  const RANK_DOMAIN := "yacht.instance-selection.rank.v1"
  const POPULATION_DOMAIN := "yacht.instance-selection.population.v1"

  function RankInput(seed: nat, id: string): seq<Byte> {
    Stream([RANK_DOMAIN, Decimal(seed), id])
  }

  function PopulationInput(sortedIds: seq<string>): seq<Byte> {
    Stream([POPULATION_DOMAIN, Decimal(|sortedIds|)] + sortedIds)
  }

  /** The rank is hashed over the fields domain, seed and id. */
  lemma {:induction false} RankInputIs(seed: nat, id: string, domain: string)
    requires domain == "yacht.instance-selection.rank.v1"
    ensures RankInput(seed, id) == Field(domain) + Field(Decimal(seed)) + Field(id)
  {
    StreamOfThree(domain, Decimal(seed), id);
  }

  /** The population is hashed over the fields domain, number of ids and the ids in order. */
  lemma {:induction false} PopulationInputIs(ids: seq<string>, domain: string)
    requires domain == "yacht.instance-selection.population.v1"
    ensures PopulationInput(ids) == Field(domain) + Field(Decimal(|ids|)) + Stream(ids)
  {
    StreamAfterTwo(domain, Decimal(|ids|), ids);
  }

  /** A rank is of one seed and one id, and never of a population. */
  lemma {:induction false} RankInputInjective(seed: nat, id: string, seed': nat, id': string)
    requires AllFit([RANK_DOMAIN, Decimal(seed), id]) && AllFit([RANK_DOMAIN, Decimal(seed'), id'])
    requires RankInput(seed, id) == RankInput(seed', id')
    ensures seed == seed' && id == id'
  {
    var a, b := [RANK_DOMAIN, Decimal(seed), id], [RANK_DOMAIN, Decimal(seed'), id'];
    StreamInjective(a, b);
    assert a[1] == b[1] && a[2] == b[2];
    DecimalInjective(seed, seed');
  }

  lemma {:induction false} PopulationInputInjective(a: seq<string>, b: seq<string>)
    requires AllFit([POPULATION_DOMAIN, Decimal(|a|)] + a) && AllFit([POPULATION_DOMAIN, Decimal(|b|)] + b)
    requires PopulationInput(a) == PopulationInput(b)
    ensures a == b
  {
    var x, y := [POPULATION_DOMAIN, Decimal(|a|)] + a, [POPULATION_DOMAIN, Decimal(|b|)] + b;
    StreamInjective(x, y);
    assert x[2..] == a && y[2..] == b;
  }

  lemma {:induction false} FirstFieldsDiffer(a: seq<string>, b: seq<string>)
    requires AllFit(a) && AllFit(b) && a != [] && b != [] && a[0] != b[0]
    ensures Stream(a) != Stream(b)
  {
    if Stream(a) == Stream(b) {
      StreamInjective(a, b);
    }
  }

  lemma {:induction false} DomainsDiffer()
    ensures RANK_DOMAIN != POPULATION_DOMAIN
  {
    assert |RANK_DOMAIN| == 32 && |POPULATION_DOMAIN| == 38;
  }

  lemma {:induction false} DomainsAreSeparate(seed: nat, id: string, ids: seq<string>)
    requires AllFit([RANK_DOMAIN, Decimal(seed), id]) && AllFit([POPULATION_DOMAIN, Decimal(|ids|)] + ids)
    ensures RankInput(seed, id) != PopulationInput(ids)
  {
    DomainsDiffer();
    FirstFieldsDiffer([RANK_DOMAIN, Decimal(seed), id], [POPULATION_DOMAIN, Decimal(|ids|)] + ids);
  }
}
