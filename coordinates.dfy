/**
 * The reserved-chunk value type and the textual coordinate key "x:z" under
 * which the registry files claims and reservations.
 *
 * The registry in this model keys its maps by the pair (x, z) rather than by
 * the string. That is sound because the string key is injective and the
 * registry's own decoding of it (split on ':' and parse both halves) gives
 * back the pair: FormatParseRoundTrip and FormatInjective below.
 */
module Coordinates {
  import opened Common

  // ---------------------------------------------------------------------
  // Integer.toString
  // ---------------------------------------------------------------------

  predicate IsDigit(c: char) { '0' <= c <= '9' }

  predicate AllDigits(s: string) { forall i :: 0 <= i < |s| ==> IsDigit(s[i]) }

  function DigitChar(d: nat): (c: char)
    requires d < 10
    ensures IsDigit(c) && c as int - '0' as int == d
  {
    ('0' as int + d) as char
  }

  /** Decimal digits of n, most significant first, without leading zeros. */
  function Digits(n: nat): (s: string)
    ensures |s| >= 1 && AllDigits(s)
    ensures n > 0 ==> s[0] != '0'
    decreases n
  {
    if n < 10 then [DigitChar(n)] else Digits(n / 10) + [DigitChar(n % 10)]
  }

  /** Java's decimal rendering of an int: a '-' before the digits of a negative number. */
  function IntToString(i: int): (s: string)
    ensures |s| >= 1 && ':' !in s
    ensures i < 0 <==> s[0] == '-'
  {
    if i < 0 then "-" + Digits(-i) else Digits(i)
  }

  // ---------------------------------------------------------------------
  // Integer.parseInt
  // ---------------------------------------------------------------------

  /** The value of a string of decimal digits. */
  function DigitsValue(s: string): nat
    requires AllDigits(s)
  {
    if s == [] then 0 else DigitsValue(s[..|s| - 1]) * 10 + (s[|s| - 1] as int - '0' as int)
  }

  /**
   * Java's Integer.parseInt: an optional '+' or '-' followed by at least
   * one decimal digit; anything else raises NumberFormatException (None).
   */
  function ParseInt(s: string): (r: Option<int>)
    ensures r.Some? ==> |s| >= 1
  {
    if |s| == 0 then None
    else if s[0] == '-' || s[0] == '+' then
      if |s| == 1 || !AllDigits(s[1..]) then None
      else if s[0] == '-' then Some(0 - DigitsValue(s[1..]) as int)
      else Some(DigitsValue(s[1..]))
    else if AllDigits(s) then Some(DigitsValue(s))
    else None
  }

  lemma {:induction false} DigitsRoundTrip(n: nat)
    ensures DigitsValue(Digits(n)) == n
    decreases n
  {
    if n >= 10 {
      var prefix := Digits(n / 10);
      var s := prefix + [DigitChar(n % 10)];
      assert s[..|s| - 1] == prefix;
      DigitsRoundTrip(n / 10);
    }
  }

  /** Integer.parseInt inverts Integer.toString, negative numbers included. */
  lemma ParseIntToString(i: int)
    ensures ParseInt(IntToString(i)) == Some(i)
  {
    if i < 0 {
      var s := IntToString(i);
      assert s[1..] == Digits(-i);
      DigitsRoundTrip(-i);
    } else {
      DigitsRoundTrip(i);
    }
  }

  // ---------------------------------------------------------------------
  // String.split(":")
  // ---------------------------------------------------------------------

  /** Every piece between separators, empty pieces included. */
  function SplitAll(s: string, sep: char): (parts: seq<string>)
    ensures |parts| >= 1
    decreases |s|
  {
    if s == [] then [""]
    else
      var rest := SplitAll(s[1..], sep);
      if s[0] == sep then [""] + rest else [[s[0]] + rest[0]] + rest[1..]
  }

  function DropTrailingEmpty(parts: seq<string>): seq<string>
    decreases |parts|
  {
    if parts == [] then []
    else if parts[|parts| - 1] == "" then DropTrailingEmpty(parts[..|parts| - 1])
    else parts
  }

  /**
   * Java's String.split with a one-character pattern and no limit: the
   * whole string when the separator does not occur, otherwise the pieces
   * with trailing empty pieces removed.
   */
  function Split(s: string, sep: char): seq<string>
  {
    if sep !in s then [s] else DropTrailingEmpty(SplitAll(s, sep))
  }

  lemma {:induction false} SplitAllNoSeparator(s: string, sep: char)
    requires sep !in s
    ensures SplitAll(s, sep) == [s]
    decreases |s|
  {
    if s != [] {
      SplitAllNoSeparator(s[1..], sep);
      assert [s[0]] + s[1..] == s;
    }
  }

  lemma {:induction false} SplitAllAtSeparator(a: string, sep: char, b: string)
    requires sep !in a
    ensures SplitAll(a + [sep] + b, sep) == [a] + SplitAll(b, sep)
    decreases |a|
  {
    var s := a + [sep] + b;
    if a == [] {
      assert s[1..] == b;
    } else {
      assert s[1..] == a[1..] + [sep] + b;
      SplitAllAtSeparator(a[1..], sep, b);
      assert [a[0]] + a[1..] == a;
    }
  }

  // ---------------------------------------------------------------------
  // ReservedChunk.formatCoordinates and the registry's decoding of it
  // ---------------------------------------------------------------------

  /** The coordinate key "x:z". */
  function FormatCoordinates(chunkX: int, chunkZ: int): string
  {
    IntToString(chunkX) + ":" + IntToString(chunkZ)
  }

  /**
   * How the perimeter computation turns a key back into coordinates:
   * split on ':' and parse the first two pieces. A missing piece
   * (ArrayIndexOutOfBoundsException) or an unparsable one
   * (NumberFormatException) gives None.
   */
  function ParseCoordinates(key: string): Option<Coord>
  {
    var parts := Split(key, ':');
    if |parts| < 2 then None
    else match (ParseInt(parts[0]), ParseInt(parts[1]))
      case (Some(x), Some(z)) => Some((x, z))
      case _ => None
  }

  /** Decoding a formatted key gives back its coordinates, for every pair of ints. */
  lemma FormatParseRoundTrip(chunkX: int, chunkZ: int)
    ensures ParseCoordinates(FormatCoordinates(chunkX, chunkZ)) == Some((chunkX, chunkZ))
  {
    var a, b := IntToString(chunkX), IntToString(chunkZ);
    var key := FormatCoordinates(chunkX, chunkZ);
    assert key == a + [':'] + b;
    assert key[|a|] == ':';
    SplitAllAtSeparator(a, ':', b);
    SplitAllNoSeparator(b, ':');
    assert SplitAll(key, ':') == [a, b];
    assert DropTrailingEmpty([a, b]) == [a, b];
    ParseIntToString(chunkX);
    ParseIntToString(chunkZ);
  }

  /** Distinct coordinates never share a key, so the pair can stand for the key. */
  lemma FormatInjective(x1: int, z1: int, x2: int, z2: int)
    requires FormatCoordinates(x1, z1) == FormatCoordinates(x2, z2)
    ensures x1 == x2 && z1 == z2
  {
    FormatParseRoundTrip(x1, z1);
    FormatParseRoundTrip(x2, z2);
  }

  // ---------------------------------------------------------------------
  // ReservedChunk
  // ---------------------------------------------------------------------

  /** Java's Objects.hash(x, z) for two ints: 31 * (31 + x) + z in 32-bit arithmetic. */
  function JavaHash2(x: int, z: int): (h: int)
    ensures -0x8000_0000 <= h < 0x8000_0000
  {
    var u := (31 * (31 + x) + z) % 0x1_0000_0000;
    if u >= 0x8000_0000 then u - 0x1_0000_0000 else u
  }

  /** A perimeter chunk held by a party. Its identity is its coordinate only. */
  class ReservedChunk {
    var reservedBy: Uuid
    var chunkX: int
    var chunkZ: int

    constructor (reservedBy: Uuid, chunkX: int, chunkZ: int)
      ensures this.reservedBy == reservedBy && this.chunkX == chunkX && this.chunkZ == chunkZ
    {
      this.reservedBy := reservedBy;
      this.chunkX := chunkX;
      this.chunkZ := chunkZ;
    }

    /** Hands the reservation to another party; its key and equality class stay. */
    method SetReservedBy(party: Uuid)
      modifies this
      ensures reservedBy == party
      ensures chunkX == old(chunkX) && chunkZ == old(chunkZ)
      ensures Key() == old(Key()) && HashCode() == old(HashCode())
    {
      reservedBy := party;
    }

    method SetChunkX(x: int)
      modifies this
      ensures chunkX == x && chunkZ == old(chunkZ) && reservedBy == old(reservedBy)
    {
      chunkX := x;
    }

    method SetChunkZ(z: int)
      modifies this
      ensures chunkZ == z && chunkX == old(chunkX) && reservedBy == old(reservedBy)
    {
      chunkZ := z;
    }

    /** The registry key of this reservation. */
    function Key(): string
      reads this
    {
      FormatCoordinates(chunkX, chunkZ)
    }

    /** equals: the same object, or another reservation at the same coordinate. */
    predicate Equals(that: ReservedChunk?)
      reads this, that
      ensures Equals(that) <==> that != null && chunkX == that.chunkX && chunkZ == that.chunkZ
    {
      if this == that then true
      else if that == null then false
      else chunkX == that.chunkX && chunkZ == that.chunkZ
    }

    function HashCode(): int
      reads this
    {
      JavaHash2(chunkX, chunkZ)
    }
  }

  /** Two reservations at one coordinate are equal whoever holds them. */
  lemma EqualsIgnoresHolder(a: ReservedChunk, b: ReservedChunk)
    requires a.chunkX == b.chunkX && a.chunkZ == b.chunkZ
    ensures a.Equals(b) && b.Equals(a)
  {
  }

  /** Equal reservations have the same key, hence the same registry slot. */
  lemma EqualsSameKey(a: ReservedChunk, b: ReservedChunk)
    requires a.Equals(b)
    ensures a.Key() == b.Key()
  {
  }

  /** equals is an equivalence relation. */
  lemma EqualsReflexive(a: ReservedChunk)
    ensures a.Equals(a)
  {
  }

  lemma EqualsSymmetric(a: ReservedChunk, b: ReservedChunk)
    requires a.Equals(b)
    ensures b.Equals(a)
  {
  }

  lemma EqualsTransitive(a: ReservedChunk, b: ReservedChunk, c: ReservedChunk)
    requires a.Equals(b) && b.Equals(c)
    ensures a.Equals(c)
  {
  }

  /** hashCode is consistent with equals. */
  lemma EqualsSameHash(a: ReservedChunk, b: ReservedChunk)
    requires a.Equals(b)
    ensures a.HashCode() == b.HashCode()
  {
  }
}
