/** The uuid helpers bundled with the client (RFC 4122 version 4 identifiers):
    the byte-to-hex table, the formatter that lays 16 bytes out as
    xxxxxxxx-xxxx-xxxx-xxxx-xxxxxxxxxxxx, and the part of v4 that stamps the
    version and variant bits into the random bytes and copies them into a
    caller's buffer. The random bytes are a parameter. */
module Uuid {
  import opened Values

  predicate IsLowerHex(c: char) {
    '0' <= c <= '9' || 'a' <= c <= 'f'
  }

  /** The digit Number.prototype.toString(16) prints for d. */
  function HexDigit(d: nat): (c: char)
    requires d < 16
    ensures IsLowerHex(c)
  {
    if d < 10 then (d + '0' as int) as char else (d - 10 + 'a' as int) as char
  }

  function HexValue(c: char): (d: nat)
    requires IsLowerHex(c)
    ensures d < 16 && HexDigit(d) == c
  {
    if c <= '9' then c as int - '0' as int else c as int - 'a' as int + 10
  }

  /** Number.prototype.toString(16) of a non-negative integer. */
  function ToHex(n: nat): (s: string)
    ensures |s| >= 1 && forall i :: 0 <= i < |s| ==> IsLowerHex(s[i])
    ensures |s| > 1 ==> s[0] != '0'
  {
    if n < 16 then [HexDigit(n)] else ToHex(n / 16) + [HexDigit(n % 16)]
  }

  /** A byte as a number, the index into the byteToHex table. */
  type uint8 = x: int | 0 <= x < 256

  /** Two lowercase hex digits, high nibble first. */
  function ByteHex(b: uint8): string {
    [HexDigit(b / 16), HexDigit(b % 16)]
  }

  /** `(i + 256).toString(16).slice(1)` is the two-digit encoding of i. */
  lemma ToHexSlice(i: uint8)
    ensures |ToHex(i + 256)| == 3
    ensures ToHex(i + 256)[1..] == ByteHex(i)
  {
    var n := i + 256;
    assert n / 16 == 16 + i / 16 && n % 16 == i % 16;
    assert (n / 16) / 16 == 1 && (n / 16) % 16 == i / 16;
    assert ToHex(n / 16) == [HexDigit(1), HexDigit(i / 16)];
  }

  /** The byteToHex table, built as the bundle builds it. */
  method BuildByteToHex() returns (table: seq<string>)
    ensures |table| == 256
    ensures forall i :: 0 <= i < 256 ==> table[i] == ByteHex(i)
  {
    table := [];
    var i := 0;
    while i < 256
      invariant 0 <= i <= 256
      invariant |table| == i
      invariant forall j :: 0 <= j < i ==> table[j] == ByteHex(j)
    {
      ToHexSlice(i);
      table := table + [ToHex(i + 256)[1..]];
      i := i + 1;
    }
  }

  /** Reads two lowercase hex digits back as a byte. */
  function ParseHexByte(s: string): Option<uint8> {
    if |s| == 2 && IsLowerHex(s[0]) && IsLowerHex(s[1])
    then Some(HexValue(s[0]) * 16 + HexValue(s[1]))
    else None
  }

  /** Every table entry is two lowercase hex digits that encode its index. */
  lemma ByteHexRoundTrip(b: uint8)
    ensures |ByteHex(b)| == 2 && IsLowerHex(ByteHex(b)[0]) && IsLowerHex(ByteHex(b)[1])
    ensures ParseHexByte(ByteHex(b)) == Some(b)
  {
    var s := ByteHex(b);
    assert HexValue(s[0]) == b / 16;
    assert HexValue(s[1]) == b % 16;
  }

  /** String.prototype.toLowerCase on ASCII letters. */
  function LowerChar(c: char): char {
    if 'A' <= c <= 'Z' then (c as int - 'A' as int + 'a' as int) as char else c
  }

  /** String.prototype.toLowerCase on ASCII: no upper-case letter is left,
      and every other character is kept. */
  function Lower(s: string): (r: string)
    ensures |r| == |s|
    ensures forall i :: 0 <= i < |r| ==> !('A' <= r[i] <= 'Z')
    ensures forall i :: 0 <= i < |s| && !('A' <= s[i] <= 'Z') ==> r[i] == s[i]
  {
    seq(|s|, i requires 0 <= i < |s| => LowerChar(s[i]))
  }

  /** Where the two digits of byte k start in the 36-character form. */
  function HexPos(k: nat): (p: nat)
    requires k < 16
    ensures p + 2 <= 36
  {
    2 * k + (if k >= 4 then 1 else 0) + (if k >= 6 then 1 else 0) + (if k >= 8 then 1 else 0) + (if k >= 10 then 1 else 0)
  }

  /** Bytes 4, 6, 8 and 10 are the first of a group, preceded by '-'. */
  predicate GroupStart(k: nat) {
    k == 4 || k == 6 || k == 8 || k == 10
  }

  predicate DashesAt(s: string) {
    |s| == 36 && s[8] == '-' && s[13] == '-' && s[18] == '-' && s[23] == '-'
  }

  predicate HexOrDash(s: string) {
    forall i :: 0 <= i < |s| ==> IsLowerHex(s[i]) || s[i] == '-'
  }

  /** s holds the first k bytes of arr from offset on at their places, each
      group after the first preceded by '-', and nothing but hex digits and
      dashes. */
  ghost predicate Laid(s: string, arr: seq<uint8>, offset: nat, k: nat)
    requires offset + 16 <= |arr| && k <= 16
  {
    && HexOrDash(s)
    && forall j :: 0 <= j < k ==>
         && HexPos(j) + 2 <= |s|
         && s[HexPos(j)] == HexDigit(arr[offset + j] / 16)
         && s[HexPos(j) + 1] == HexDigit(arr[offset + j] % 16)
         && (GroupStart(j) ==> s[HexPos(j) - 1] == '-')
  }

  /** Appending keeps what is already laid out. */
  lemma LaidAppend(s: string, t: string, arr: seq<uint8>, offset: nat, k: nat)
    requires offset + 16 <= |arr| && k <= 16
    requires Laid(s, arr, offset, k) && HexOrDash(t)
    ensures Laid(s + t, arr, offset, k)
  {
  }

  /** Appending byte k at its place lays out one more byte. */
  lemma LaidNext(s: string, arr: seq<uint8>, offset: nat, k: nat)
    requires offset + 16 <= |arr| && k < 16
    requires Laid(s, arr, offset, k) && |s| == HexPos(k)
    requires GroupStart(k) ==> s[|s| - 1] == '-'
    ensures Laid(s + ByteHex(arr[offset + k]), arr, offset, k + 1)
  {
    LaidAppend(s, ByteHex(arr[offset + k]), arr, offset, k);
  }

  /** Appending '-' and byte k lays out the first byte of a group. */
  lemma LaidDashNext(s: string, arr: seq<uint8>, offset: nat, k: nat)
    requires offset + 16 <= |arr| && k < 16 && GroupStart(k)
    requires Laid(s, arr, offset, k) && |s| + 1 == HexPos(k)
    ensures Laid(s + "-" + ByteHex(arr[offset + k]), arr, offset, k + 1)
  {
    LaidAppend(s, "-", arr, offset, k);
    LaidNext(s + "-", arr, offset, k);
  }

  lemma LowerKeepsHexOrDash(s: string)
    requires HexOrDash(s)
    ensures Lower(s) == s
  {
  }

  /** The left-to-right prefixes of the concatenation in UnsafeStringify,
      one per group of bytes. */
  function Group1(a: seq<uint8>, o: nat): string
    requires o + 16 <= |a|
  {
    ByteHex(a[o + 0]) + ByteHex(a[o + 1]) + ByteHex(a[o + 2]) + ByteHex(a[o + 3])
  }

  function Group2(a: seq<uint8>, o: nat): string
    requires o + 16 <= |a|
  {
    Group1(a, o) + "-" + ByteHex(a[o + 4]) + ByteHex(a[o + 5])
  }

  function Group3(a: seq<uint8>, o: nat): string
    requires o + 16 <= |a|
  {
    Group2(a, o) + "-" + ByteHex(a[o + 6]) + ByteHex(a[o + 7])
  }

  function Group4(a: seq<uint8>, o: nat): string
    requires o + 16 <= |a|
  {
    Group3(a, o) + "-" + ByteHex(a[o + 8]) + ByteHex(a[o + 9])
  }

  function Group5(a: seq<uint8>, o: nat): string
    requires o + 16 <= |a|
  {
    Group4(a, o) + "-" + ByteHex(a[o + 10]) + ByteHex(a[o + 11]) + ByteHex(a[o + 12]) +
    ByteHex(a[o + 13]) + ByteHex(a[o + 14]) + ByteHex(a[o + 15])
  }

  /** unsafeStringify(arr, offset): the caller guarantees 16 bytes from
      offset on. The 20-piece concatenation is Group5. */
  function UnsafeStringify(arr: seq<uint8>, offset: nat): (s: string)
    requires offset + 16 <= |arr|
    ensures |s| == 36
  {
    Lower(Group5(arr, offset))
  }

  lemma Group1Laid(a: seq<uint8>, o: nat)
    requires o + 16 <= |a|
    ensures |Group1(a, o)| == 8 && Laid(Group1(a, o), a, o, 4)
  {
    assert "" + ByteHex(a[o + 0]) == ByteHex(a[o + 0]);
    LaidNext("", a, o, 0);
    var s1 := ByteHex(a[o + 0]);
    LaidNext(s1, a, o, 1);
    var s2 := s1 + ByteHex(a[o + 1]);
    LaidNext(s2, a, o, 2);
    var s3 := s2 + ByteHex(a[o + 2]);
    LaidNext(s3, a, o, 3);
  }

  lemma Group2Laid(a: seq<uint8>, o: nat)
    requires o + 16 <= |a|
    ensures |Group2(a, o)| == 13 && Laid(Group2(a, o), a, o, 6)
  {
    Group1Laid(a, o);
    var s := Group1(a, o);
    LaidDashNext(s, a, o, 4);
    LaidNext(s + "-" + ByteHex(a[o + 4]), a, o, 5);
  }

  lemma Group3Laid(a: seq<uint8>, o: nat)
    requires o + 16 <= |a|
    ensures |Group3(a, o)| == 18 && Laid(Group3(a, o), a, o, 8)
  {
    Group2Laid(a, o);
    var s := Group2(a, o);
    LaidDashNext(s, a, o, 6);
    LaidNext(s + "-" + ByteHex(a[o + 6]), a, o, 7);
  }

  lemma Group4Laid(a: seq<uint8>, o: nat)
    requires o + 16 <= |a|
    ensures |Group4(a, o)| == 23 && Laid(Group4(a, o), a, o, 10)
  {
    Group3Laid(a, o);
    var s := Group3(a, o);
    LaidDashNext(s, a, o, 8);
    LaidNext(s + "-" + ByteHex(a[o + 8]), a, o, 9);
  }

  lemma Group5Laid(a: seq<uint8>, o: nat)
    requires o + 16 <= |a|
    ensures |Group5(a, o)| == 36 && Laid(Group5(a, o), a, o, 16)
  {
    Group4Laid(a, o);
    var s := Group4(a, o);
    LaidDashNext(s, a, o, 10);
    var t11 := s + "-" + ByteHex(a[o + 10]);
    LaidNext(t11, a, o, 11);
    var t12 := t11 + ByteHex(a[o + 11]);
    LaidNext(t12, a, o, 12);
    var t13 := t12 + ByteHex(a[o + 12]);
    LaidNext(t13, a, o, 13);
    var t14 := t13 + ByteHex(a[o + 13]);
    LaidNext(t14, a, o, 14);
    var t15 := t14 + ByteHex(a[o + 14]);
    LaidNext(t15, a, o, 15);
  }

  /** A full layout holds each byte's two digits as a slice. */
  lemma LaidSlices(s: string, arr: seq<uint8>, offset: nat)
    requires offset + 16 <= |arr| && Laid(s, arr, offset, 16)
    ensures forall k :: 0 <= k < 16 ==> s[HexPos(k)..HexPos(k) + 2] == ByteHex(arr[offset + k])
  {
    forall k | 0 <= k < 16
      ensures s[HexPos(k)..HexPos(k) + 2] == ByteHex(arr[offset + k])
    {
      var p := HexPos(k);
      assert s[p..p + 2] == [s[p], s[p + 1]];
    }
  }

  /** A full layout of 36 characters has its dashes at 8, 13, 18 and 23. */
  lemma LaidDashes(s: string, arr: seq<uint8>, offset: nat)
    requires offset + 16 <= |arr| && Laid(s, arr, offset, 16) && |s| == 36
    ensures DashesAt(s)
  {
    assert HexPos(4) == 9 && HexPos(6) == 14 && HexPos(8) == 19 && HexPos(10) == 24;
    assert GroupStart(4) && GroupStart(6) && GroupStart(8) && GroupStart(10);
  }

  /** The formatted string is 36 characters, with '-' at 8, 13, 18 and 23
      and byte k of the range as two lowercase hex digits at HexPos(k). */
  lemma StringifyLayout(arr: seq<uint8>, offset: nat)
    requires offset + 16 <= |arr|
    ensures var s := UnsafeStringify(arr, offset);
      && DashesAt(s)
      && forall k :: 0 <= k < 16 ==> s[HexPos(k)..HexPos(k) + 2] == ByteHex(arr[offset + k])
  {
    var raw := Group5(arr, offset);
    Group5Laid(arr, offset);
    LowerKeepsHexOrDash(raw);
    LaidSlices(raw, arr, offset);
    LaidDashes(raw, arr, offset);
  }

  /** Formatting and reading back gives the same 16 bytes, in order. */
  lemma StringifyRoundTrip(arr: seq<uint8>, offset: nat)
    requires offset + 16 <= |arr|
    ensures ParseUuid(UnsafeStringify(arr, offset)) == Some(arr[offset..offset + 16])
  {
    var s := UnsafeStringify(arr, offset);
    StringifyLayout(arr, offset);
    forall k | 0 <= k < 16
      ensures ParseHexByte(s[HexPos(k)..HexPos(k) + 2]) == Some(arr[offset + k])
    {
      ByteHexRoundTrip(arr[offset + k]);
    }
    var bytes := seq(16, k requires 0 <= k < 16 => ParseHexByte(s[HexPos(k)..HexPos(k) + 2]).value);
    assert bytes == arr[offset..offset + 16];
  }

  /** Reads the 36-character form back into its 16 bytes. */
  function ParseUuid(s: string): Option<seq<uint8>> {
    if DashesAt(s) && forall k :: 0 <= k < 16 ==> ParseHexByte(s[HexPos(k)..HexPos(k) + 2]).Some?
    then Some(seq(16, k requires 0 <= k < 16 => ParseHexByte(s[HexPos(k)..HexPos(k) + 2]).value))
    else None
  }

  // -----------------------------------------------------------------------
  // v4

  /** The numbers a Uint8Array yields when indexed. */
  function Numbers(bytes: seq<bv8>): seq<uint8> {
    seq(|bytes|, i requires 0 <= i < |bytes| => bytes[i] as int)
  }

  /** rnds[6] = rnds[6] & 15 | 64; rnds[8] = rnds[8] & 63 | 128 (JavaScript
      binds & tighter than |): version 4 in the high nibble of byte 6, the
      variant bits 10 on top of byte 8, every other bit kept. */
  function Versioned(rnds: seq<bv8>): (r: seq<bv8>)
    requires |rnds| >= 16
    ensures |r| == |rnds|
    ensures r[6] >> 4 == 4 && r[6] & 15 == rnds[6] & 15
    ensures r[8] >> 6 == 2 && r[8] & 63 == rnds[8] & 63
    ensures forall i :: 0 <= i < |rnds| && i != 6 && i != 8 ==> r[i] == rnds[i]
  {
    rnds[6 := (rnds[6] & 15) | 64][8 := (rnds[8] & 63) | 128]
  }

  /** The high bits of a byte, read as the number the hex table is indexed
      with. */
  lemma HighBits(b: bv8)
    ensures (b >> 4) as int == b as int / 16
    ensures (b >> 6) as int == b as int / 64
  {
  }

  /** A byte with high nibble 4 prints '4' first; one with top bits 10
      prints 8, 9, a or b first. */
  lemma StringifyMarks(arr: seq<uint8>)
    requires |arr| >= 16 && arr[6] / 16 == 4 && arr[8] / 64 == 2
    ensures UnsafeStringify(arr, 0)[14] == '4'
    ensures UnsafeStringify(arr, 0)[19] in {'8', '9', 'a', 'b'}
  {
    var raw := Group5(arr, 0);
    Group5Laid(arr, 0);
    LowerKeepsHexOrDash(raw);
    assert HexPos(6) == 14 && HexPos(8) == 19;
    assert raw[HexPos(6)] == HexDigit(arr[0 + 6] / 16);
    assert raw[HexPos(8)] == HexDigit(arr[0 + 8] / 16);
    var d := arr[8] / 16;
    assert d == 8 || d == 9 || d == 10 || d == 11;
  }

  /** In the formatted identifier the version digit is '4' and the variant
      digit is one of 8, 9, a, b. */
  lemma VersionDigits(rnds: seq<bv8>)
    requires |rnds| >= 16
    ensures UnsafeStringify(Numbers(Versioned(rnds)), 0)[14] == '4'
    ensures UnsafeStringify(Numbers(Versioned(rnds)), 0)[19] in {'8', '9', 'a', 'b'}
  {
    var v := Versioned(rnds);
    HighBits(v[6]);
    HighBits(v[8]);
    StringifyMarks(Numbers(v));
  }

  datatype V4Error =
    | RandomTooShort        // Error("Random bytes length must be >= 16")
    | OutOfBounds(offset: int)  // RangeError("UUID byte range <offset>:<offset+15> is out of buffer bounds")

  /** The message of the error v4 throws. */
  function V4ErrorMessage(e: V4Error): string {
    match e
    case RandomTooShort => "Random bytes length must be >= 16"
    case OutOfBounds(offset) =>
      "UUID byte range " + JsString(Number(offset)) + ":" + JsString(Number(offset + 15)) + " is out of buffer bounds"
  }

  datatype V4Value = UuidString(text: string) | Buffer(buf: array<bv8>)

  /** `offset || 0`. */
  function OffsetOrZero(offset: Option<int>): int {
    if offset.Some? then offset.value else 0
  }

  /** dst with src[0..16] written from position start on. */
  function Placed(dst: seq<bv8>, start: nat, src: seq<bv8>): (r: seq<bv8>)
    requires start + 16 <= |dst| && |src| >= 16
    ensures |r| == |dst|
    ensures forall i :: 0 <= i < 16 ==> r[start + i] == src[i]
    ensures forall p :: 0 <= p < |dst| && !(start <= p < start + 16) ==> r[p] == dst[p]
  {
    dst[..start] + src[..16] + dst[start + 16..]
  }

  /** Which source byte the copy loop reads for position i when buf and
      rnds are the same array: positions already overwritten are read again,
      so with 0 < start < 16 the first `start` bytes repeat. */
  function SelfSource(i: nat, start: nat): (r: nat)
    ensures r <= i
    ensures 0 < start ==> r < start
  {
    if start == 0 || i < start then i else SelfSource(i - start, start)
  }

  function SelfPlaced(v: seq<bv8>, start: nat): (r: seq<bv8>)
    requires start + 16 <= |v|
    ensures |r| == |v|
  {
    seq(|v|, p requires 0 <= p < |v| =>
      if start <= p < start + 16 then v[SelfSource(p - start, start)] else v[p])
  }

  /** `for (i = 0; i < 16; ++i) buf[offset + i] = rnds[i]`. */
  method CopyBytes(rnds: array<bv8>, buf: array<bv8>, start: nat)
    requires rnds.Length >= 16 && start + 16 <= buf.Length
    modifies buf
    ensures buf != rnds ==> buf[..] == Placed(old(buf[..]), start, old(rnds[..]))
    ensures buf == rnds ==> buf[..] == SelfPlaced(old(rnds[..]), start)
  {
    ghost var v := rnds[..];
    ghost var before := buf[..];
    ghost var aliased := buf == rnds;
    var i := 0;
    while i < 16
      invariant 0 <= i <= 16
      invariant !aliased ==> rnds[..] == v
      invariant aliased ==> before == v
      invariant !aliased ==> forall j :: 0 <= j < i ==> buf[start + j] == v[j]
      invariant aliased ==> forall j :: 0 <= j < i ==> buf[start + j] == v[SelfSource(j, start)]
      invariant forall p :: 0 <= p < buf.Length && !(start <= p < start + i) ==> buf[p] == before[p]
    {
      ghost var source := if aliased then SelfSource(i, start) else i;
      if !aliased {
        assert rnds[i] == v[i];
      } else if 0 < start <= i {
        var j := i - start;
        assert rnds[i] == buf[start + j];
        assert SelfSource(i, start) == SelfSource(j, start);
      } else {
        assert rnds[i] == before[i];
      }
      assert rnds[i] == v[source];
      buf[start + i] := rnds[i];
      i := i + 1;
    }
    if aliased {
      assert buf[..] == SelfPlaced(v, start);
    } else {
      forall p | 0 <= p < buf.Length
        ensures buf[p] == Placed(before, start, v)[p]
      {
        if start <= p < start + 16 {
          assert buf[start + (p - start)] == v[p - start];
        }
      }
      assert buf[..] == Placed(before, start, v);
    }
  }

  /** The two in-place writes that stamp version and variant. */
  method Stamp(rnds: array<bv8>)
    requires rnds.Length >= 16
    modifies rnds
    ensures rnds[..] == Versioned(old(rnds[..]))
  {
    rnds[6] := (rnds[6] & 15) | 64;
    rnds[8] := (rnds[8] & 63) | 128;
  }

  /** v4(options, buf, offset) with options.random = rnds. The version and
      variant bits are stamped into rnds itself, before any bounds check. */
  method V4(rnds: array<bv8>, buf: array?<bv8>, offset: Option<int>) returns (r: Result<V4Value, V4Error>)
    modifies rnds, buf
    ensures rnds.Length < 16 ==>
      && r == Failure(RandomTooShort)
      && V4ErrorMessage(r.error) == "Random bytes length must be >= 16"
      && unchanged(rnds)
      && (buf != null ==> unchanged(buf))
    ensures rnds.Length >= 16 && buf == null ==>
      && rnds[..] == Versioned(old(rnds[..]))
      && r == Success(UuidString(UnsafeStringify(Numbers(Versioned(old(rnds[..]))), 0)))
    ensures rnds.Length >= 16 && buf != null &&
            (OffsetOrZero(offset) < 0 || OffsetOrZero(offset) + 16 > buf.Length) ==>
      && r == Failure(OutOfBounds(OffsetOrZero(offset)))
      && V4ErrorMessage(r.error) == "UUID byte range " + JsString(Number(OffsetOrZero(offset))) + ":" +
                                    JsString(Number(OffsetOrZero(offset) + 15)) + " is out of buffer bounds"
      && rnds[..] == Versioned(old(rnds[..]))
      && (buf != rnds ==> unchanged(buf))
    ensures rnds.Length >= 16 && buf != null &&
            0 <= OffsetOrZero(offset) && OffsetOrZero(offset) + 16 <= buf.Length ==>
      && r == Success(Buffer(buf))
      && (buf != rnds ==>
            && rnds[..] == Versioned(old(rnds[..]))
            && buf[..] == Placed(old(buf[..]), OffsetOrZero(offset), Versioned(old(rnds[..]))))
      && (buf == rnds ==>
            buf[..] == SelfPlaced(Versioned(old(rnds[..])), OffsetOrZero(offset)))
  {
    if rnds.Length < 16 {
      return Failure(RandomTooShort);
    }
    Stamp(rnds);
    if buf != null {
      var start := OffsetOrZero(offset);
      if start < 0 || start + 16 > buf.Length {
        return Failure(OutOfBounds(start));
      }
      CopyBytes(rnds, buf, start);
      return Success(Buffer(buf));
    }
    r := Success(UuidString(UnsafeStringify(Numbers(rnds[..]), 0)));
  }
}
