/**
 Framing of a self-extracting installer: a stub, a ZIP payload, its length, a magic number and, in a
 signed file, alignment bytes before a terminal certificate table.
 */
module Payload {
  import opened Prelude

  newtype byte = b: int | 0 <= b < 256

  const MAGIC: seq<byte> := [69, 69, 70, 73, 78, 83, 84, 49]   // EEFINST1
  const ZIP: seq<byte> := [80, 75, 3, 4]
  const MZ: seq<byte> := [77, 90]
  const PE: seq<byte> := [80, 69, 0, 0]

  function LittleEndian(s: seq<byte>): nat {
    if s == [] then 0 else s[0] as nat + 256 * LittleEndian(s[1..])
  }

  /** An unsigned little-endian field of n bytes. */
  function Field(data: seq<byte>, offset: nat, n: nat): nat
    requires offset + n <= |data|
  {
    LittleEndian(data[offset..offset + n])
  }

  function RoundUp8(n: nat): (r: nat)
    ensures r % 8 == 0 && n <= r < n + 8
  {
    (n + 7) / 8 * 8
  }

  // ------------------------------------------------------------------ headers and certificate table

  /** What the PE headers say about the end of the content. */
  datatype Header = Bad | Unsigned | Table(start: nat)

  function DirectoryOffset(kind: nat): Option<nat> {
    if kind == 0x10b then Some(96) else if kind == 0x20b then Some(112) else None
  }

  function ReadHeader(data: seq<byte>): (r: Header)
    ensures r.Table? ==> r.start % 8 == 0 && 0 < r.start && r.start + 8 <= |data|
  {
    if |data| < 64 || data[..2] != MZ then Unsigned
    else
      var pe := Field(data, 0x3c, 4);
      if pe < 64 || pe + 24 > |data| || data[pe..pe + 4] != PE then Bad
      else ReadOptional(data, pe + 24, Field(data, pe + 20, 2))
  }

  function ReadOptional(data: seq<byte>, optional: nat, size: nat): (r: Header)
    ensures r.Table? ==> r.start % 8 == 0 && 0 < r.start && r.start + 8 <= |data|
  {
    if size < 2 || optional + size > |data| then Bad
    else
      var directories := DirectoryOffset(Field(data, optional, 2));
      if directories.None? || size < directories.value then Bad
      else if Field(data, optional + directories.value - 4, 4) <= 4 then Unsigned
      else if size < directories.value + 40 then Bad
      else
        var start := Field(data, optional + directories.value + 32, 4);
        var length := Field(data, optional + directories.value + 36, 4);
        if start == 0 && length == 0 then Unsigned
        else if start < optional + directories.value + 40 || start % 8 != 0 || length < 8 || start + length != |data| then Bad
        else Table(start)
  }

  /** Where the entry after the given ones begins. */
  function EntryEnd(start: nat, lengths: seq<nat>): nat {
    if lengths == [] then start else EntryEnd(start, lengths[..|lengths| - 1]) + RoundUp8(lengths[|lengths| - 1])
  }

  /** The entries lie one after the other, 8-byte aligned, each as long as its own first field says. */
  predicate Entries(data: seq<byte>, start: nat, lengths: seq<nat>) {
    forall i | 0 <= i < |lengths| ::
      var at := EntryEnd(start, lengths[..i]);
      && at + 8 <= |data| && Field(data, at, 4) == lengths[i] >= 8 && at + lengths[i] <= |data|
  }

  /** The certificate entries fill the table exactly. */
  predicate Tiles(data: seq<byte>, start: nat, lengths: seq<nat>) {
    Entries(data, start, lengths) && EntryEnd(start, lengths) == |data|
  }

  ghost predicate Accepted(data: seq<byte>) {
    match ReadHeader(data)
    case Bad => false
    case Unsigned => true
    case Table(start) => exists lengths :: Tiles(data, start, lengths)
  }

  function ContentEnd(data: seq<byte>): nat {
    if ReadHeader(data).Table? then ReadHeader(data).start else |data|
  }

  function MaxPadding(data: seq<byte>): nat { if ReadHeader(data).Table? then 7 else 0 }

  lemma {:induction false} EntryEndGrows(start: nat, lengths: seq<nat>, n: nat)
    requires n <= |lengths| && forall i | 0 <= i < |lengths| :: lengths[i] >= 8
    ensures EntryEnd(start, lengths[..n]) + 8 * (|lengths| - n) <= EntryEnd(start, lengths)
  {
    if n < |lengths| {
      var front := lengths[..|lengths| - 1];
      EntryEndGrows(start, front, n);
      assert front[..n] == lengths[..n];
    } else {
      assert lengths[..n] == lengths;
    }
  }

  lemma EntryRead(data: seq<byte>, start: nat, lengths: seq<nat>, n: nat)
    requires Entries(data, start, lengths) && n < |lengths|
    ensures EntryEnd(start, lengths[..n]) + 8 <= |data|
    ensures lengths[n] == Field(data, EntryEnd(start, lengths[..n]), 4)
  {
  }

  lemma SameEntry(data: seq<byte>, start: nat, a: seq<nat>, b: seq<nat>, n: nat)
    requires Entries(data, start, a) && Entries(data, start, b) && n < |a| && n < |b| && a[..n] == b[..n]
    ensures a[n] == b[n]
  {
    EntryRead(data, start, a, n);
    EntryRead(data, start, b, n);
  }

  lemma OneMore(a: seq<nat>, b: seq<nat>, n: nat)
    requires n < |a| && n < |b| && a[..n] == b[..n] && a[n] == b[n]
    ensures a[..n + 1] == b[..n + 1]
  {
    assert a[..n + 1] == a[..n] + [a[n]] && b[..n + 1] == b[..n] + [b[n]];
  }

  /** Two readings of one table agree as far as both go, so the tiling is unique. */
  lemma {:induction false} AgreeUpTo(data: seq<byte>, start: nat, a: seq<nat>, b: seq<nat>, n: nat)
    requires Entries(data, start, a) && Entries(data, start, b) && n <= |a| && n <= |b|
    ensures a[..n] == b[..n]
  {
    if n > 0 {
      AgreeUpTo(data, start, a, b, n - 1);
      SameEntry(data, start, a, b, n - 1);
      OneMore(a, b, n - 1);
    }
  }

  /** Nothing can be read past a complete tiling. */
  lemma NothingAfter(data: seq<byte>, start: nat, lengths: seq<nat>, read: seq<nat>)
    requires Tiles(data, start, lengths) && Entries(data, start, read) && |lengths| <= |read|
    ensures read == lengths
  {
    AgreeUpTo(data, start, lengths, read, |lengths|);
    assert lengths[..|lengths|] == lengths;
    var at := EntryEnd(start, read[..|lengths|]);
    assert |lengths| < |read| ==> at + 8 <= |data|;
    assert read[..|read|] == read;
  }

  lemma TilingUnique(data: seq<byte>, start: nat, a: seq<nat>, b: seq<nat>)
    requires Tiles(data, start, a) && Tiles(data, start, b)
    ensures a == b
  {
    if |a| <= |b| {
      NothingAfter(data, start, a, b);
    } else {
      NothingAfter(data, start, b, a);
    }
  }

  /** An entry can be read at this offset. */
  predicate Readable(data: seq<byte>, at: nat) {
    at + 8 <= |data| && Field(data, at, 4) >= 8 && at + Field(data, at, 4) <= |data|
  }

  lemma NextReadable(data: seq<byte>, start: nat, lengths: seq<nat>, n: nat)
    requires Entries(data, start, lengths) && n < |lengths|
    ensures Readable(data, EntryEnd(start, lengths[..n]))
  {
    var at := EntryEnd(start, lengths[..n]);
    assert at + 8 <= |data| && Field(data, at, 4) == lengths[n] >= 8;
  }

  /** If the table can be tiled at all, reading has either finished or can go on. */
  lemma Continues(data: seq<byte>, start: nat, read: seq<nat>, lengths: seq<nat>)
    requires Entries(data, start, read) && Tiles(data, start, lengths)
    ensures EntryEnd(start, read) == |data| || Readable(data, EntryEnd(start, read))
  {
    if |lengths| <= |read| {
      NothingAfter(data, start, lengths, read);
    } else {
      AgreeUpTo(data, start, read, lengths, |read|);
      assert read[..|read|] == read;
      NextReadable(data, start, lengths, |read|);
    }
  }

  /** The loop over certificate entries. */
  method ReadTable(data: seq<byte>, start: nat) returns (ok: bool, ghost lengths: seq<nat>)
    requires start <= |data|
    ensures ok ==> Tiles(data, start, lengths)
    ensures !ok ==> forall other :: !Tiles(data, start, other)
  {
    var position := start;
    lengths := [];
    while position < |data|
      invariant position == EntryEnd(start, lengths) && Entries(data, start, lengths)
      decreases |data| - position
    {
      forall other | Tiles(data, start, other) ensures Readable(data, position) {
        Continues(data, start, lengths, other);
      }
      if |data| - position < 8 {
        return false, lengths;
      }
      var entry := Field(data, position, 4);
      if entry < 8 || position + entry > |data| {
        return false, lengths;
      }
      Extend(data, start, lengths, entry);
      lengths := lengths + [entry];
      position := position + RoundUp8(entry);
    }
    forall other | Tiles(data, start, other) ensures position == |data| || Readable(data, position) {
      Continues(data, start, lengths, other);
    }
    return position == |data|, lengths;
  }

  lemma Extend(data: seq<byte>, start: nat, lengths: seq<nat>, next: nat)
    requires Entries(data, start, lengths) && EntryEnd(start, lengths) + 8 <= |data|
    requires Field(data, EntryEnd(start, lengths), 4) == next >= 8 && EntryEnd(start, lengths) + next <= |data|
    ensures Entries(data, start, lengths + [next])
    ensures EntryEnd(start, lengths + [next]) == EntryEnd(start, lengths) + RoundUp8(next)
  {
    var longer := lengths + [next];
    assert longer[..|lengths|] == lengths;
    forall i | 0 <= i < |longer|
      ensures var at := EntryEnd(start, longer[..i]);
              at + 8 <= |data| && Field(data, at, 4) == longer[i] >= 8 && at + longer[i] <= |data|
    {
      if i < |lengths| {
        assert longer[..i] == lengths[..i];
        var at := EntryEnd(start, lengths[..i]);
        assert at + 8 <= |data| && Field(data, at, 4) == lengths[i] >= 8;
      }
    }
  }

  // ------------------------------------------------------------------ the payload

  /** The content read as stub, ZIP payload, its 8-byte length, the magic and zero padding. */
  datatype Split = Split(stub: seq<byte>, zip: seq<byte>, length: seq<byte>, padding: nat)

  function Zeros(n: nat): seq<byte> { seq(n, _ => 0 as byte) }

  function Joined(s: Split): seq<byte> {
    s.stub + s.zip + s.length + MAGIC + Zeros(s.padding)
  }

  /** The content up to `end` is this split. */
  predicate SplitsAt(data: seq<byte>, end: nat, s: Split) {
    && end <= |data| && data[..end] == Joined(s)
    && |s.length| == 8 && LittleEndian(s.length) == |s.zip|
    && |s.zip| >= 4 && s.zip[..4] == ZIP
  }

  predicate Splits(data: seq<byte>, s: Split) {
    SplitsAt(data, ContentEnd(data), s) && s.padding <= MaxPadding(data)
  }

  lemma Slice(data: seq<byte>, end: nat, a: nat, b: nat)
    requires a <= b <= end <= |data|
    ensures data[..end][a..b] == data[a..b]
  {
  }

  lemma JoinedParts(s: Split)
    requires |s.length| == 8
    ensures var all := Joined(s);
            var footer := |s.stub| + |s.zip|;
            && |all| == footer + 16 + s.padding
            && all[..|s.stub|] == s.stub && all[|s.stub|..footer] == s.zip
            && all[footer..footer + 8] == s.length && all[footer + 8..footer + 16] == MAGIC
            && forall i | footer + 16 <= i < |all| :: all[i] == 0
  {
  }

  lemma SplitLayout(data: seq<byte>, end: nat, s: Split)
    requires SplitsAt(data, end, s)
    ensures var footer := |s.stub| + |s.zip|;
            && footer + 16 + s.padding == end
            && data[footer + 8..footer + 16] == MAGIC
            && (forall i | end - s.padding <= i < end :: data[i] == 0)
            && data[footer..footer + 8] == s.length
            && data[|s.stub|..footer] == s.zip && data[..|s.stub|] == s.stub
  {
    JoinedParts(s);
    var footer := |s.stub| + |s.zip|;
    Slice(data, end, footer, footer + 8);
    Slice(data, end, footer + 8, footer + 16);
    Slice(data, end, |s.stub|, footer);
    Slice(data, end, 0, |s.stub|);
    assert forall i | 0 <= i < end :: data[..end][i] == data[i];
  }

  /** The magic number stands at this padding. */
  predicate MagicAt(data: seq<byte>, end: nat, padding: nat)
    requires end <= |data|
  {
    padding + 16 <= end && data[end - padding - 8..end - padding] == MAGIC
  }

  /** So does everything else a payload needs. */
  predicate FooterOk(data: seq<byte>, end: nat, padding: nat)
    requires end <= |data|
  {
    && MagicAt(data, end, padding)
    && (forall i | end - padding <= i < end :: data[i] == 0)
    && var footer := end - padding - 16;
       var length := Field(data, footer, 8);
       4 <= length <= footer && data[footer - length..footer - length + 4] == ZIP
  }

  /** The split that a footer at this padding announces. */
  function SplitFrom(data: seq<byte>, end: nat, padding: nat): Split
    requires end <= |data| && FooterOk(data, end, padding)
  {
    var footer := end - padding - 16;
    var start := footer - Field(data, footer, 8);
    Split(data[..start], data[start..footer], data[footer..footer + 8], padding)
  }

  lemma SplitFooter(data: seq<byte>, end: nat, s: Split)
    requires SplitsAt(data, end, s)
    ensures FooterOk(data, end, s.padding) && SplitFrom(data, end, s.padding) == s
  {
    SplitLayout(data, end, s);
    var footer := |s.stub| + |s.zip|;
    Slice(data, footer, |s.stub|, |s.stub| + 4);
    assert s.zip[..4] == data[|s.stub|..|s.stub| + 4];
  }

  lemma Pieces(data: seq<byte>, a: nat, b: nat, c: nat, d: nat, e: nat)
    requires a <= b <= c <= d <= e <= |data|
    ensures data[..e] == data[..a] + data[a..b] + data[b..c] + data[c..d] + data[d..e]
  {
  }

  lemma AllZero(data: seq<byte>, a: nat, b: nat)
    requires a <= b <= |data| && forall i | a <= i < b :: data[i] == 0
    ensures data[a..b] == Zeros(b - a)
  {
  }

  lemma JoinedPieces(data: seq<byte>, start: nat, footer: nat, end: nat, padding: nat)
    requires start <= footer && footer + 16 + padding == end <= |data|
    requires data[footer + 8..footer + 16] == MAGIC && data[footer + 16..end] == Zeros(padding)
    ensures Joined(Split(data[..start], data[start..footer], data[footer..footer + 8], padding)) == data[..end]
  {
    Pieces(data, start, footer, footer + 8, footer + 16, end);
  }

  lemma ZipFront(data: seq<byte>, start: nat, footer: nat)
    requires start + 4 <= footer <= |data|
    ensures data[start..footer][..4] == data[start..start + 4]
  {
  }

  lemma PiecesSplit(data: seq<byte>, start: nat, footer: nat, end: nat, padding: nat)
    requires start + 4 <= footer && footer + 16 + padding == end <= |data| && Field(data, footer, 8) == footer - start
    requires data[footer + 8..footer + 16] == MAGIC && data[footer + 16..end] == Zeros(padding)
    requires data[start..start + 4] == ZIP
    ensures SplitsAt(data, end, Split(data[..start], data[start..footer], data[footer..footer + 8], padding))
  {
    JoinedPieces(data, start, footer, end, padding);
    ZipFront(data, start, footer);
  }

  /** Reading the layout back: what stands at the footer is a split of the content. */
  lemma FooterSplits(data: seq<byte>, end: nat, padding: nat)
    requires end <= |data| && FooterOk(data, end, padding)
    ensures SplitsAt(data, end, SplitFrom(data, end, padding))
  {
    var footer := end - padding - 16;
    AllZero(data, end - padding, end);
    PiecesSplit(data, footer - Field(data, footer, 8), footer, end, padding);
  }

  /** A magic number closer to the end would have to lie in the zero padding. */
  lemma PaddingUnique(data: seq<byte>, end: nat, s: Split, padding: nat)
    requires SplitsAt(data, end, s) && MagicAt(data, end, padding)
    ensures s.padding <= padding
  {
    SplitLayout(data, end, s);
    assert data[end - padding - 8..end - padding][7] == data[end - padding - 1] == 49;
  }

  lemma SameSplit(data: seq<byte>, end: nat, a: Split, b: Split)
    requires SplitsAt(data, end, a) && SplitsAt(data, end, b)
    ensures a == b
  {
    SplitFooter(data, end, a);
    SplitFooter(data, end, b);
    PaddingUnique(data, end, a, b.padding);
    PaddingUnique(data, end, b, a.padding);
  }

  /** The split is unique. */
  lemma SplitUnique(data: seq<byte>, a: Split, b: Split)
    requires Splits(data, a) && Splits(data, b)
    ensures a == b
  {
    SameSplit(data, ContentEnd(data), a, b);
  }

  /** The outcome at one padding: none when the magic is not there, otherwise accepted or refused. */
  datatype Probe = Absent | Refused | Found(start: nat, footer: nat)

  method ProbePadding(data: seq<byte>, end: nat, padding: nat) returns (probe: Probe)
    requires end <= |data|
    ensures probe.Absent? <==> !MagicAt(data, end, padding)
    ensures probe.Found? <==> FooterOk(data, end, padding)
    ensures probe.Found? ==>
              probe.start == |SplitFrom(data, end, padding).stub| && probe.footer == probe.start + |SplitFrom(data, end, padding).zip|
  {
    if end < padding + 16 {
      return Absent;
    }
    var footer := end - padding - 16;
    if data[footer + 8..footer + 16] != MAGIC {
      return Absent;
    }
    for i := end - padding to end
      invariant forall k | end - padding <= k < i :: data[k] == 0
    {
      if data[i] != 0 {
        return Refused;
      }
    }
    var length := Field(data, footer, 8);
    if length > footer || length < 4 || data[footer - length..footer - length + 4] != ZIP {
      return Refused;
    }
    return Found(footer - length, footer);
  }

  // ------------------------------------------------------------------ the file by its byte positions

  /** Little-endian words of two, four and eight bytes. */
  function Word(data: seq<byte>, at: nat): nat
    requires at + 2 <= |data|
  {
    data[at] as nat + 0x100 * data[at + 1] as nat
  }

  function DoubleWord(data: seq<byte>, at: nat): nat
    requires at + 4 <= |data|
  {
    Word(data, at) + 0x1_0000 * Word(data, at + 2)
  }

  function QuadWord(data: seq<byte>, at: nat): nat
    requires at + 8 <= |data|
  {
    DoubleWord(data, at) + 0x1_0000_0000 * DoubleWord(data, at + 4)
  }

  lemma FieldBytes(data: seq<byte>, at: nat, n: nat)
    requires 0 < n && at + n <= |data|
    ensures Field(data, at, n) == data[at] as nat + 256 * Field(data, at + 1, n - 1)
  {
    assert data[at..at + n][1..] == data[at + 1..at + 1 + (n - 1)];
  }

  lemma FieldTwo(data: seq<byte>, at: nat)
    requires at + 2 <= |data|
    ensures Field(data, at, 2) == Word(data, at)
  {
    FieldBytes(data, at, 2);
    FieldBytes(data, at + 1, 1);
  }

  lemma FieldFour(data: seq<byte>, at: nat)
    requires at + 4 <= |data|
    ensures Field(data, at, 4) == DoubleWord(data, at)
  {
    FieldBytes(data, at, 4);
    FieldBytes(data, at + 1, 3);
    FieldTwo(data, at + 2);
  }

  lemma FieldEight(data: seq<byte>, at: nat)
    requires at + 8 <= |data|
    ensures Field(data, at, 8) == QuadWord(data, at)
  {
    FieldBytes(data, at, 8);
    FieldBytes(data, at + 1, 7);
    FieldBytes(data, at + 2, 6);
    FieldBytes(data, at + 3, 5);
    FieldFour(data, at + 4);
  }

  /** An executable starts with the letters MZ and is long enough for the address of its PE header. */
  predicate Executable(data: seq<byte>) { |data| >= 64 && data[0] == 77 && data[1] == 90 }

  function PeAt(data: seq<byte>): nat
    requires Executable(data)
  {
    DoubleWord(data, 60)
  }

  /** The PE header lies at the address at byte 60, behind that address, with its signature. */
  predicate HasPe(data: seq<byte>) {
    && Executable(data) && 64 <= PeAt(data) && PeAt(data) + 24 <= |data|
    && data[PeAt(data)] == 80 && data[PeAt(data) + 1] == 69 && data[PeAt(data) + 2] == 0 && data[PeAt(data) + 3] == 0
  }

  function OptionalEnd(data: seq<byte>): nat
    requires HasPe(data)
  {
    PeAt(data) + 24 + Word(data, PeAt(data) + 20)
  }

  /** The optional header lies in the file and is of this kind. */
  predicate OfKind(data: seq<byte>, kind: nat) {
    HasPe(data) && PeAt(data) + 26 <= OptionalEnd(data) <= |data| && Word(data, PeAt(data) + 24) == kind
  }

  /** An optional header of 32 or 64 bits, with the positions of its number of directories and of the fifth of
      them, the certificate directory; the former lies in the header. */
  predicate Directories(data: seq<byte>, count: nat, certificates: nat) {
    && (|| (OfKind(data, 0x10b) && count == PeAt(data) + 24 + 92 && certificates == PeAt(data) + 24 + 128)
        || (OfKind(data, 0x20b) && count == PeAt(data) + 24 + 108 && certificates == PeAt(data) + 24 + 144))
    && count + 4 <= OptionalEnd(data)
  }

  /** The header points to no certificates: at most four directories, or an empty fifth one. */
  predicate NoCertificates(data: seq<byte>, count: nat, certificates: nat) {
    && Directories(data, count, certificates)
    && (|| DoubleWord(data, count) <= 4
        || (certificates + 8 <= OptionalEnd(data) && DoubleWord(data, certificates) == 0 && DoubleWord(data, certificates + 4) == 0))
  }

  /** The header points to a table at `start`, aligned, behind the directory, and reaching the end of the file. */
  predicate CertificatesAt(data: seq<byte>, count: nat, certificates: nat, start: nat) {
    && Directories(data, count, certificates)
    && DoubleWord(data, count) > 4 && certificates + 8 <= OptionalEnd(data)
    && start == DoubleWord(data, certificates) && start >= certificates + 8 && start % 8 == 0
    && DoubleWord(data, certificates + 4) >= 8 && start + DoubleWord(data, certificates + 4) == |data|
  }

  ghost predicate UnsignedFile(data: seq<byte>) {
    !Executable(data) || exists count, certificates :: NoCertificates(data, count, certificates)
  }

  ghost predicate SignedFile(data: seq<byte>, start: nat) {
    exists count, certificates :: CertificatesAt(data, count, certificates, start)
  }

  lemma OptionalIs(data: seq<byte>, base: nat)
    requires HasPe(data) && PeAt(data) + 26 <= OptionalEnd(data) <= |data|
    requires DirectoryOffset(Word(data, PeAt(data) + 24)) == Some(base)
    ensures base + 24 + PeAt(data) <= OptionalEnd(data) ==> Directories(data, PeAt(data) + 20 + base, PeAt(data) + 56 + base)
    ensures forall count, certificates | Directories(data, count, certificates) ::
              && count == PeAt(data) + 20 + base && certificates == PeAt(data) + 56 + base
              && base + 24 + PeAt(data) <= OptionalEnd(data)
  {
  }

  lemma ReadOptionalIs(data: seq<byte>, base: nat)
    requires HasPe(data) && PeAt(data) + 26 <= OptionalEnd(data) <= |data|
    requires DirectoryOffset(Word(data, PeAt(data) + 24)) == Some(base)
    ensures var r := ReadOptional(data, PeAt(data) + 24, OptionalEnd(data) - PeAt(data) - 24);
            && (r.Unsigned? <==> UnsignedFile(data))
            && forall start: nat :: r == Table(start) <==> SignedFile(data, start)
  {
    var count, certificates := PeAt(data) + 20 + base, PeAt(data) + 56 + base;
    OptionalIs(data, base);
    FieldTwo(data, PeAt(data) + 24);
    if base + 24 + PeAt(data) <= OptionalEnd(data) {
      FieldFour(data, count);
      assert UnsignedFile(data) <==> NoCertificates(data, count, certificates);
      assert forall start :: SignedFile(data, start) <==> CertificatesAt(data, count, certificates, start);
      if certificates + 8 <= OptionalEnd(data) {
        FieldFour(data, certificates);
        FieldFour(data, certificates + 4);
      }
    } else {
      assert forall n, c :: !Directories(data, n, c);
    }
  }

  lemma NoDirectories(data: seq<byte>)
    requires Executable(data)
    requires HasPe(data) && PeAt(data) + 26 <= OptionalEnd(data) <= |data| ==> DirectoryOffset(Word(data, PeAt(data) + 24)).None?
    ensures !UnsignedFile(data) && forall start :: !SignedFile(data, start)
  {
    assert forall n, c :: !Directories(data, n, c);
  }

  lemma MzIs(data: seq<byte>)
    ensures |data| >= 64 && data[..2] == MZ <==> Executable(data)
  {
    if |data| >= 2 {
      assert data[..2] == [data[0], data[1]];
    }
  }

  lemma SignatureIs(data: seq<byte>)
    requires Executable(data)
    ensures 64 <= PeAt(data) && PeAt(data) + 24 <= |data| && data[PeAt(data)..PeAt(data) + 4] == PE <==> HasPe(data)
  {
    var pe := PeAt(data);
    if pe + 4 <= |data| {
      assert data[pe..pe + 4] == [data[pe], data[pe + 1], data[pe + 2], data[pe + 3]];
    }
  }

  lemma BadHeader(data: seq<byte>)
    requires HasPe(data)
    requires PeAt(data) + 26 <= OptionalEnd(data) <= |data| ==> DirectoryOffset(Word(data, PeAt(data) + 24)).None?
    ensures ReadOptional(data, PeAt(data) + 24, OptionalEnd(data) - PeAt(data) - 24).Bad?
  {
    if PeAt(data) + 26 <= OptionalEnd(data) <= |data| {
      FieldTwo(data, PeAt(data) + 24);
    }
  }

  lemma PeIs(data: seq<byte>)
    requires HasPe(data)
    ensures var r := ReadOptional(data, PeAt(data) + 24, OptionalEnd(data) - PeAt(data) - 24);
            && (r.Unsigned? <==> UnsignedFile(data))
            && forall start: nat :: r == Table(start) <==> SignedFile(data, start)
  {
    var pe := PeAt(data);
    if pe + 26 <= OptionalEnd(data) <= |data| && DirectoryOffset(Word(data, pe + 24)).Some? {
      ReadOptionalIs(data, DirectoryOffset(Word(data, pe + 24)).value);
    } else {
      BadHeader(data);
      NoDirectories(data);
    }
  }

  /** What the headers are read as is what their bytes say: unsigned, signed with this table, or bad. */
  lemma HeaderIs(data: seq<byte>)
    ensures ReadHeader(data).Unsigned? <==> UnsignedFile(data)
    ensures forall start: nat :: ReadHeader(data) == Table(start) <==> SignedFile(data, start)
  {
    MzIs(data);
    if Executable(data) {
      FieldFour(data, 60);
      SignatureIs(data);
      if HasPe(data) {
        FieldTwo(data, PeAt(data) + 20);
        PeIs(data);
      } else {
        NoDirectories(data);
      }
    }
  }

  /** The entry at one position says its length in its first four bytes; the next follows at the next multiple of eight. */
  predicate EntryTo(data: seq<byte>, at: nat, next: nat) {
    && at + 8 <= |data| && 8 <= DoubleWord(data, at) <= |data| - at
    && at + DoubleWord(data, at) <= next < at + DoubleWord(data, at) + 8 && (next - at) % 8 == 0
  }

  /** A walk over the certificate entries, up to the end of the file. */
  predicate Walk(data: seq<byte>, start: nat, positions: seq<nat>) {
    && |positions| >= 1 && positions[0] == start && positions[|positions| - 1] == |data|
    && forall i | 0 <= i < |positions| - 1 :: EntryTo(data, positions[i], positions[i + 1])
  }

  lemma RoundedIs(n: nat, m: nat)
    requires m % 8 == 0 && n <= m < n + 8
    ensures m == RoundUp8(n)
  {
  }

  lemma EntryStep(data: seq<byte>, start: nat, lengths: seq<nat>, i: nat)
    requires Entries(data, start, lengths) && i < |lengths|
    ensures EntryTo(data, EntryEnd(start, lengths[..i]), EntryEnd(start, lengths[..i + 1]))
  {
    var at := EntryEnd(start, lengths[..i]);
    assert at + 8 <= |data| && Field(data, at, 4) == lengths[i] >= 8 && at + lengths[i] <= |data|;
    FieldFour(data, at);
    assert lengths[..i + 1][..i] == lengths[..i] && lengths[..i + 1][i] == lengths[i];
  }

  function Ends(start: nat, lengths: seq<nat>): (r: seq<nat>)
    ensures |r| == |lengths| + 1 && forall i | 0 <= i <= |lengths| :: r[i] == EntryEnd(start, lengths[..i])
  {
    seq(|lengths| + 1, i requires 0 <= i <= |lengths| => EntryEnd(start, lengths[..i]))
  }

  lemma TilesWalk(data: seq<byte>, start: nat, lengths: seq<nat>)
    requires Tiles(data, start, lengths)
    ensures Walk(data, start, Ends(start, lengths))
  {
    assert lengths[..|lengths|] == lengths;
    var positions := Ends(start, lengths);
    forall i | 0 <= i < |positions| - 1 ensures EntryTo(data, positions[i], positions[i + 1]) {
      EntryStep(data, start, lengths, i);
    }
  }

  /** The length that stands at a position, if one does. */
  function LengthAt(data: seq<byte>, at: nat): nat { if at + 4 <= |data| then DoubleWord(data, at) else 0 }

  lemma {:induction false} WalkEnds(data: seq<byte>, start: nat, positions: seq<nat>, lengths: seq<nat>, n: nat)
    requires Walk(data, start, positions) && |lengths| == |positions| - 1 && n <= |lengths|
    requires forall i | 0 <= i < |lengths| :: lengths[i] == LengthAt(data, positions[i])
    ensures EntryEnd(start, lengths[..n]) == positions[n]
  {
    if n > 0 {
      WalkEnds(data, start, positions, lengths, n - 1);
      assert lengths[..n][..n - 1] == lengths[..n - 1] && lengths[..n][n - 1] == lengths[n - 1];
      assert EntryTo(data, positions[n - 1], positions[n - 1 + 1]);
      RoundedIs(lengths[n - 1], positions[n] - positions[n - 1]);
    }
  }

  lemma WalkTiles(data: seq<byte>, start: nat, positions: seq<nat>) returns (lengths: seq<nat>)
    requires Walk(data, start, positions)
    ensures Tiles(data, start, lengths)
  {
    lengths := seq(|positions| - 1, i requires 0 <= i < |positions| - 1 => LengthAt(data, positions[i]));
    forall i | 0 <= i < |lengths|
      ensures var at := EntryEnd(start, lengths[..i]);
              at + 8 <= |data| && Field(data, at, 4) == lengths[i] >= 8 && at + lengths[i] <= |data|
    {
      WalkEnds(data, start, positions, lengths, i);
      assert EntryTo(data, positions[i], positions[i + 1]);
      FieldFour(data, positions[i]);
    }
    WalkEnds(data, start, positions, lengths, |lengths|);
    assert lengths[..|lengths|] == lengths;
  }

  ghost predicate Walks(data: seq<byte>, start: nat) { exists positions :: Walk(data, start, positions) }

  lemma TableIs(data: seq<byte>, start: nat)
    ensures (exists lengths :: Tiles(data, start, lengths)) <==> Walks(data, start)
  {
    if lengths :| Tiles(data, start, lengths) {
      TilesWalk(data, start, lengths);
    }
    if positions :| Walk(data, start, positions) {
      var lengths := WalkTiles(data, start, positions);
    }
  }

  /** A ZIP payload from `start` to `footer`, its length, the letters EEFINST1, and zeros up to `end`. */
  predicate Packed(data: seq<byte>, end: nat, padding: nat, start: nat, footer: nat) {
    && footer + 16 + padding == end <= |data| && start + 4 <= footer
    && data[start] == 80 && data[start + 1] == 75 && data[start + 2] == 3 && data[start + 3] == 4
    && QuadWord(data, footer) == footer - start
    && (forall i | 0 <= i < 8 :: data[footer + 8 + i] as int as char == "EEFINST1"[i])
    && (forall i | end - padding <= i < end :: data[i] == 0)
  }

  lemma MagicIs(data: seq<byte>, at: nat)
    requires at + 8 <= |data|
    ensures data[at..at + 8] == MAGIC <==> forall i | 0 <= i < 8 :: data[at + i] as int as char == "EEFINST1"[i]
  {
    assert forall i | 0 <= i < 8 :: MAGIC[i] as int as char == "EEFINST1"[i];
    var piece := data[at..at + 8];
    assert forall i | 0 <= i < 8 :: piece[i] == data[at + i];
  }

  lemma ZipIs(data: seq<byte>, at: nat)
    requires at + 4 <= |data|
    ensures data[at..at + 4] == ZIP <==> data[at] == 80 && data[at + 1] == 75 && data[at + 2] == 3 && data[at + 3] == 4
  {
    assert data[at..at + 4] == [data[at], data[at + 1], data[at + 2], data[at + 3]];
  }

  lemma PackedIs(data: seq<byte>, end: nat, padding: nat, start: nat, footer: nat)
    requires end <= |data|
    ensures Packed(data, end, padding, start, footer) <==>
            && FooterOk(data, end, padding) && footer + 16 + padding == end && start + Field(data, footer, 8) == footer
  {
    if footer + 16 + padding == end {
      MagicIs(data, footer + 8);
      FieldEight(data, footer);
      if start + 4 <= footer {
        ZipIs(data, start);
      }
    }
  }

  /** The split of a packed content, and back. */
  lemma PackedSplits(data: seq<byte>, end: nat, padding: nat, start: nat, footer: nat)
    requires end <= |data|
    ensures Packed(data, end, padding, start, footer) <==>
            exists s :: SplitsAt(data, end, s) && s.padding == padding && |s.stub| == start && |s.stub| + |s.zip| == footer
  {
    PackedIs(data, end, padding, start, footer);
    if Packed(data, end, padding, start, footer) {
      FooterSplits(data, end, padding);
      var s := SplitFrom(data, end, padding);
      assert SplitsAt(data, end, s) && s.padding == padding && |s.stub| == start && |s.stub| + |s.zip| == footer;
    }
    if s :| SplitsAt(data, end, s) && s.padding == padding && |s.stub| == start && |s.stub| + |s.zip| == footer {
      SplitFooter(data, end, s);
      SplitLayout(data, end, s);
    }
  }

  /** The content up to `end` is packed, but for at most this many zeros. */
  predicate PackedWithin(data: seq<byte>, end: nat, most: nat, start: nat, footer: nat) {
    exists padding | 0 <= padding <= most :: Packed(data, end, padding, start, footer)
  }

  /** An installer with its payload from `start` to `footer`: unsigned and ending with the footer, or signed, with
      at most seven bytes of padding before its certificates, which fill the rest of the file. */
  ghost predicate Installer(data: seq<byte>, start: nat, footer: nat) {
    || (UnsignedFile(data) && Packed(data, |data|, 0, start, footer))
    || exists table: nat :: SignedFile(data, table) && Walks(data, table) && PackedWithin(data, table, 7, start, footer)
  }

  /** What the header leaves to be found. */
  ghost predicate Located(data: seq<byte>, header: Header, start: nat, footer: nat) {
    match header
    case Bad => false
    case Unsigned => PackedWithin(data, |data|, 0, start, footer)
    case Table(table) => Walks(data, table) && PackedWithin(data, table, 7, start, footer)
  }

  lemma HeaderInstaller(data: seq<byte>, start: nat, footer: nat)
    ensures Installer(data, start, footer) <==> Located(data, ReadHeader(data), start, footer)
  {
    HeaderIs(data);
    if ReadHeader(data).Unsigned? {
      assert PackedWithin(data, |data|, 0, start, footer) <==> Packed(data, |data|, 0, start, footer);
    }
  }

  // ------------------------------------------------------------------ the search

  /** No split lies at a greater padding than the first magic number. */
  lemma FirstIsOnly(data: seq<byte>, end: nat, first: nat, padding: nat)
    requires end <= |data| && MagicAt(data, end, first) && FooterOk(data, end, padding) && first <= padding
    ensures first == padding
  {
    assert data[end - first - 8..end - first][7] == data[end - first - 1] && MAGIC[7] == 49;
  }

  lemma FirstDecides(data: seq<byte>, end: nat, most: nat, first: nat, start: nat, footer: nat)
    requires end <= |data| && first <= most && MagicAt(data, end, first) && forall q: nat | q < first :: !MagicAt(data, end, q)
    ensures PackedWithin(data, end, most, start, footer) <==>
            FooterOk(data, end, first) && footer + 16 + first == end && start + Field(data, footer, 8) == footer
  {
    PackedIs(data, end, first, start, footer);
    if PackedWithin(data, end, most, start, footer) {
      var padding :| 0 <= padding <= most && Packed(data, end, padding, start, footer);
      PackedIs(data, end, padding, start, footer);
      FirstIsOnly(data, end, first, padding);
    }
  }

  lemma NoneDecides(data: seq<byte>, end: nat, most: nat, start: nat, footer: nat)
    requires end <= |data| && forall q: nat | q <= most :: !MagicAt(data, end, q)
    ensures !PackedWithin(data, end, most, start, footer)
  {
    if PackedWithin(data, end, most, start, footer) {
      var padding :| 0 <= padding <= most && Packed(data, end, padding, start, footer);
      PackedIs(data, end, padding, start, footer);
    }
  }

  /** The search for the footer, from the end backwards over the possible padding. */
  method FindFooter(data: seq<byte>, end: nat, most: nat) returns (range: Option<(nat, nat)>)
    requires end <= |data|
    ensures forall start: nat, footer: nat :: range == Some((start, footer)) <==> PackedWithin(data, end, most, start, footer)
  {
    var padding: nat := 0;
    while padding <= most
      invariant padding <= most + 1
      invariant forall q: nat | q < padding :: !MagicAt(data, end, q)
      decreases most + 1 - padding
    {
      var probe := ProbePadding(data, end, padding);
      if !probe.Absent? {
        range := if probe.Found? then Some((probe.start, probe.footer)) else None;
        forall start: nat, footer: nat ensures range == Some((start, footer)) <==> PackedWithin(data, end, most, start, footer) {
          FirstDecides(data, end, most, padding, start, footer);
        }
        return;
      }
      padding := padding + 1;
    }
    forall start: nat, footer: nat ensures !PackedWithin(data, end, most, start, footer) {
      NoneDecides(data, end, most, start, footer);
    }
    return None;
  }

  /** Where the payload is: exactly where the bytes of the file put it, and nowhere when they do not. */
  method PayloadRange(data: seq<byte>) returns (range: Option<(nat, nat)>)
    ensures forall start: nat, footer: nat :: range == Some((start, footer)) <==> Installer(data, start, footer)
  {
    forall start: nat, footer: nat ensures Installer(data, start, footer) <==> Located(data, ReadHeader(data), start, footer) {
      HeaderInstaller(data, start, footer);
    }
    var header := ReadHeader(data);
    if header.Bad? {
      return None;
    }
    if header.Table? {
      var ok, lengths := ReadTable(data, header.start);
      TableIs(data, header.start);
      if !ok {
        return None;
      }
    }
    range := FindFooter(data, ContentEnd(data), MaxPadding(data));
  }

  lemma LocatedIs(data: seq<byte>, start: nat, footer: nat)
    ensures Located(data, ReadHeader(data), start, footer) <==>
            Accepted(data) && PackedWithin(data, ContentEnd(data), MaxPadding(data), start, footer)
  {
    if ReadHeader(data).Table? {
      TableIs(data, ReadHeader(data).start);
    }
  }

  /** The same range as one split of the content, the only one there is. */
  lemma InstallerSplits(data: seq<byte>, start: nat, footer: nat)
    requires Installer(data, start, footer)
    ensures Accepted(data) && exists s :: Splits(data, s) && |s.stub| == start && |s.stub| + |s.zip| == footer
  {
    HeaderInstaller(data, start, footer);
    LocatedIs(data, start, footer);
    var padding :| 0 <= padding <= MaxPadding(data) && Packed(data, ContentEnd(data), padding, start, footer);
    PackedSplits(data, ContentEnd(data), padding, start, footer);
  }

  lemma SplitPlace(data: seq<byte>, s: Split)
    requires Splits(data, s)
    ensures FooterOk(data, ContentEnd(data), s.padding) && s.padding <= MaxPadding(data)
    ensures |s.stub| + |s.zip| + 16 + s.padding == ContentEnd(data)
    ensures |s.stub| + Field(data, |s.stub| + |s.zip|, 8) == |s.stub| + |s.zip|
  {
    SplitFooter(data, ContentEnd(data), s);
    SplitLayout(data, ContentEnd(data), s);
  }

  lemma FooterInstalls(data: seq<byte>, padding: nat, start: nat, footer: nat)
    requires Accepted(data) && padding <= MaxPadding(data) && FooterOk(data, ContentEnd(data), padding)
    requires footer + 16 + padding == ContentEnd(data) && start + Field(data, footer, 8) == footer
    ensures Installer(data, start, footer)
  {
    PackedIs(data, ContentEnd(data), padding, start, footer);
    LocatedIs(data, start, footer);
    HeaderInstaller(data, start, footer);
  }

  lemma SplitInstalls(data: seq<byte>, s: Split)
    requires Accepted(data) && Splits(data, s)
    ensures Installer(data, |s.stub|, |s.stub| + |s.zip|)
  {
    SplitPlace(data, s);
    FooterInstalls(data, s.padding, |s.stub|, |s.stub| + |s.zip|);
  }
}
