/** An archive writer for the reader in PackedTar: ustar headers with checksums, padded
    bodies, every way a name can be written, two zero blocks. Reading what it writes gives
    the entries back. */
module TarRoundTrip {
  import opened Bytes
  import opened Options
  import opened PackedTar
  import opened Packages
  import Pax = PaxRecords

  /** Where the archive name of an entry is written: in the header's name field, split at a
      slash between prefix and name field, in a pax path record, or in a GNU long name. */
  datatype Naming = InName | InPrefix(at: nat) | InPaxRecord | InLongName

  datatype Named = Named(path: Path, entry: Entry, naming: Naming)

  // ---- The writer ----

  function Zeros(n: nat): (s: seq<Byte>)
    ensures |s| == n && AllZero(s)
  {
    seq(n, _ => 0)
  }

  function Octal(n: nat, width: nat): (s: seq<Byte>)
    ensures |s| == width && OctalDigits(s)
  {
    if width == 0 then [] else Octal(n / 8, width - 1) + [48 + n % 8]
  }

  /** The bytes before and after the checksum field. */
  function Before(name: seq<Byte>, mode: nat, size: nat): (s: seq<Byte>)
    requires |name| <= 100
    ensures |s| == 148
  {
    (name + Zeros(100 - |name|)) + (Octal(mode, 7) + [0]) + Zeros(16) + (Octal(size, 11) + [0]) + Zeros(12)
  }

  function After(flag: Byte, prefix: seq<Byte>): (s: seq<Byte>)
    requires |prefix| <= 155
    ensures |s| == 356
  {
    [flag] + Zeros(188) + (prefix + Zeros(155 - |prefix|)) + Zeros(12)
  }

  function Header(name: seq<Byte>, prefix: seq<Byte>, mode: nat, size: nat, flag: Byte): (s: seq<Byte>)
    requires |name| <= 100 && |prefix| <= 155
    ensures |s| == BLOCK
  {
    var sum := Sum(Before(name, mode, size)) + 8 * 0x20 + Sum(After(flag, prefix));
    Before(name, mode, size) + (Octal(sum, 6) + [0, 0x20]) + After(flag, prefix)
  }

  function Block(name: seq<Byte>, prefix: seq<Byte>, mode: nat, flag: Byte, body: seq<Byte>): seq<Byte>
    requires |name| <= 100 && |prefix| <= 155
  {
    Header(name, prefix, mode, |body|, flag) + body + Zeros(Padded(|body|) - |body|)
  }

  /** The name of an entry in the archive; a directory's ends in a slash. */
  function ArchiveName(e: Named): seq<Byte> {
    PACKAGE + e.path + if e.entry.kind.Directory? then [SLASH] else []
  }

  function Flag(e: Named): Byte {
    if e.entry.kind.Directory? then 0x35 else 0x30
  }

  predicate Field(text: seq<Byte>, length: nat) {
    |text| <= length && Trim(text) == text
  }

  /** A name can be written this way; pax records and long names carry any name. */
  predicate Fits(naming: Naming, name: seq<Byte>) {
    match naming
    case InName => Field(name, 100)
    case InPrefix(at) => 0 < at < |name| && name[at] == SLASH && Field(name[..at], 155) && Field(name[at + 1..], 100)
    case _ => true
  }

  function WriteEntry(e: Named): seq<Byte>
    requires Writable(e)
  {
    var name, mode, body := ArchiveName(e), e.entry.mode, e.entry.content;
    match e.naming
    case InName => Block(name, [], mode, Flag(e), body)
    case InPrefix(at) => Block(name[at + 1..], name[..at], mode, Flag(e), body)
    case InPaxRecord => Block([], [], 0, 0x78, Pax.Encode([Pax.Record(PATH_KEY, name)])) + Block([], [], mode, Flag(e), body)
    case InLongName => Block([], [], 0, 0x4c, name + [0]) + Block([], [], mode, Flag(e), body)
  }

  function Write(list: seq<Named>): seq<Byte>
    requires forall e :: e in list ==> Writable(e)
  {
    if list == [] then Zeros(2 * BLOCK)
    else
      assert list[0] in list;
      WriteEntry(list[0]) + Write(list[1..])
  }

  // ---- What can be written ----

  predicate Writable(e: Named) {
    && CanonicalPath(e.path) && |ArchiveName(e)| <= MAX_PATH_LENGTH && Fits(e.naming, ArchiveName(e))
    && e.entry.mode < 512 && |e.entry.content| <= MAX_UNPACKED_BYTES
    && (e.entry.kind.Directory? ==> e.entry.content == [])
  }

  ghost predicate WritableList(list: seq<Named>) {
    && (forall e :: e in list ==> Writable(e))
    && (forall i, j :: 0 <= i < j < |list| ==> list[i].path != list[j].path)
    && |list| <= MAX_PACKAGE_ENTRIES
  }

  // ---- Numbers and strings read back ----

  function Pow8(n: nat): (p: nat)
    ensures p > 0
  {
    if n == 0 then 1 else 8 * Pow8(n - 1)
  }

  lemma {:induction false} OctalReadsBack(n: nat, width: nat)
    requires n < Pow8(width)
    ensures OctalValue(Octal(n, width)) == n
  {
    if width > 0 {
      OctalReadsBack(n / 8, width - 1);
      assert Octal(n, width)[..width - 1] == Octal(n / 8, width - 1);
    }
  }

  lemma {:induction false} LeadingZero(text: seq<Byte>)
    requires OctalDigits([48] + text)
    ensures OctalDigits(text) && OctalValue([48] + text) == OctalValue(text)
  {
    assert OctalDigits(text) by {
      forall i | 0 <= i < |text| ensures 48 <= text[i] <= 55 { assert ([48] + text)[i + 1] == text[i]; }
    }
    if text == [] {
      assert ([48] + text)[..0] == [];
    } else {
      var t := [48] + text;
      assert t[..|t| - 1] == [48] + text[..|text| - 1];
      assert OctalDigits([48] + text[..|text| - 1]);
      LeadingZero(text[..|text| - 1]);
    }
  }

  lemma {:induction false} StripKeepsValue(text: seq<Byte>)
    requires OctalDigits(text)
    ensures OctalDigits(StripZeros(text)) && OctalValue(StripZeros(text)) == OctalValue(text)
  {
    if text != [] && text[0] == 48 {
      assert text == [48] + text[1..];
      LeadingZero(text[1..]);
      StripKeepsValue(text[1..]);
    }
  }

  lemma DigitsAreNotWhite(text: seq<Byte>)
    requires OctalDigits(text)
    ensures Trim(text) == text
  {
    if text != [] {
      assert White(text) == 0;
      assert White(text[|text| - 1..]) == 0;
      if |text| >= 2 { assert White(text[|text| - 2..]) == 0; }
      if |text| >= 3 { assert White(text[|text| - 3..]) == 0; }
    }
  }

  lemma DigitsBeforeNul(text: seq<Byte>, tail: seq<Byte>)
    requires OctalDigits(text) && tail != [] && tail[0] == 0
    ensures TarString(text + tail) == text
  {
    hide Trim;
    FindAt(text + tail, 0, |text|);
    assert (text + tail)[..|text|] == text;
    DigitsAreNotWhite(text);
  }

  lemma NumberReadsBack(n: nat, width: nat, tail: seq<Byte>)
    requires 0 < width && n < Pow8(width) && n <= MAX_SAFE_INTEGER && tail != [] && tail[0] == 0
    ensures TarNumber(Octal(n, width) + tail) == Some(n)
  {
    hide Octal, Trim, StripZeros, Find, Pow8;
    var text := Octal(n, width);
    var field := text + tail;
    DigitsBeforeNul(text, tail);
    StripKeepsValue(text);
    OctalReadsBack(n, width);
    assert field[0] == text[0] < 128;
    assert OctalValue([48]) == 0 by { assert [48][..0] == []; }
  }

  lemma NameReadsBack(name: seq<Byte>, n: nat)
    requires 0 !in name
    ensures TarString(name + Zeros(n)) == Trim(name)
  {
    var field := name + Zeros(n);
    FindAt(field, 0, |name|);
    assert field[..|name|] == name;
  }

  lemma {:induction false} SumBound(s: seq<Byte>)
    ensures Sum(s) <= 255 * |s|
  {
    if s != [] {
      SumBound(s[..|s| - 1]);
    }
  }

  // ---- Headers read back ----

  /** Everything the reader takes from a written header. */
  lemma HeaderReadsBack(name: seq<Byte>, prefix: seq<Byte>, mode: nat, size: nat, flag: Byte)
    requires |name| <= 100 && 0 !in name && |prefix| <= 155 && 0 !in prefix
    requires mode < 512 && size <= MAX_UNPACKED_BYTES && flag != 0
    ensures var h := Header(name, prefix, mode, size, flag);
            && !AllZero(h) && ChecksumHolds(h) && h[156] == flag
            && TarNumber(h[100..108]) == Some(mode) && TarNumber(h[124..136]) == Some(size)
            && TarString(h[..100]) == Trim(name) && TarString(h[345..500]) == Trim(prefix)
  {
    hide TarNumber, Trim, Octal, Pow8, Before, After;
    var h := Header(name, prefix, mode, size, flag);
    FieldsOfHeader(name, prefix, mode, size, flag);
    PowersOfEight();
    NumberReadsBack(mode, 7, [0]);
    NumberReadsBack(size, 11, [0]);
    NameReadsBack(name, 100 - |name|);
    NameReadsBack(prefix, 155 - |prefix|);
    SumBound(Before(name, mode, size));
    SumBound(After(flag, prefix));
    NumberReadsBack(Checksum(h), 6, [0, 0x20]);
    assert h[156] != 0;
  }

  lemma TrimEmpty()
    ensures Trim([]) == []
  {
  }

  lemma PowersOfEight()
    ensures Pow8(6) == 262144 && Pow8(7) == 2097152 && Pow8(11) == 8589934592
  {
    assert Pow8(3) == 512;
    assert Pow8(6) == 262144;
    assert Pow8(9) == 134217728;
  }

  lemma FieldsOfHeader(name: seq<Byte>, prefix: seq<Byte>, mode: nat, size: nat, flag: Byte)
    requires |name| <= 100 && |prefix| <= 155
    ensures var h := Header(name, prefix, mode, size, flag);
            && h[..100] == name + Zeros(100 - |name|)
            && h[100..108] == Octal(mode, 7) + [0]
            && h[124..136] == Octal(size, 11) + [0]
            && h[..148] == Before(name, mode, size) && h[156..] == After(flag, prefix)
            && h[148..156] == Octal(Checksum(h), 6) + [0, 0x20]
            && h[156] == flag && h[345..500] == prefix + Zeros(155 - |prefix|)
  {
    hide Octal, Sum;
    var b, a := Before(name, mode, size), After(flag, prefix);
    var h := Header(name, prefix, mode, size, flag);
    assert h[..148] == b;
    assert h[156..] == a;
    assert h[..100] == b[..100] && h[100..108] == b[100..108] && h[124..136] == b[124..136];
    assert h[345..500] == a[189..344];
  }

  // ---- Blocks read back ----

  lemma BlockReadsBack(name: seq<Byte>, prefix: seq<Byte>, mode: nat, flag: Byte, body: seq<Byte>, rest: seq<Byte>,
                       st: State, number: seq<Byte> -> Option<int>)
    requires |name| <= 100 && 0 !in name && |prefix| <= 155 && 0 !in prefix
    requires mode < 512 && |body| <= MAX_UNPACKED_BYTES && flag != 0
    ensures var next := Absorb(st, Header(name, prefix, mode, |body|, flag), body, number);
            Read(Block(name, prefix, mode, flag, body) + rest, st, number)
            == if next.None? then None else Read(rest, next.value, number)
  {
    hide Absorb, TarNumber, ChecksumHolds, Header, TarString;
    var h := Header(name, prefix, mode, |body|, flag);
    var tar := Block(name, prefix, mode, flag, body) + rest;
    HeaderReadsBack(name, prefix, mode, |body|, flag);
    assert tar[..BLOCK] == h;
    assert tar[124..136] == h[124..136];
    assert tar[BLOCK..BLOCK + |body|] == body;
    assert tar[BLOCK + Padded(|body|)..] == rest;
  }

  lemma NoSegments()
    ensures Segments([]) == [[]]
  {
  }

  lemma EmptySegmentAtEnd(path: Path)
    requires path == [] || path[|path| - 1] == SLASH
    ensures [] in Segments(path)
  {
    hide Segments;
    NoSegments();
    if path != [] {
      var front := path[..|path| - 1];
      SegmentsSplit(front, []);
      assert path == front + [SLASH] + [];
      assert Segments(path)[|Segments(front)|] == [];
    }
  }

  lemma NotSlashAtEnd(path: Path)
    requires CanonicalPath(path)
    ensures path != [] && path[|path| - 1] != SLASH
  {
    if path == [] || path[|path| - 1] == SLASH {
      EmptySegmentAtEnd(path);
    }
  }

  lemma NameIsCanonical(e: Named)
    requires Writable(e)
    ensures Canonical(ArchiveName(e)) == Some(e.path)
    ensures 0 !in ArchiveName(e)
  {
    hide Segments, Fits, Trim;
    NotSlashAtEnd(e.path);
    var name := ArchiveName(e);
    var slash := if e.entry.kind.Directory? then [SLASH] else [];
    assert name == PACKAGE + (e.path + slash);
    assert name[..|PACKAGE|] == PACKAGE;
    assert name[|PACKAGE|..] == e.path + slash;
    assert (e.path + slash)[..|e.path|] == e.path;
    assert e.path + [] == e.path;
  }

  function Plain(m: Manifest): State {
    State(m, map[], map[], None)
  }

  /** A path record is short, and reads back. */
  lemma PathRecordReadsBack(name: seq<Byte>)
    requires |name| <= MAX_PATH_LENGTH
    ensures var body := Pax.Encode([Pax.Record(PATH_KEY, name)]);
            && |body| <= MAX_UNPACKED_BYTES
            && Pax.Records(body) == Some([Pax.Record(PATH_KEY, name)])
            && Pax.Meaning([Pax.Record(PATH_KEY, name)]) == map[PATH_KEY := name]
  {
    hide Decimal, Pax.Records;
    var r := Pax.Record(PATH_KEY, name);
    var rest := 1 + |Pax.Body(r)|;
    var d := Pax.LengthDigits(rest);
    DecimalShort(rest + d);
    assert Pax.Encode([r]) == Pax.EncodeRecord(r) + Pax.Encode([]);
    FindAt(PATH_KEY, EQUALS, 4);
    Pax.RoundTrip([r]);
    assert [r][..0] == [];
  }

  /** The header of an entry adds exactly that entry, when its name is found. */
  lemma AddsEntry(e: Named, st: State, header: seq<Byte>, number: seq<Byte> -> Option<int>)
    requires Writable(e) && |header| == BLOCK && st.global == map[] && SIZE_KEY !in st.pending
    requires ArchivePath(header, st.global + st.pending, st.long) == ArchiveName(e)
    requires TarNumber(header[100..108]) == Some(e.entry.mode)
    requires header[156] == Flag(e)
    requires e.path !in st.entries && |st.entries| < MAX_PACKAGE_ENTRIES
    ensures Absorb(st, header, e.entry.content, number) == Some(Plain(st.entries[e.path := e.entry]))
  {
    hide ArchivePath, Canonical, TarNumber, CanonicalPath, Fits, ArchiveName, Pax.Records, Pax.Meaning, Find;
    NameIsCanonical(e);
  }

  /** An entry whose name is in its own header, or waits in the state. */
  lemma LastBlockReadsBack(e: Named, name: seq<Byte>, prefix: seq<Byte>, st: State, rest: seq<Byte>, number: seq<Byte> -> Option<int>)
    requires Writable(e) && e.path !in st.entries && |st.entries| < MAX_PACKAGE_ENTRIES
    requires Field(name, 100) && 0 !in name && Field(prefix, 155) && 0 !in prefix
    requires st.global == map[] && SIZE_KEY !in st.pending
    requires if st.long.Some? then st.long.value == ArchiveName(e)
             else if PATH_KEY in st.pending then st.pending[PATH_KEY] == ArchiveName(e)
             else ArchiveName(e) == if prefix != [] then prefix + [SLASH] + name else name
    ensures Read(Block(name, prefix, e.entry.mode, Flag(e), e.entry.content) + rest, st, number)
            == Read(rest, Plain(st.entries[e.path := e.entry]), number)
  {
    hide Read, Block, Header, TarNumber, TarString, ChecksumHolds, Trim, Absorb, CanonicalPath, Fits;
    NameIsCanonical(e);
    BlockReadsBack(name, prefix, e.entry.mode, Flag(e), e.entry.content, rest, st, number);
    HeaderReadsBack(name, prefix, e.entry.mode, |e.entry.content|, Flag(e));
    AddsEntry(e, st, Header(name, prefix, e.entry.mode, |e.entry.content|, Flag(e)), number);
  }

  /** The block that carries a path record. */
  lemma PathBlockReadsBack(name: seq<Byte>, m: Manifest, rest: seq<Byte>, number: seq<Byte> -> Option<int>)
    requires |name| <= MAX_PATH_LENGTH
    ensures Read(Block([], [], 0, 0x78, Pax.Encode([Pax.Record(PATH_KEY, name)])) + rest, Plain(m), number)
            == Read(rest, Plain(m).(pending := map[PATH_KEY := name]), number)
  {
    hide Read, Block, Header, AddEntry;
    var records := Pax.Encode([Pax.Record(PATH_KEY, name)]);
    PathRecordReadsBack(name);
    BlockReadsBack([], [], 0, 0x78, records, rest, Plain(m), number);
    HeaderReadsBack([], [], 0, |records|, 0x78);
  }

  /** The block that carries a long name. */
  lemma LongBlockReadsBack(name: seq<Byte>, m: Manifest, rest: seq<Byte>, number: seq<Byte> -> Option<int>)
    requires |name| <= MAX_PATH_LENGTH && 0 !in name
    ensures Read(Block([], [], 0, 0x4c, name + [0]) + rest, Plain(m), number)
            == Read(rest, Plain(m).(long := Some(name)), number)
  {
    hide Read, Block, Header, AddEntry, Pax.Records, Pax.Meaning, Find, TarNumber, TarString, Trim, ChecksumHolds;
    BlockReadsBack([], [], 0, 0x4c, name + [0], rest, Plain(m), number);
    HeaderReadsBack([], [], 0, |name| + 1, 0x4c);
    FindAt(name + [0], 0, |name|);
    assert (name + [0])[..|name|] == name;
  }

  lemma RecordedReadsBack(e: Named, m: Manifest, rest: seq<Byte>, number: seq<Byte> -> Option<int>)
    requires Writable(e) && e.path !in m && |m| < MAX_PACKAGE_ENTRIES && e.naming.InPaxRecord?
    ensures Read(WriteEntry(e) + rest, Plain(m), number) == Read(rest, Plain(m[e.path := e.entry]), number)
  {
    hide Read, Block, ArchiveName, CanonicalPath, Trim;
    var name := ArchiveName(e);
    NameIsCanonical(e);
    TrimEmpty();
    var first := Block([], [], 0, 0x78, Pax.Encode([Pax.Record(PATH_KEY, name)]));
    var last := Block([], [], e.entry.mode, Flag(e), e.entry.content);
    PathBlockReadsBack(name, m, last + rest, number);
    LastBlockReadsBack(e, [], [], Plain(m).(pending := map[PATH_KEY := name]), rest, number);
    assert WriteEntry(e) + rest == first + (last + rest);
  }

  lemma LongNamedReadsBack(e: Named, m: Manifest, rest: seq<Byte>, number: seq<Byte> -> Option<int>)
    requires Writable(e) && e.path !in m && |m| < MAX_PACKAGE_ENTRIES && e.naming.InLongName?
    ensures Read(WriteEntry(e) + rest, Plain(m), number) == Read(rest, Plain(m[e.path := e.entry]), number)
  {
    hide Read, Block, ArchiveName, CanonicalPath, Trim;
    var name := ArchiveName(e);
    NameIsCanonical(e);
    TrimEmpty();
    var first := Block([], [], 0, 0x4c, name + [0]);
    var last := Block([], [], e.entry.mode, Flag(e), e.entry.content);
    LongBlockReadsBack(name, m, last + rest, number);
    LastBlockReadsBack(e, [], [], Plain(m).(long := Some(name)), rest, number);
    assert WriteEntry(e) + rest == first + (last + rest);
  }

  lemma EntryReadsBack(e: Named, m: Manifest, rest: seq<Byte>, number: seq<Byte> -> Option<int>)
    requires Writable(e) && e.path !in m && |m| < MAX_PACKAGE_ENTRIES
    ensures Read(WriteEntry(e) + rest, Plain(m), number) == Read(rest, Plain(m[e.path := e.entry]), number)
  {
    hide Read, Block, ArchiveName, CanonicalPath, Trim;
    var name := ArchiveName(e);
    NameIsCanonical(e);
    TrimEmpty();
    match e.naming {
      case InName => LastBlockReadsBack(e, name, [], Plain(m), rest, number);
      case InPrefix(at) =>
        assert name == name[..at] + [SLASH] + name[at + 1..];
        LastBlockReadsBack(e, name[at + 1..], name[..at], Plain(m), rest, number);
      case InPaxRecord => RecordedReadsBack(e, m, rest, number);
      case InLongName => LongNamedReadsBack(e, m, rest, number);
    }
  }

  // ---- Archives read back ----

  function Collect(m: Manifest, list: seq<Named>): Manifest
    decreases |list|
  {
    if list == [] then m else Collect(m[list[0].path := list[0].entry], list[1..])
  }

  lemma {:induction false} CollectHolds(m: Manifest, list: seq<Named>)
    requires forall i, j :: 0 <= i < j < |list| ==> list[i].path != list[j].path
    requires forall i :: 0 <= i < |list| ==> list[i].path !in m
    ensures forall i :: 0 <= i < |list| ==> list[i].path in Collect(m, list) && Collect(m, list)[list[i].path] == list[i].entry
    ensures forall p :: p in m ==> p in Collect(m, list) && Collect(m, list)[p] == m[p]
    ensures forall p :: p in Collect(m, list) ==> p in m || exists i :: 0 <= i < |list| && list[i].path == p
    decreases |list|
  {
    if list != [] {
      CollectHolds(m[list[0].path := list[0].entry], list[1..]);
    }
  }

  lemma {:induction false} ListReadsBack(m: Manifest, list: seq<Named>, number: seq<Byte> -> Option<int>)
    requires forall e :: e in list ==> Writable(e) && e.path !in m
    requires forall i, j :: 0 <= i < j < |list| ==> list[i].path != list[j].path
    requires |m| + |list| <= MAX_PACKAGE_ENTRIES
    ensures Read(Write(list), Plain(m), number) == Some(Collect(m, list))
    decreases |list|
  {
    hide WriteEntry, Writable, Absorb, SoundSize;
    if list != [] {
      EntryReadsBack(list[0], m, Write(list[1..]), number);
      ListReadsBack(m[list[0].path := list[0].entry], list[1..], number);
    }
  }

  /** Writing a list of entries and reading the archive gives exactly those entries, whatever
      the pax size texts mean. */
  lemma RoundTrip(list: seq<Named>, number: seq<Byte> -> Option<int>)
    requires WritableList(list)
    ensures Read(Write(list), START, number) == Some(Collect(map[], list))
    ensures forall i :: 0 <= i < |list| ==> list[i].path in Collect(map[], list) && Collect(map[], list)[list[i].path] == list[i].entry
    ensures forall p :: p in Collect(map[], list) ==> exists i :: 0 <= i < |list| && list[i].path == p
  {
    ListReadsBack(map[], list, number);
    CollectHolds(map[], list);
  }

  /** Writing then parsing: refused exactly when a file lies above another entry; otherwise the
      entries, and the directories they imply. */
  method WriteThenParse(list: seq<Named>, number: seq<Byte> -> Option<int>) returns (r: Option<Manifest>)
    requires WritableList(list)
    ensures r.None? <==> exists i, j :: 0 <= i < |list| && 0 <= j < |list| && IsAncestor(list[i].path, list[j].path)
                                        && list[i].entry.kind.File?
    ensures r.Some? ==> forall i :: 0 <= i < |list| ==> list[i].path in r.value && r.value[list[i].path] == list[i].entry
    ensures r.Some? ==> forall a :: a in r.value ==>
                          (exists i :: 0 <= i < |list| && list[i].path == a)
                          || (r.value[a] == IMPLIED_DIRECTORY && exists i :: 0 <= i < |list| && IsAncestor(a, list[i].path))
    ensures r.Some? ==> forall i, a :: 0 <= i < |list| && IsAncestor(a, list[i].path) ==> a in r.value
  {
    hide IsAncestor, Read, Write, Writable, IsTree;
    r := ParsePackedTreeManifest(Write(list), number);
    RoundTrip(list, number);
    ghost var entries := Collect(map[], list);
    if r.None? {
      ghost var p, a :| p in entries && a in entries && IsAncestor(a, p) && entries[a].kind.File?;
      ghost var i :| 0 <= i < |list| && list[i].path == a;
      ghost var j :| 0 <= j < |list| && list[j].path == p;
    }
  }
}