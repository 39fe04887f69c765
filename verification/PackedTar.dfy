/** The tar reader of the packed-release check, over decompressed bytes: ustar headers, pax
    extended headers and GNU long names in, a manifest of paths out. */
module PackedTar {
  import opened Bytes
  import opened Options
  import opened Packages
  import Pax = PaxRecords

  const BLOCK := 512
  const MAX_UNPACKED_BYTES := 536870912
  const MAX_PACKAGE_ENTRIES := 20000
  const MAX_PATH_LENGTH := 4096
  const PACKAGE: seq<Byte> := [0x70, 0x61, 0x63, 0x6b, 0x61, 0x67, 0x65, 0x2f]
  const PATH_KEY: seq<Byte> := [0x70, 0x61, 0x74, 0x68]
  const SIZE_KEY: seq<Byte> := [0x73, 0x69, 0x7a, 0x65]

  type Path = seq<Byte>
  type Records = map<seq<Byte>, seq<Byte>>

  type Manifest = map<Path, Entry>

  const IMPLIED_DIRECTORY := Entry(Directory, 0x1ed, [])

  // ---- Header fields ----

  /** Bytes of the white space character that `s` starts with, in UTF-8; 0 if there is none. */
  function White(s: seq<Byte>): (n: nat)
    ensures n <= 3 && n <= |s|
  {
    if s == [] then 0
    else if s[0] in {9, 10, 11, 12, 13, 32} then 1
    else if |s| >= 2 && s[0] == 0xc2 && s[1] == 0xa0 then 2
    else if |s| < 3 then 0
    else if s[0] == 0xe2 && s[1] == 0x80 && (0x80 <= s[2] <= 0x8a || s[2] in {0xa8, 0xa9, 0xaf}) then 3
    else if s[..3] in {[0xe1, 0x9a, 0x80], [0xe2, 0x81, 0x9f], [0xe3, 0x80, 0x80], [0xef, 0xbb, 0xbf]} then 3
    else 0
  }

  function WhiteEnd(s: seq<Byte>): (n: nat)
    ensures n <= 3 && n <= |s|
  {
    if |s| >= 1 && White(s[|s| - 1..]) == 1 then 1
    else if |s| >= 2 && White(s[|s| - 2..]) == 2 then 2
    else if |s| >= 3 && White(s[|s| - 3..]) == 3 then 3
    else 0
  }

  function TrimStart(s: seq<Byte>): seq<Byte> {
    if White(s) == 0 then s else TrimStart(s[White(s)..])
  }

  function TrimEnd(s: seq<Byte>): seq<Byte> {
    if WhiteEnd(s) == 0 then s else TrimEnd(s[..|s| - WhiteEnd(s)])
  }

  function Trim(s: seq<Byte>): seq<Byte> {
    TrimEnd(TrimStart(s))
  }

  /** Up to the first NUL, without white space at either end. */
  function TarString(field: seq<Byte>): seq<Byte> {
    Trim(field[..Find(field, 0)])
  }

  predicate OctalDigits(text: seq<Byte>) {
    forall i :: 0 <= i < |text| ==> 48 <= text[i] <= 55
  }

  function OctalValue(text: seq<Byte>): (n: nat)
    requires OctalDigits(text)
  {
    if text == [] then 0 else 8 * OctalValue(text[..|text| - 1]) + (text[|text| - 1] - 48)
  }

  function StripZeros(text: seq<Byte>): seq<Byte> {
    if text != [] && text[0] == 48 then StripZeros(text[1..]) else text
  }

  /** Base-256 with the marker bit of the first byte removed. */
  function BigEndian(field: seq<Byte>): (n: nat)
    requires field != []
  {
    if |field| == 1 then field[0] % 128 else 256 * BigEndian(field[..|field| - 1]) + field[|field| - 1]
  }

  /** Base-256 when the high bit of the first byte is set, octal text otherwise. */
  function TarNumber(field: seq<Byte>): Option<nat>
    requires field != []
  {
    if field[0] >= 128 then
      if BigEndian(field) > MAX_SAFE_INTEGER then None else Some(BigEndian(field))
    else
      var stripped := StripZeros(TarString(field));
      var text := if stripped == [] then [48] else stripped;
      if !OctalDigits(text) || OctalValue(text) > MAX_SAFE_INTEGER then None else Some(OctalValue(text))
  }

  function Sum(s: seq<Byte>): nat {
    if s == [] then 0 else Sum(s[..|s| - 1]) + s[|s| - 1]
  }

  /** The sum of the header's bytes, its own checksum field taken as spaces. */
  function Checksum(header: seq<Byte>): nat
    requires |header| == BLOCK
  {
    Sum(header[..148]) + 8 * 0x20 + Sum(header[156..])
  }

  predicate ChecksumHolds(header: seq<Byte>)
    requires |header| == BLOCK
  {
    TarNumber(header[148..156]) == Some(Checksum(header))
  }

  // ---- Paths ----

  function Segments(path: seq<Byte>): (r: seq<seq<Byte>>)
    ensures r != []
    decreases |path|
  {
    var slash := Find(path, SLASH);
    if slash == |path| then [path] else [path[..slash]] + Segments(path[slash + 1..])
  }

  predicate SafeSegment(s: seq<Byte>) {
    s != [] && s != [0x2e] && s != [0x2e, 0x2e]
  }

  /** Safe segments only, and neither NUL nor backslash. */
  predicate CanonicalPath(path: seq<Byte>) {
    && (forall s :: s in Segments(path) ==> SafeSegment(s))
    && 0 !in path && 0x5c !in path
  }

  /** canonicalPackedRelativePath: the path below "package/", or an error. */
  function Canonical(archivePath: seq<Byte>): (r: Option<Path>)
    ensures r.Some? ==> CanonicalPath(r.value)
  {
    if |archivePath| < |PACKAGE| || archivePath[..|PACKAGE|] != PACKAGE || 0 in archivePath || 0x5c in archivePath
       || |archivePath| > MAX_PATH_LENGTH then None
    else
      var below := archivePath[|PACKAGE|..];
      var relative := if below != [] && below[|below| - 1] == SLASH then below[..|below| - 1] else below;
      if relative == [] || !forall s :: s in Segments(relative) ==> SafeSegment(s) then None else Some(relative)
  }

  /** The directories a path lies in. */
  predicate IsAncestor(a: Path, path: Path) {
    |a| < |path| && path[..|a|] == a && path[|a|] == SLASH
  }

  // ---- Entries ----

  /** What the reader carries from one header to the next. */
  datatype State = State(entries: Manifest, pending: Records, global: Records, long: Option<seq<Byte>>)

  const START := State(map[], map[], map[], None)

  predicate AllZero(s: seq<Byte>) {
    forall i :: 0 <= i < |s| ==> s[i] == 0
  }

  /** Bytes of a body with its padding. */
  function Padded(size: nat): (n: nat)
    ensures size <= n && n % BLOCK == 0
  {
    (size + BLOCK - 1) / BLOCK * BLOCK
  }

  function ArchivePath(header: seq<Byte>, pax: Records, long: Option<seq<Byte>>): seq<Byte>
    requires |header| == BLOCK
  {
    var prefix := TarString(header[345..500]);
    var name := TarString(header[..100]);
    if long.Some? && long.value != [] then long.value
    else if PATH_KEY in pax && pax[PATH_KEY] != [] then pax[PATH_KEY]
    else if prefix != [] then prefix + [SLASH] + name
    else name
  }

  /** A file or directory entry. `number` is the meaning of a pax size text; it must give the
      size in the header. */
  function AddEntry(st: State, header: seq<Byte>, body: seq<Byte>, number: seq<Byte> -> Option<int>): Option<State>
    requires |header| == BLOCK
  {
    var pax := st.global + st.pending;
    var relative := Canonical(ArchivePath(header, pax, st.long));
    var mode := TarNumber(header[100..108]);
    var flag := header[156];
    if relative.None? || (SIZE_KEY in pax && number(pax[SIZE_KEY]) != Some(|body|)) || mode.None? then None
    else if !(flag == 0x35 && body == []) && flag !in {0x30, 0, 0x20} then None
    else if relative.value in st.entries || |st.entries| >= MAX_PACKAGE_ENTRIES then None
    else
      var entry := Entry(if flag == 0x35 then Directory else File, mode.value % 512, body);
      Some(State(st.entries[relative.value := entry], map[], st.global, None))
  }

  /** One header with its body: extended headers and long names wait for the entry they belong to. */
  function Absorb(st: State, header: seq<Byte>, body: seq<Byte>, number: seq<Byte> -> Option<int>): Option<State>
    requires |header| == BLOCK
  {
    var flag := header[156];
    if flag == 0x78 || flag == 0x67 then
      var records := Pax.Records(body);
      if records.None? then None
      else if flag == 0x67 then Some(st.(global := st.global + Pax.Meaning(records.value)))
      else Some(st.(pending := Pax.Meaning(records.value)))
    else if flag == 0x4c then Some(st.(long := Some(body[..Find(body, 0)])))
    else if flag == 0x4b then None
    else AddEntry(st, header, body, number)
  }

  /** The size field of a header at the start of `rest`, when header and body are sound. */
  function SoundSize(rest: seq<Byte>): (r: Option<nat>)
    requires |rest| >= BLOCK
    ensures r.Some? ==> r.value <= MAX_UNPACKED_BYTES && BLOCK + Padded(r.value) <= |rest|
  {
    if !ChecksumHolds(rest[..BLOCK]) then None
    else
      var size := TarNumber(rest[124..136]);
      if size.None? || size.value > MAX_UNPACKED_BYTES || BLOCK + Padded(size.value) > |rest| then None else size
  }

  /** What is read from `rest` onwards: headers until two zero blocks, then only zeros. */
  function Read(rest: seq<Byte>, st: State, number: seq<Byte> -> Option<int>): Option<Manifest>
    decreases |rest|
  {
    if |rest| < BLOCK then None
    else if AllZero(rest[..BLOCK]) then
      if |rest| < 2 * BLOCK || !AllZero(rest) || st.pending != map[] || st.long.Some? then None else Some(st.entries)
    else
      var size := SoundSize(rest);
      if size.None? then None
      else
        var next := Absorb(st, rest[..BLOCK], rest[BLOCK..BLOCK + size.value], number);
        if next.None? then None else Read(rest[BLOCK + Padded(size.value)..], next.value, number)
  }

  // ---- Implied directories ----

  /** A file stands where another entry needs a directory. */
  ghost predicate FileAbove(entries: Manifest) {
    exists p, a :: p in entries && a in entries && IsAncestor(a, p) && entries[a].kind.File?
  }

  /** `m` is `entries` with every missing ancestor as an implied directory, and nothing else. */
  ghost predicate Completes(entries: Manifest, m: Manifest) {
    && (forall p :: p in entries ==> p in m && m[p] == entries[p])
    && (forall p, a :: p in entries && IsAncestor(a, p) ==> a in m)
    && (forall a :: a in m && a !in entries ==> m[a] == IMPLIED_DIRECTORY && exists p :: p in entries && IsAncestor(a, p))
  }

  /** A canonical path, permission bits only, and no content in a directory. */
  predicate SoundEntry(p: Path, e: Entry) {
    CanonicalPath(p) && e.mode < 512 && (e.kind.Directory? ==> e.content == [])
  }

  ghost predicate SoundEntries(m: Manifest) {
    forall p :: p in m ==> SoundEntry(p, m[p])
  }

  /** Every entry is sound, and every ancestor of an entry is there as a directory. */
  ghost predicate IsTree(m: Manifest) {
    && SoundEntries(m)
    && (forall p, a :: p in m && IsAncestor(a, p) ==> a in m && m[a].kind.Directory?)
  }

  // ---- A parsed manifest is a tree ----

  lemma {:induction false} SegmentsSplit(a: seq<Byte>, b: seq<Byte>)
    ensures Segments(a + [SLASH] + b) == Segments(a) + Segments(b)
    decreases |a|
  {
    hide Find;
    var s := a + [SLASH] + b;
    var slash := Find(a, SLASH);
    FindAt(s, SLASH, slash);
    if slash == |a| {
      assert s[..slash] == a;
      assert s[slash + 1..] == b;
    } else {
      assert s[..slash] == a[..slash];
      assert s[slash + 1..] == a[slash + 1..] + [SLASH] + b;
      SegmentsSplit(a[slash + 1..], b);
    }
  }

  lemma AncestorIsCanonical(a: Path, path: Path)
    requires CanonicalPath(path) && IsAncestor(a, path)
    ensures CanonicalPath(a)
  {
    var b := path[|a| + 1..];
    assert path == a + [SLASH] + b;
    SegmentsSplit(a, b);
    forall s | s in Segments(a) ensures SafeSegment(s) {
      assert s in Segments(path);
    }
  }

  lemma AbsorbsSoundEntries(st: State, header: seq<Byte>, body: seq<Byte>, number: seq<Byte> -> Option<int>)
    requires |header| == BLOCK && SoundEntries(st.entries)
    ensures var next := Absorb(st, header, body, number);
            next.Some? ==> SoundEntries(next.value.entries)
  {
    hide CanonicalPath, Canonical, ArchivePath, TarNumber, OctalValue, BigEndian;
  }

  lemma {:induction false} ReadsSoundEntries(rest: seq<Byte>, st: State, number: seq<Byte> -> Option<int>)
    requires SoundEntries(st.entries) && Read(rest, st, number).Some?
    ensures SoundEntries(Read(rest, st, number).value)
    decreases |rest|
  {
    hide SoundEntries, SoundSize, Absorb;
    if !AllZero(rest[..BLOCK]) {
      var size := SoundSize(rest).value;
      AbsorbsSoundEntries(st, rest[..BLOCK], rest[BLOCK..BLOCK + size], number);
      ReadsSoundEntries(rest[BLOCK + Padded(size)..], Absorb(st, rest[..BLOCK], rest[BLOCK..BLOCK + size], number).value, number);
    }
  }

  lemma CompletedIsTree(entries: Manifest, m: Manifest)
    requires SoundEntries(entries) && !FileAbove(entries) && Completes(entries, m)
    ensures IsTree(m)
  {
    hide CanonicalPath;
    forall p | p in m ensures SoundEntry(p, m[p]) {
      if p !in entries {
        var q :| q in entries && IsAncestor(p, q);
        assert SoundEntry(q, entries[q]);
        AncestorIsCanonical(p, q);
      } else {
        assert SoundEntry(p, entries[p]);
      }
    }
    forall p, a | p in m && IsAncestor(a, p) ensures a in m && m[a].kind.Directory? {
      if p !in entries {
        var q :| q in entries && IsAncestor(p, q);
        assert IsAncestor(a, q);
      }
    }
  }

  /** The completion is determined by the entries. */
  lemma CompletionIsUnique(entries: Manifest, m: Manifest, n: Manifest)
    requires Completes(entries, m) && Completes(entries, n)
    ensures m == n
  {
    assert m.Keys == n.Keys;
  }

  // ---- parsePackedTreeManifest ----

  lemma SumPush(s: seq<Byte>, i: nat)
    requires i < |s|
    ensures Sum(s[..i + 1]) == Sum(s[..i]) + s[i]
  {
    assert s[..i + 1][..i] == s[..i];
  }

  method ChecksumOf(header: seq<Byte>) returns (actual: nat)
    requires |header| == BLOCK
    ensures actual == Checksum(header)
  {
    actual := 0;
    var index := 0;
    while index < BLOCK
      invariant 0 <= index <= BLOCK
      invariant index <= 148 ==> actual == Sum(header[..index])
      invariant 148 <= index <= 156 ==> actual == Sum(header[..148]) + 0x20 * (index - 148)
      invariant 156 <= index ==> actual == Sum(header[..148]) + 8 * 0x20 + Sum(header[156..][..index - 156])
    {
      if index < 148 {
        SumPush(header, index);
      } else if index >= 156 {
        SumPush(header[156..], index - 156);
      }
      actual := actual + if 148 <= index < 156 then 0x20 else header[index];
      index := index + 1;
    }
    assert header[156..][..BLOCK - 156] == header[156..];
  }

  method BigEndianOf(field: seq<Byte>) returns (value: nat)
    requires field != []
    ensures value == BigEndian(field)
  {
    value := field[0] % 128;
    var i := 1;
    while i < |field|
      invariant 1 <= i <= |field|
      invariant value == BigEndian(field[..i])
    {
      assert field[..i + 1][..i] == field[..i];
      value := 256 * value + field[i];
      i := i + 1;
    }
    assert field[..i] == field;
  }

  /** `m` grown by the missing ancestors of one path. */
  ghost predicate Grown(m: Manifest, grown: Manifest, path: Path) {
    && (forall p :: p in m ==> p in grown && grown[p] == m[p])
    && (forall a :: IsAncestor(a, path) ==> a in grown && grown[a].kind.Directory?)
    && (forall a :: a in grown && a !in m ==> grown[a] == IMPLIED_DIRECTORY && IsAncestor(a, path))
  }

  method AddAncestors(m: Manifest, path: Path) returns (r: Option<Manifest>)
    ensures r.None? ==> exists a :: IsAncestor(a, path) && a in m && m[a].kind.File?
    ensures r.Some? ==> Grown(m, r.value, path)
  {
    var grown := m;
    var i := 0;
    while i < |path|
      invariant 0 <= i <= |path|
      invariant forall p :: p in m ==> p in grown && grown[p] == m[p]
      invariant forall a :: IsAncestor(a, path) && |a| < i ==> a in grown && grown[a].kind.Directory?
      invariant forall a :: a in grown && a !in m ==> grown[a] == IMPLIED_DIRECTORY && IsAncestor(a, path)
    {
      var directory := path[..i];
      if path[i] == SLASH {
        assert IsAncestor(directory, path);
        if directory in grown && grown[directory].kind.File? {
          return None;
        }
        if directory !in grown {
          grown := grown[directory := IMPLIED_DIRECTORY];
        }
      }
      i := i + 1;
    }
    r := Some(grown);
  }

  method AddImpliedDirectories(entries: Manifest) returns (r: Option<Manifest>)
    ensures r.None? <==> FileAbove(entries)
    ensures r.Some? ==> Completes(entries, r.value)
  {
    hide IsAncestor;
    var m := entries;
    var todo := entries.Keys;
    while todo != {}
      invariant todo <= entries.Keys
      invariant forall p :: p in entries ==> p in m && m[p] == entries[p]
      invariant forall p, a :: p in entries && p !in todo && IsAncestor(a, p) ==> a in m && m[a].kind.Directory?
      invariant forall a :: a in m && a !in entries ==> m[a] == IMPLIED_DIRECTORY && exists p :: p in entries && IsAncestor(a, p)
      decreases |todo|
    {
      var path :| path in todo;
      var grown := AddAncestors(m, path);
      if grown.None? {
        var a :| IsAncestor(a, path) && a in m && m[a].kind.File?;
        assert a in entries;
        return None;
      }
      m := grown.value;
      todo := todo - {path};
    }
    r := Some(m);
  }

  /** The reader: Read from the start of the archive, then the implied directories. What it
      returns is a tree. */
  method ParsePackedTreeManifest(tar: seq<Byte>, number: seq<Byte> -> Option<int>) returns (r: Option<Manifest>)
    ensures var entries := Read(tar, START, number);
            && (r.Some? <==> entries.Some? && !FileAbove(entries.value))
            && (r.Some? ==> Completes(entries.value, r.value) && IsTree(r.value))
  {
    hide Absorb, SoundSize, SoundEntry, Checksum;
    var st := START;
    var offset := 0;
    assert tar[0..] == tar;
    while offset + BLOCK <= |tar| && !AllZero(tar[offset..offset + BLOCK])
      invariant 0 <= offset <= |tar|
      invariant Read(tar, START, number) == Read(tar[offset..], st, number)
    {
      var rest := tar[offset..];
      assert rest[..BLOCK] == tar[offset..offset + BLOCK];
      var size := SoundSize(rest);
      if size.None? {
        return None;
      }
      var next := Absorb(st, rest[..BLOCK], rest[BLOCK..BLOCK + size.value], number);
      if next.None? {
        return None;
      }
      assert rest[BLOCK + Padded(size.value)..] == tar[offset + BLOCK + Padded(size.value)..];
      st := next.value;
      offset := offset + BLOCK + Padded(size.value);
    }
    var rest := tar[offset..];
    assert |rest| >= BLOCK ==> rest[..BLOCK] == tar[offset..offset + BLOCK];
    if |rest| < 2 * BLOCK || !AllZero(rest) || st.pending != map[] || st.long.Some? {
      return None;
    }
    r := AddImpliedDirectories(st.entries);
    if r.Some? {
      ReadsSoundEntries(tar, START, number);
      CompletedIsTree(st.entries, r.value);
    }
  }
}