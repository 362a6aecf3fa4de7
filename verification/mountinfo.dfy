/**
 Reading the mount table from /proc/self/mountinfo: the last-row-wins scan
 behind rebinding, and the two FUSE scans. Each is proved to recover the
 abstract mount table from its printed form.
 */
module Mountinfo {
  import opened GoStrings
  import opened MountTable
  import opened MountinfoText

  /** Scanner buffers: the default one, and the enlarged one of the FUSE scans. */
  const DEFAULT_BUFFER: nat := 65536
  const LARGE_BUFFER: nat := 1048576

  // ----- The table as the kernel prints it (proc(5))

  datatype MountRow = MountRow(id: string, parent: string, major: nat, minor: nat, root: Path, mountpoint: Path,
                               options: seq<string>, fstype: string, source: string, super: string)

  predicate PrintablePath(p: Path) {
    (forall i :: 0 <= i < |p| ==> p[i] < 256 as char) && p != "" && p != "-" && PlainName(p)
  }

  predicate IsColumn(s: string) {
    IsToken(s) && s != "-"
  }

  predicate WellFormed(row: MountRow) {
    && IsColumn(row.id) && IsColumn(row.parent) && row.minor <= MAX_INT
    && PrintablePath(row.root) && PrintablePath(row.mountpoint)
    && (forall i :: 0 <= i < |row.options| ==> IsColumn(row.options[i]))
    && IsToken(row.fstype) && IsToken(row.source) && IsToken(row.super)
  }

  ghost predicate WellFormedTable(table: seq<MountRow>) {
    forall i :: 0 <= i < |table| ==> WellFormed(table[i])
  }

  /** Names are byte strings; the kernel can print any of them. */
  ghost predicate Printable(row: MountRow) {
    IsBytes(row.root) && IsBytes(row.mountpoint)
  }

  ghost predicate PrintableTable(table: seq<MountRow>) {
    forall i :: 0 <= i < |table| ==> Printable(table[i])
  }

  function Dev(row: MountRow): string {
    Itoa(row.major) + ":" + Itoa(row.minor)
  }

  function Columns(row: MountRow): seq<string>
    requires Printable(row)
  {
    [row.id, row.parent, Dev(row), Escape(row.root, KERNEL_ESCAPES), Escape(row.mountpoint, KERNEL_ESCAPES)]
    + row.options + ["-", row.fstype, row.source, row.super]
  }

  function LineOf(row: MountRow): string
    requires Printable(row)
  {
    Join(Columns(row))
  }

  function Lines(table: seq<MountRow>): seq<string>
    requires PrintableTable(table)
  {
    seq(|table|, i requires 0 <= i < |table| => LineOf(table[i]))
  }

  function Render(table: seq<MountRow>): string
    requires PrintableTable(table)
  {
    Unlines(Lines(table))
  }

  ghost predicate Fits(table: seq<MountRow>, buffer: nat)
    requires PrintableTable(table)
  {
    forall l :: l in Lines(table) ==> |l| < buffer
  }

  /** What the rest of the driver sees of a row. */
  function Project(row: MountRow): Row {
    Row(row.mountpoint, Backing(Dev(row), row.root))
  }

  function ProjectAll(table: seq<MountRow>): Table {
    seq(|table|, i requires 0 <= i < |table| => Project(table[i]))
  }

  lemma {:induction false} DigitsAreToken(n: nat, rest: string)
    requires NoSpace(rest)
    ensures NoSpace(Itoa(n) + rest)
  {
    var s := Itoa(n);
    if n < 10 {
      assert (s + rest)[1..] == rest;
    } else {
      var d := [(n % 10) as char + '0'];
      assert (d + rest)[1..] == rest;
      DigitsAreToken(n / 10, d + rest);
      assert s + rest == Itoa(n / 10) + (d + rest);
    }
  }

  lemma DevIsColumn(row: MountRow)
    ensures IsColumn(Dev(row)) && |Dev(row)| > 1
  {
    assert Itoa(row.minor) + "" == Itoa(row.minor);
    DigitsAreToken(row.minor, "");
    assert (":" + Itoa(row.minor))[1..] == Itoa(row.minor);
    DigitsAreToken(row.major, ":" + Itoa(row.minor));
    assert Dev(row) == Itoa(row.major) + (":" + Itoa(row.minor));
  }

  lemma EscapedIsColumn(p: Path)
    requires PrintablePath(p)
    ensures IsColumn(Escape(p, KERNEL_ESCAPES))
  {
    EscapedIsToken(p);
    if Escape(p, KERNEL_ESCAPES) == "-" {
      UnescapeEscape(p, KERNEL_ESCAPES);
      UnescapePlain("-");
    }
  }

  lemma ColumnsAreTokens(row: MountRow)
    requires WellFormed(row)
    ensures forall i :: 0 <= i < |Columns(row)| ==> IsToken(Columns(row)[i])
    ensures forall i :: 0 <= i < 5 + |row.options| ==> IsColumn(Columns(row)[i])
  {
    DevIsColumn(row);
    EscapedIsColumn(row.root);
    EscapedIsColumn(row.mountpoint);
    assert NoSpace("-");
  }

  lemma FieldsOfLine(row: MountRow)
    requires WellFormed(row)
    ensures Fields(Join(Columns(row))) == Columns(row) && IsLine(Join(Columns(row)))
  {
    ColumnsAreTokens(row);
    FieldsOfJoin(Columns(row));
    JoinIsLine(Columns(row));
  }

  /** A row of another path that is not taken for p either, although white space in its names may split its columns. */
  ghost predicate Aside(row: MountRow, p: Path)
    requires Printable(row)
  {
    && row.mountpoint != p && IsScanLine(LineOf(row))
    && var fields := Fields(LineOf(row));
       |fields| < 5 || Unescape(fields[4]) != p
  }

  /** Every row is well-formed or stands aside from p. */
  ghost predicate Legible(table: seq<MountRow>, p: Path) {
    forall i :: 0 <= i < |table| ==> WellFormed(table[i]) || (Printable(table[i]) && Aside(table[i], p))
  }

  lemma ScanOfRender(table: seq<MountRow>, buffer: nat)
    requires PrintableTable(table) && forall i :: 0 <= i < |table| ==> IsScanLine(LineOf(table[i]))
    ensures ScanLines(Render(table), buffer).1 <==> !Fits(table, buffer)
    ensures Fits(table, buffer) ==> ScanLines(Render(table), buffer).0 == Lines(table)
  {
    ScanOfUnlines(Lines(table), buffer);
  }

  lemma ScansOf(table: seq<MountRow>)
    requires forall i :: 0 <= i < |table| ==>
               WellFormed(table[i]) || (Printable(table[i]) && IsScanLine(LineOf(table[i])))
    ensures PrintableTable(table) && forall i :: 0 <= i < |table| ==> IsScanLine(LineOf(table[i]))
  {
    forall i | 0 <= i < |table| ensures Printable(table[i]) && IsScanLine(LineOf(table[i])) {
      if WellFormed(table[i]) {
        FieldsOfLine(table[i]);
      }
    }
  }

  lemma FrontOf(table: seq<MountRow>)
    requires PrintableTable(table) && table != []
    ensures var n := |table| - 1;
            && PrintableTable(table[..n])
            && Lines(table)[..n] == Lines(table[..n])
            && ProjectAll(table)[..n] == ProjectAll(table[..n])
  {
  }

  // ----- The top mount of a path

  /** Backing of the last line whose mount point is p, "" if there is none. */
  function LastBacking(lines: seq<string>, p: Path): string {
    if lines == [] then ""
    else
      var fields := Fields(lines[|lines| - 1]);
      if |fields| >= 5 && Unescape(fields[4]) == p then fields[2] + " " + fields[3]
      else LastBacking(lines[..|lines| - 1], p)
  }

  predicate BoundText(file: Option<string>, target: Path, source: Path) {
    match file
    case None => false
    case Some(text) =>
      var (lines, failed) := ScanLines(text, DEFAULT_BUFFER);
      !failed && target != source && LastBacking(lines, target) != ""
          && LastBacking(lines, target) == LastBacking(lines, source)
  }

  method BoundToCurrentSource(file: Option<string>, target: Path, source: Path) returns (bound: bool)
    ensures bound <==> BoundText(file, target, source)
    ensures bound ==> target != source && file.Some?
  {
    if file.None? {
      return false;
    }
    var (lines, failed) := ScanLines(file.value, DEFAULT_BUFFER);
    var targetTop, sourceTop := "", "";
    for i := 0 to |lines|
      invariant targetTop == LastBacking(lines[..i], target)
      invariant sourceTop == if source == target then "" else LastBacking(lines[..i], source)
    {
      assert lines[..i + 1][..i] == lines[..i];
      var fields := Fields(lines[i]);
      if |fields| < 5 {
        continue;
      }
      var backing := fields[2] + " " + fields[3];
      var path := UnescapeMountPath(fields[4]);
      if path == target {
        targetTop := backing;
      } else if path == source {
        sourceTop := backing;
      }
    }
    assert lines[..|lines|] == lines;
    if failed {
      return false;
    }
    return targetTop != "" && targetTop == sourceTop;
  }

  function TopRow(table: seq<MountRow>, p: Path): Option<MountRow> {
    if table == [] then None
    else if table[|table| - 1].mountpoint == p then Some(table[|table| - 1])
    else TopRow(table[..|table| - 1], p)
  }

  function PrintBacking(row: MountRow): string
    requires Printable(row)
  {
    Dev(row) + " " + Escape(row.root, KERNEL_ESCAPES)
  }

  lemma {:induction false} TopRowIsTop(table: seq<MountRow>, p: Path)
    requires PrintableTable(table) && Legible(table, p)
    ensures Top(ProjectAll(table), p) ==
              match TopRow(table, p) case Some(row) => Some(Project(row).backing) case None => None
    ensures TopRow(table, p).Some? ==> WellFormed(TopRow(table, p).value)
  {
    if table != [] {
      FrontOf(table);
      TopRowIsTop(table[..|table| - 1], p);
    }
  }

  /** The last line of a legible table is read as the mount of its own path, or as one of neither p nor it. */
  lemma LastLine(row: MountRow, p: Path)
    requires Printable(row) && (WellFormed(row) || Aside(row, p))
    ensures var fields := Fields(LineOf(row));
            if row.mountpoint == p then
              |fields| >= 5 && Unescape(fields[4]) == p && fields[2] + " " + fields[3] == PrintBacking(row)
            else |fields| < 5 || Unescape(fields[4]) != p
  {
    if WellFormed(row) {
      FieldsOfLine(row);
      UnescapeEscape(row.mountpoint, KERNEL_ESCAPES);
    }
  }

  lemma {:induction false} LastBackingIsTop(table: seq<MountRow>, p: Path)
    requires PrintableTable(table) && Legible(table, p)
    requires TopRow(table, p).Some? ==> Printable(TopRow(table, p).value)
    ensures LastBacking(Lines(table), p) == match TopRow(table, p) case Some(row) => PrintBacking(row) case None => ""
  {
    if table != [] {
      var n := |table| - 1;
      FrontOf(table);
      LastLine(table[n], p);
      if table[n].mountpoint != p {
        LastBackingIsTop(table[..n], p);
      }
    }
  }

  lemma {:induction false} TokenHasNoBlank(s: string)
    requires NoSpace(s)
    ensures ' ' !in s
  {
    if s != "" {
      TokenHasNoBlank(s[1..]);
      assert s == [s[0]] + s[1..];
    }
  }

  lemma PrintBackingInjective(r: MountRow, q: MountRow)
    requires WellFormed(r) && WellFormed(q)
    ensures PrintBacking(r) == PrintBacking(q) <==> Project(r).backing == Project(q).backing
  {
    if PrintBacking(r) == PrintBacking(q) {
      var rootR, rootQ := Escape(r.root, KERNEL_ESCAPES), Escape(q.root, KERNEL_ESCAPES);
      DevIsColumn(r);
      DevIsColumn(q);
      TokenHasNoBlank(Dev(r));
      TokenHasNoBlank(Dev(q));
      IndexByteFirst(Dev(r), ' ', rootR);
      IndexByteFirst(Dev(q), ' ', rootQ);
      assert PrintBacking(r) == Dev(r) + [' '] + rootR && PrintBacking(q) == Dev(q) + [' '] + rootQ;
      assert Dev(r) == PrintBacking(r)[..|Dev(r)|] == Dev(q);
      assert rootR == PrintBacking(r)[|Dev(r)| + 1..] == rootQ;
      EscapeInjective(r.root, q.root, KERNEL_ESCAPES);
    }
  }

  /**
   On a printed table the scan answers exactly: target and source differ, both are mounted
   with the same top backing, and every line fits the scanner.
   */
  lemma ScanRecoversTable(table: seq<MountRow>, target: Path, source: Path)
    requires PrintableTable(table) && Legible(table, target) && Legible(table, source)
    ensures BoundText(Some(Render(table)), target, source)
            <==> Fits(table, 65536) && BoundTo(ProjectAll(table), target, source)
  {
    ScansOf(table);
    ScanOfRender(table, DEFAULT_BUFFER);
    TopRowIsTop(table, target);
    TopRowIsTop(table, source);
    LastBackingIsTop(table, target);
    LastBackingIsTop(table, source);
    var t, s := TopRow(table, target), TopRow(table, source);
    if t.Some? && s.Some? {
      PrintBackingInjective(t.value, s.value);
    }
  }

  // ----- The FUSE rows

  datatype FuseMount = FuseMount(minor: int, mountpoint: string, fstype: string, source: string)

  /** Index of the first "-" field, or the number of fields. */
  function SepIndex(fields: seq<string>): (n: nat)
    ensures n <= |fields|
  {
    if fields == [] || fields[0] == "-" then 0 else 1 + SepIndex(fields[1..])
  }

  /** The number after the first colon. */
  function MinorOf(dev: string): Option<int> {
    var n := IndexByte(dev, ':');
    if n == |dev| then None else Atoi(dev[n + 1..])
  }

  function ParseFuseLine(line: string): Option<FuseMount> {
    var fields := Fields(line);
    if |fields| < 5 then None
    else
      var sep := SepIndex(fields);
      if sep + 2 >= |fields| || !HasPrefix(fields[sep + 1], "fuse") then None
      else match MinorOf(fields[2])
        case Some(minor) => Some(FuseMount(minor, fields[4], fields[sep + 1], fields[sep + 2]))
        case None => None
  }

  function FuseOf(lines: seq<string>): seq<FuseMount> {
    if lines == [] then []
    else
      FuseOf(lines[..|lines| - 1]) + match ParseFuseLine(lines[|lines| - 1]) case Some(m) => [m] case None => []
  }

  method FindSep(fields: seq<string>) returns (sep: nat)
    ensures sep == SepIndex(fields)
  {
    sep := 0;
    while sep < |fields| && fields[sep] != "-"
      invariant sep <= |fields| && sep + SepIndex(fields[sep..]) == SepIndex(fields)
    {
      assert fields[sep..][1..] == fields[sep + 1..];
      sep := sep + 1;
    }
  }

  /** One turn of the scan: a row that is no FUSE mount or does not parse is passed over. */
  method ParseFuseRow(line: string) returns (mount: Option<FuseMount>)
    ensures mount == ParseFuseLine(line)
  {
    var fields := Fields(line);
    if |fields| < 5 {
      return None;
    }
    var sep := FindSep(fields);
    if sep + 2 >= |fields| {
      return None;
    }
    var fstype := fields[sep + 1];
    if !HasPrefix(fstype, "fuse") {
      return None;
    }
    var minor := MinorOf(fields[2]);
    if minor.None? {
      return None;
    }
    return Some(FuseMount(minor.value, fields[4], fstype, fields[sep + 2]));
  }

  method ParseFuseMounts(text: string) returns (mounts: Option<seq<FuseMount>>)
    ensures var (lines, failed) := ScanLines(text, LARGE_BUFFER);
            mounts == if failed then None else Some(FuseOf(lines))
  {
    var (lines, failed) := ScanLines(text, LARGE_BUFFER);
    var out := [];
    for i := 0 to |lines|
      invariant out == FuseOf(lines[..i])
    {
      assert lines[..i + 1][..i] == lines[..i];
      var mount := ParseFuseRow(lines[i]);
      if mount.Some? {
        out := out + [mount.value];
      }
    }
    assert lines[..|lines|] == lines;
    return if failed then None else Some(out);
  }

  function FuseRows(table: seq<MountRow>): seq<FuseMount>
    requires WellFormedTable(table)
  {
    if table == [] then []
    else
      var row := table[|table| - 1];
      FuseRows(table[..|table| - 1])
      + if HasPrefix(row.fstype, "fuse")
        then [FuseMount(row.minor, Escape(row.mountpoint, KERNEL_ESCAPES), row.fstype, row.source)] else []
  }

  /** Exactly the FUSE rows, each with its own minor, mount point, type and source. */
  ghost predicate HoldsFuseRows(mounts: seq<FuseMount>, table: seq<MountRow>)
    requires WellFormedTable(table)
  {
    forall m :: m in mounts <==> IsFuseRow(m, table)
  }

  ghost predicate IsFuseRow(m: FuseMount, table: seq<MountRow>)
    requires WellFormedTable(table)
  {
    exists row :: row in table && "fuse" <= row.fstype && m.fstype == row.fstype && m.source == row.source
        && m.minor == row.minor && m.mountpoint == Escape(row.mountpoint, KERNEL_ESCAPES)
  }

  lemma {:induction false} FuseRowsAre(table: seq<MountRow>, m: FuseMount)
    requires WellFormedTable(table)
    ensures m in FuseRows(table) <==> IsFuseRow(m, table)
  {
    if table != [] {
      var n := |table| - 1;
      FuseRowsAre(table[..n], m);
      assert table == table[..n] + [table[n]];
      assert forall row :: row in table <==> row in table[..n] || row == table[n];
    }
  }

  lemma {:induction false} SepAfter(columns: seq<string>, rest: seq<string>)
    requires forall i :: 0 <= i < |columns| ==> columns[i] != "-"
    ensures SepIndex(columns + ["-"] + rest) == |columns|
  {
    var fields := columns + ["-"] + rest;
    if columns != [] {
      SepAfter(columns[1..], rest);
      assert fields[1..] == columns[1..] + ["-"] + rest;
    }
  }

  lemma {:induction false} DigitsNoColon(n: nat)
    ensures ':' !in Itoa(n)
  {
    if n >= 10 {
      DigitsNoColon(n / 10);
    }
  }

  lemma MinorOfDev(row: MountRow)
    requires WellFormed(row)
    ensures MinorOf(Dev(row)) == Some(row.minor)
  {
    DigitsNoColon(row.major);
    var a, b := Itoa(row.major), Itoa(row.minor);
    IndexByteFirst(a, ':', b);
    assert Dev(row) == a + [':'] + b && Dev(row)[|a| + 1..] == b;
    AtoiOfItoa(row.minor);
  }

  lemma ColumnLayout(row: MountRow)
    requires WellFormed(row)
    ensures var fields, n := Columns(row), 5 + |row.options|;
            && SepIndex(fields) == n && |fields| == n + 4
            && fields[n + 1] == row.fstype && fields[n + 2] == row.source
            && fields[2] == Dev(row) && fields[4] == Escape(row.mountpoint, KERNEL_ESCAPES)
  {
    ColumnsAreTokens(row);
    var n := 5 + |row.options|;
    SepAfter(Columns(row)[..n], [row.fstype, row.source, row.super]);
    assert Columns(row) == Columns(row)[..n] + ["-"] + [row.fstype, row.source, row.super];
  }

  lemma ParseOfFuseLine(row: MountRow)
    requires WellFormed(row)
    ensures ParseFuseLine(Join(Columns(row))) ==
            if HasPrefix(row.fstype, "fuse")
            then Some(FuseMount(row.minor, Escape(row.mountpoint, KERNEL_ESCAPES), row.fstype, row.source)) else None
  {
    FieldsOfLine(row);
    ColumnLayout(row);
    MinorOfDev(row);
  }

  lemma {:induction false} FuseOfLines(table: seq<MountRow>)
    requires WellFormedTable(table)
    ensures FuseOf(Lines(table)) == FuseRows(table)
  {
    if table != [] {
      FrontOf(table);
      ParseOfFuseLine(table[|table| - 1]);
      FuseOfLines(table[..|table| - 1]);
    }
  }

  /**
   On a printed table the sweeper's scan returns exactly its FUSE rows, in order and mount
   points still escaped, or fails when a line does not fit.
   */
  lemma FuseScanRecoversTable(table: seq<MountRow>)
    requires WellFormedTable(table)
    ensures var (lines, failed) := ScanLines(Render(table), LARGE_BUFFER);
            && (failed <==> !Fits(table, 1048576))
            && (!failed ==> FuseOf(lines) == FuseRows(table) && HoldsFuseRows(FuseOf(lines), table))
  {
    forall m {
      FuseRowsAre(table, m);
    }
    ScansOf(table);
    ScanOfRender(table, LARGE_BUFFER);
    FuseOfLines(table);
  }

  // ----- The minor of one FUSE mount

  function FuseMinorOfLine(line: string, mountPoint: string): Option<int> {
    var fields := Fields(line);
    if |fields| < 5 || fields[4] != mountPoint then None
    else
      var sep := SepIndex(fields);
      if sep + 1 >= |fields| || !HasPrefix(fields[sep + 1], "fuse") then None else MinorOf(fields[2])
  }

  function FirstMinor(lines: seq<string>, mountPoint: string): Option<int> {
    if lines == [] then None
    else if FuseMinorOfLine(lines[0], mountPoint).Some? then FuseMinorOfLine(lines[0], mountPoint)
    else FirstMinor(lines[1..], mountPoint)
  }

  method ParseFuseMinor(text: string, mountPoint: string) returns (minor: Option<int>)
    ensures minor == FirstMinor(ScanLines(text, LARGE_BUFFER).0, mountPoint)
  {
    var (lines, _) := ScanLines(text, LARGE_BUFFER);
    for i := 0 to |lines|
      invariant FirstMinor(lines[i..], mountPoint) == FirstMinor(lines, mountPoint)
    {
      assert lines[i..][1..] == lines[i + 1..];
      var fields := Fields(lines[i]);
      if |fields| < 5 || fields[4] != mountPoint {
        continue;
      }
      var sep := FindSep(fields);
      if sep == |fields| || sep + 1 >= |fields| || !HasPrefix(fields[sep + 1], "fuse") {
        continue;
      }
      minor := MinorOf(fields[2]);
      if minor.None? {
        continue;
      }
      return;
    }
    assert lines[|lines|..] == [];
    minor := None;
  }

  /** The FUSE rows of a path, oldest first. */
  function FuseMinorsAt(table: seq<MountRow>, p: Path): seq<nat> {
    if table == [] then []
    else
        (if table[0].mountpoint == p && HasPrefix(table[0].fstype, "fuse") then [table[0].minor] else [])
        + FuseMinorsAt(table[1..], p)
  }

  function First(minors: seq<nat>): Option<int> {
    if minors == [] then None else Some(minors[0])
  }

  function Last(minors: seq<nat>): Option<int> {
    if minors == [] then None else Some(minors[|minors| - 1])
  }

  lemma MinorOfRow(row: MountRow, p: string, q: Path)
    requires WellFormed(row) && IsBytes(q) && Escape(q, KERNEL_ESCAPES) == p
    ensures FuseMinorOfLine(LineOf(row), p) ==
              if row.mountpoint == q && HasPrefix(row.fstype, "fuse") then Some(row.minor) else None
  {
    FieldsOfLine(row);
    ColumnLayout(row);
    MinorOfDev(row);
    if Escape(row.mountpoint, KERNEL_ESCAPES) == p {
      EscapeInjective(row.mountpoint, q, KERNEL_ESCAPES);
    }
  }

  /** The text of a printed path gives the minor of that path's bottom FUSE mount. */
  lemma {:induction false} FirstMinorOfPrinted(table: seq<MountRow>, p: string, q: Path)
    requires WellFormedTable(table) && IsBytes(q) && Escape(q, KERNEL_ESCAPES) == p
    ensures FirstMinor(Lines(table), p) == First(FuseMinorsAt(table, q))
  {
    if table != [] {
      assert Lines(table)[1..] == Lines(table[1..]);
      FirstMinorOfPrinted(table[1..], p, q);
      MinorOfRow(table[0], p, q);
    }
  }

  /** A text that is not how any path is printed gives nothing. */
  lemma {:induction false} FirstMinorOfUnprinted(table: seq<MountRow>, p: string)
    requires WellFormedTable(table) && forall q: string | IsBytes(q) :: Escape(q, KERNEL_ESCAPES) != p
    ensures FirstMinor(Lines(table), p) == None
  {
    if table != [] {
      assert Lines(table)[1..] == Lines(table[1..]);
      FirstMinorOfUnprinted(table[1..], p);
      FieldsOfLine(table[0]);
      ColumnLayout(table[0]);
    }
  }

  /** The field is compared without unescaping it, so a path is taken for the one whose printed form it reads like. */
  lemma FirstMinorAnswers(table: seq<MountRow>, p: string)
    requires WellFormedTable(table) && IsBytes(p)
    ensures IsBytes(Unescape(p))
    ensures FirstMinor(Lines(table), p) ==
            if Escape(Unescape(p), KERNEL_ESCAPES) == p then First(FuseMinorsAt(table, Unescape(p))) else None
  {
    UnescapeBytes(p);
    var q := Unescape(p);
    if Escape(q, KERNEL_ESCAPES) == p {
      FirstMinorOfPrinted(table, p, q);
    } else {
      forall q': string | IsBytes(q') ensures Escape(q', KERNEL_ESCAPES) != p {
        UnescapeEscape(q', KERNEL_ESCAPES);
      }
      FirstMinorOfUnprinted(table, p);
    }
  }

  /**
   For a path printed as it is, the answer is its own top FUSE mount exactly if
   the bottom one has the same minor, or there is none.
   */
  lemma FirstMinorIsOwnTop(table: seq<MountRow>, p: Path)
    requires WellFormedTable(table) && IsBytes(p) && forall c :: c in p ==> c !in KERNEL_ESCAPES
    ensures var minors := FuseMinorsAt(table, p);
            FirstMinor(Lines(table), p) == Last(minors) <==> minors == [] || minors[0] == minors[|minors| - 1]
  {
    EscapeUnchanged(p, KERNEL_ESCAPES);
    FirstMinorOfPrinted(table, p, p);
  }

  /** For any other path, exactly if a path that reads like it agrees, or if neither has a FUSE mount. */
  lemma EscapedFindsOwnTop(table: seq<MountRow>, p: Path)
    requires WellFormedTable(table) && IsBytes(p) && exists c :: c in p && c in KERNEL_ESCAPES
    ensures IsBytes(Unescape(p)) && (Escape(Unescape(p), KERNEL_ESCAPES) == p ==> Unescape(p) != p)
    ensures FirstMinor(Lines(table), p) == Last(FuseMinorsAt(table, p)) <==>
              if Escape(Unescape(p), KERNEL_ESCAPES) == p
              then First(FuseMinorsAt(table, Unescape(p))) == Last(FuseMinorsAt(table, p))
              else FuseMinorsAt(table, p) == []
  {
    FirstMinorAnswers(table, p);
    EscapeUnchanged(p, KERNEL_ESCAPES);
  }

  /** A table of one FUSE mount of ours. */
  function OneMount(p: Path, minor: nat): seq<MountRow> {
    [MountRow("2", "1", 0, minor, "/", p, [], "fuse", "hf-mount", "rw")]
  }

  lemma OneMountWellFormed(p: Path, minor: nat)
    requires PrintablePath(p) && minor <= MAX_INT
    ensures WellFormedTable(OneMount(p, minor))
  {
    WordsAreTokens();
    var row := OneMount(p, minor)[0];
    assert WellFormed(row);
  }

  lemma WordsAreTokens()
    ensures IsColumn("2") && IsColumn("1") && IsToken("fuse") && IsToken("hf-mount") && IsToken("rw")
            && PrintablePath("/")
  {
    WordToken("2");
    WordToken("1");
    WordToken("fuse");
    WordToken("hf-mount");
    WordToken("rw");
    assert "/"[1..] == "";
  }

  lemma {:induction false} WordToken(s: string)
    requires forall i :: 0 <= i < |s| ==> '-' <= s[i] <= 'z'
    ensures NoSpace(s)
  {
    if s != "" {
      WordToken(s[1..]);
      assert SpaceWidth(s) == 0;
    }
  }

  lemma MinorsOfOneMount(p: Path, minor: nat, q: Path)
    ensures FuseMinorsAt(OneMount(p, minor), q) == if p == q then [minor] else []
  {
    var table := OneMount(p, minor);
    assert table[1..] == [] && FuseMinorsAt([], q) == [];
  }

  /** With two FUSE mounts stacked on a path, the lower one is found. */
  lemma BottomIsFound(p: Path)
    requires PrintablePath(p) && forall c :: c in p ==> c !in KERNEL_ESCAPES
    ensures WellFormedTable(OneMount(p, 1) + OneMount(p, 2))
    ensures FirstMinor(Lines(OneMount(p, 1) + OneMount(p, 2)), p) == Some(1)
    ensures Last(FuseMinorsAt(OneMount(p, 1) + OneMount(p, 2), p)) == Some(2)
  {
    OneMountWellFormed(p, 1);
    OneMountWellFormed(p, 2);
    EscapeUnchanged(p, KERNEL_ESCAPES);
    FirstMinorOfPrinted(OneMount(p, 1) + OneMount(p, 2), p, p);
    MinorsOfTwoMounts(p);
  }

  lemma MinorsOfTwoMounts(p: Path)
    ensures FuseMinorsAt(OneMount(p, 1) + OneMount(p, 2), p) == [1, 2]
  {
    var table := OneMount(p, 1) + OneMount(p, 2);
    assert table[1..] == OneMount(p, 2);
    MinorsOfOneMount(p, 2, p);
    assert FuseMinorsAt(table, p) == [1] + FuseMinorsAt(table[1..], p);
  }

  /** A path with an escaped byte does not find its own mount. */
  lemma EscapedPathMisses(p: Path)
    requires PrintablePath(p) && Escape(p, KERNEL_ESCAPES) != p
    ensures WellFormedTable(OneMount(p, 1))
    ensures FirstMinor(Lines(OneMount(p, 1)), p) != First(FuseMinorsAt(OneMount(p, 1), p))
  {
    OneMountWellFormed(p, 1);
    FirstMinorAnswers(OneMount(p, 1), p);
    MinorsOfOneMount(p, 1, p);
    MinorsOfOneMount(p, 1, Unescape(p));
  }

  ghost predicate FindsOwn(p: Path) {
    forall table | WellFormedTable(table) :: FirstMinor(Lines(table), p) == First(FuseMinorsAt(table, p))
  }

  /**
   On every table the answer is the path's own bottom FUSE mount if and only if the kernel
   escapes nothing in the path.
   */
  lemma FirstMinorIsOwnBottom(p: Path)
    requires PrintablePath(p)
    ensures FindsOwn(p) <==> forall c :: c in p ==> c !in KERNEL_ESCAPES
  {
    EscapeUnchanged(p, KERNEL_ESCAPES);
    if Escape(p, KERNEL_ESCAPES) == p {
      forall table | WellFormedTable(table) ensures FirstMinor(Lines(table), p) == First(FuseMinorsAt(table, p)) {
        FirstMinorOfPrinted(table, p, p);
      }
    } else {
      EscapedPathMisses(p);
    }
  }

  lemma SpacePrints()
    ensures PrintablePath("/a b") && Escape("/a b", KERNEL_ESCAPES) == "/a\\040b"
  {
    assert "/a b"[1..] == "a b" && "a b"[1..] == " b" && " b"[1..] == "b" && "b"[1..] == "";
    assert Octal(' ') == "040";
    assert Escape("b", KERNEL_ESCAPES) == "b" + Escape("", KERNEL_ESCAPES) == "b";
    assert Escape(" b", KERNEL_ESCAPES) == "\\040" + Escape("b", KERNEL_ESCAPES) == "\\040b";
    assert Escape("a b", KERNEL_ESCAPES) == "a" + Escape(" b", KERNEL_ESCAPES);
    assert PlainName("b") && PlainName(" b") && PlainName("a b");
  }

  /**
   So a path with a backslash can be taken for another: here nothing is mounted on it, and
   another path's minor is found.
   */
  lemma OtherPathsMinor(minor: nat)
    requires minor <= MAX_INT
    ensures WellFormedTable(OneMount("/a b", minor))
    ensures FuseMinorsAt(OneMount("/a b", minor), "/a\\040b") == []
    ensures FirstMinor(Lines(OneMount("/a b", minor)), "/a\\040b") == Some(minor)
  {
    SpacePrints();
    OneMountWellFormed("/a b", minor);
    MinorsOfOneMount("/a b", minor, "/a b");
    MinorsOfOneMount("/a b", minor, "/a\\040b");
    FirstMinorOfPrinted(OneMount("/a b", minor), "/a\\040b", "/a b");
    assert |"/a b"| != |"/a\\040b"|;
  }

  /** A path with a space, tab or newline is never found. */
  lemma SpacedPathNotFound(table: seq<MountRow>, p: string)
    requires WellFormedTable(table) && IsBytes(p) && exists c :: c in p && c in {' ', '\t', '\n'}
    ensures FirstMinor(Lines(table), p) == None
  {
    FirstMinorAnswers(table, p);
    EscapedHasNoBlank(Unescape(p));
  }

  // ----- The sidecar's own look at the table

  /** A row as the library parses it, its mount point still escaped. */
  datatype MountInfo = MountInfo(minor: nat, mountPoint: string, fsType: string, source: string)

  /** The last row whose mount point is the target. */
  ghost predicate IsLastAt(r: Option<MountInfo>, infos: seq<MountInfo>, target: Path) {
    match r
    case None => forall i :: 0 <= i < |infos| ==> Unescape(infos[i].mountPoint) != target
    case Some(info) => exists i :: 0 <= i < |infos| && infos[i] == info && Unescape(info.mountPoint) == target
                                   && forall j :: i < j < |infos| ==> Unescape(infos[j].mountPoint) != target
  }

  /** `clean` stands for the lexical cleaning of a path. */
  method SidecarMountInfo(infos: seq<MountInfo>, clean: Path -> Path, target: Path) returns (r: Option<MountInfo>)
    ensures IsLastAt(r, infos, clean(target))
  {
    var i := |infos|;
    while i > 0
      invariant 0 <= i <= |infos|
      invariant forall j :: i <= j < |infos| ==> Unescape(infos[j].mountPoint) != clean(target)
    {
      i := i - 1;
      var mountPoint := UnescapeMountPath(infos[i].mountPoint);
      if mountPoint == clean(target) {
        return Some(infos[i]);
      }
    }
    return None;
  }

  datatype SidecarState = Unmounted | MountedAs(minor: nat) | Unexpected

  method SidecarMountState(infos: seq<MountInfo>, clean: Path -> Path, target: Path) returns (state: SidecarState)
    ensures exists r :: IsLastAt(r, infos, clean(target)) && state == StateOf(r)
    // nothing there; or a mount of ours on top, by type and source; or a foreign one, which is refused
    ensures state.Unmounted? <==> forall i :: 0 <= i < |infos| ==> Unescape(infos[i].mountPoint) != clean(target)
    ensures !state.Unmounted? ==>
              exists i :: 0 <= i < |infos| && Unescape(infos[i].mountPoint) == clean(target)
                && (forall j :: i < j < |infos| ==> Unescape(infos[j].mountPoint) != clean(target))
                && (state.MountedAs? <==>
                      infos[i].fsType in {"fuse", "fuse.hf-mount"} && infos[i].source == "hf-mount")
                && (state.MountedAs? ==> state.minor == infos[i].minor)
  {
    var info := SidecarMountInfo(infos, clean, target);
    if info.None? {
      return Unmounted;
    }
    if (info.value.fsType != "fuse" && info.value.fsType != "fuse.hf-mount") || info.value.source != "hf-mount" {
      return Unexpected;
    }
    return MountedAs(info.value.minor);
  }

  function StateOf(r: Option<MountInfo>): SidecarState {
    match r
    case None => Unmounted
    case Some(info) =>
      if info.fsType in {"fuse", "fuse.hf-mount"} && info.source == "hf-mount" then MountedAs(info.minor)
          else Unexpected
  }

  function Parsed(table: seq<MountRow>): seq<MountInfo>
    requires WellFormedTable(table)
  {
    seq(|table|, i requires 0 <= i < |table| => InfoOf(table[i]))
  }

  function InfoOf(row: MountRow): MountInfo
    requires WellFormed(row)
  {
    MountInfo(row.minor, Escape(row.mountpoint, KERNEL_ESCAPES), row.fstype, row.source)
  }

  lemma LastAtStep(r: Option<MountInfo>, infos: seq<MountInfo>, target: Path)
    requires infos != [] && IsLastAt(r, infos, target)
    ensures var n := |infos| - 1;
            if Unescape(infos[n].mountPoint) == target then r == Some(infos[n]) else IsLastAt(r, infos[..n], target)
  {
  }

  lemma ParsedFront(table: seq<MountRow>)
    requires WellFormedTable(table) && table != []
    ensures var n := |table| - 1;
            |Parsed(table)| == n + 1 && Parsed(table)[n] == InfoOf(table[n]) && Parsed(table)[..n] == Parsed(table[..n])
            && (Unescape(Parsed(table)[n].mountPoint) == table[n].mountpoint)
  {
    UnescapeEscape(table[|table| - 1].mountpoint, KERNEL_ESCAPES);
  }

  /** Unlike the abort's look at the table, the sidecar's finds the mount on top, whatever its path. */
  lemma {:induction false} SidecarSeesTop(table: seq<MountRow>, target: Path, r: Option<MountInfo>)
    requires WellFormedTable(table) && IsLastAt(r, Parsed(table), target)
    ensures TopRow(table, target).Some? ==> WellFormed(TopRow(table, target).value)
    ensures r == match TopRow(table, target) case Some(row) => Some(InfoOf(row)) case None => None
  {
    if table != [] {
      ParsedFront(table);
      LastAtStep(r, Parsed(table), target);
      if table[|table| - 1].mountpoint != target {
        SidecarSeesTop(table[..|table| - 1], target, r);
      }
    }
  }
}
