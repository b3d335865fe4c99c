/**
 The text side of the upgrade flow: snapshot names and the two parsers of
 `qm listsnapshot` output.
 */
module Listing {
  import opened Common
  import opened Text

  const SNAPSHOT_PREFIX := "pre-upgrade-26x-"

  // ---- Snapshot names ----

  function SnapshotName(unix: int): string {
    SNAPSHOT_PREFIX + FormatInt(unix)
  }

  predicate IsUpgradeSnapshot(name: string) {
    && SNAPSHOT_PREFIX < name
    && AllDigits(name[|SNAPSHOT_PREFIX|..])
  }

  // The digits read as an int64 that wraps around.
  function WrapValue(s: string): (n: int)
    requires AllDigits(s)
    ensures IsInt64(n)
  {
    if s == "" then 0 else Wrap64(WrapValue(s[..|s| - 1]) * 10 + DigitValue(s[|s| - 1]))
  }

  function TimestampOf(name: string): Option<int> {
    if SNAPSHOT_PREFIX < name && AllDigits(name[|SNAPSHOT_PREFIX|..])
    then Some(WrapValue(name[|SNAPSHOT_PREFIX|..])) else None
  }

  // timestampFromName's loop over the tail's digits.
  method TimestampFromName(name: string) returns (r: Option<int>)
    ensures r == TimestampOf(name)
  {
    if !(SNAPSHOT_PREFIX < name) {
      return None;
    }
    var tail := name[|SNAPSHOT_PREFIX|..];
    var n: int := 0;
    for k := 0 to |tail|
      invariant AllDigits(tail[..k]) && n == WrapValue(tail[..k])
    {
      if !IsDigit(tail[k]) {
        return None;
      }
      assert tail[..k + 1][..k] == tail[..k];
      n := Wrap64(n * 10 + DigitValue(tail[k]));
    }
    assert tail[..|tail|] == tail;
    return Some(n);
  }

  lemma {:induction false} SmallValuesDoNotWrap(s: string)
    requires AllDigits(s) && Value(s) < INT64_LIMIT
    ensures WrapValue(s) == Value(s)
  {
    if s != "" {
      SmallValuesDoNotWrap(s[..|s| - 1]);
    }
  }

  // A name made from a time yields that time exactly when the time is not
  // before 1970, and otherwise yields nothing.
  lemma TimestampRoundTrip(unix: int)
    requires IsInt64(unix)
    ensures TimestampOf(SnapshotName(unix)) == if unix >= 0 then Some(unix) else None
    ensures IsUpgradeSnapshot(SnapshotName(unix)) <==> unix >= 0
  {
    var name := SnapshotName(unix);
    assert name[|SNAPSHOT_PREFIX|..] == FormatInt(unix);
    if unix >= 0 {
      ValueOfDigits(unix);
      SmallValuesDoNotWrap(Digits(unix));
    } else {
      assert FormatInt(unix)[0] == '-' && FormatInt(unix)[0] in FormatInt(unix);
    }
  }

  // The watchdog's own snapshots: the pattern, then at least one more character.
  predicate MarkAt(name: string, mark: string, i: nat) {
    i + |mark| < |name| && name[i..i + |mark|] == mark && !IsSpace(name[i + |mark|])
  }

  predicate HasMark(name: string, mark: string) {
    exists i: nat | i < |name| :: MarkAt(name, mark, i)
  }

  predicate IsWatchdog(name: string) {
    HasMark(name, "pre-deploy-") || HasMark(name, "known-good-")
  }

  // A name prepare makes is never the watchdog's, whatever the clock says.
  lemma UpgradeNameIsNotWatchdog(unix: int)
    ensures !IsWatchdog(SnapshotName(unix))
  {
    var name := SnapshotName(unix);
    forall c | c in name ensures c != 'y' && c != 'k' {
      if c !in SNAPSHOT_PREFIX {
        assert c in FormatInt(unix);
      }
    }
    MarkNeedsLetter(name, "pre-deploy-", 9, 'y');
    MarkNeedsLetter(name, "known-good-", 0, 'k');
  }

  lemma MarkNeedsLetter(name: string, mark: string, k: nat, c: char)
    requires k < |mark| && mark[k] == c && c !in name
    ensures !HasMark(name, mark)
  {
    forall i: nat | i < |name| ensures !MarkAt(name, mark, i) {
      if i + |mark| < |name| {
        assert name[i..i + |mark|][k] == name[i + k] != c;
      }
    }
  }

  // ---- What the names are ----

  // An upgrade snapshot is the prefix and one or more decimal digits.
  lemma UpgradeNameMeans(name: string)
    ensures IsUpgradeSnapshot(name) <==>
            exists digits :: name == "pre-upgrade-26x-" + digits && digits != "" && forall c :: c in digits ==> '0' <= c <= '9'
  {
    if IsUpgradeSnapshot(name) {
      assert name == "pre-upgrade-26x-" + name[|SNAPSHOT_PREFIX|..];
    } else {
      forall digits | name == "pre-upgrade-26x-" + digits && digits != "" ensures exists c :: c in digits && !('0' <= c <= '9') {
        assert name[|SNAPSHOT_PREFIX|..] == digits;
      }
    }
  }

  // The digits of such a name are read modulo 2^64.
  lemma {:induction false} WrapMeans(s: string)
    requires AllDigits(s)
    ensures exists k: int :: Value(s) == WrapValue(s) + k * 0x1_0000_0000_0000_0000
  {
    if s != "" {
      var n := |s| - 1;
      WrapMeans(s[..n]);
      var k: int :| Value(s[..n]) == WrapValue(s[..n]) + k * 0x1_0000_0000_0000_0000;
      var sum := WrapValue(s[..n]) * 10 + DigitValue(s[n]);
      var j := WrapBy(sum);
      assert Value(s) == WrapValue(s) + (10 * k + j) * 0x1_0000_0000_0000_0000;
    } else {
      assert Value(s) == WrapValue(s) + 0 * 0x1_0000_0000_0000_0000;
    }
  }

  lemma WrapBy(n: int) returns (j: int)
    ensures n == Wrap64(n) + j * 0x1_0000_0000_0000_0000
  {
    j := (n + INT64_LIMIT) / (2 * INT64_LIMIT);
  }

  predicate MarkedBy(name: string, a: string, mark: string, b: string) {
    name == a + (mark + b) && b != "" && !IsSpace(b[0])
  }

  // A watchdog snapshot has one of the two marks anywhere, with at least one more
  // character that is no white space behind it.
  lemma WatchdogMeans(name: string)
    ensures IsWatchdog(name) <==>
            (exists a, b :: MarkedBy(name, a, "pre-deploy-", b)) || (exists a, b :: MarkedBy(name, a, "known-good-", b))
  {
    MarkMeans(name, "pre-deploy-");
    MarkMeans(name, "known-good-");
  }

  lemma MarkMeans(name: string, mark: string)
    ensures HasMark(name, mark) <==> exists a, b :: MarkedBy(name, a, mark, b)
  {
    if HasMark(name, mark) {
      var i: nat :| i < |name| && MarkAt(name, mark, i);
      var a, b := name[..i], name[i + |mark|..];
      assert name == a + (name[i..i + |mark|] + b);
      assert MarkedBy(name, a, mark, b);
    }
    if exists a, b :: MarkedBy(name, a, mark, b) {
      var a, b :| MarkedBy(name, a, mark, b);
      assert name[|a|..|a| + |mark|] == mark && name[|a| + |mark|] == b[0];
      assert MarkAt(name, mark, |a|);
    }
  }

  // ---- One line of the listing ----

  // The characters of the tree drawing, " `->|".
  predicate IsTreeMark(c: char) {
    c == ' ' || c == '`' || c == '-' || c == '>' || c == '|'
  }

  function TrimMarks(s: string): string {
    if s != "" && IsTreeMark(s[0]) then TrimMarks(s[1..]) else s
  }

  function Field(s: string): string {
    if s == "" || IsSpace(s[0]) then "" else [s[0]] + Field(s[1..])
  }

  // The snapshot a line names: the first field behind the tree marks, unless
  // there is none or it is the running state.
  function Entry(line: string): seq<string> {
    var rest := TrimSpaceLeft(TrimMarks(line));
    if rest == "" || Field(rest) == "current" then [] else [Field(rest)]
  }

  function Entries(lines: seq<string>): seq<string>
    decreases lines
  {
    if lines == [] then [] else Entry(lines[0]) + Entries(lines[1..])
  }

  // ---- snapshotsAfter ----

  function Watchdogs(names: seq<string>): seq<string>
    decreases names
  {
    if names == [] then []
    else (if IsWatchdog(names[0]) then [names[0]] else []) + Watchdogs(names[1..])
  }

  function AfterFirst(names: seq<string>, target: string): seq<string>
    decreases names
  {
    if names == [] then [] else if names[0] == target then names[1..] else AfterFirst(names[1..], target)
  }

  // What stands behind the first of several, and nothing without one.
  lemma {:induction false} AfterFirstMeans(before: seq<string>, target: string, after: seq<string>)
    requires target !in before
    ensures AfterFirst(before + ([target] + after), target) == after
    ensures AfterFirst(before, target) == []
    decreases before
  {
    var all := before + ([target] + after);
    if before == [] {
      assert all[0] == target && all[1..] == after;
    } else {
      assert all[0] == before[0] && all[1..] == before[1..] + ([target] + after);
      AfterFirstMeans(before[1..], target, after);
    }
  }

  // The watchdog's names among others, in their order, each as often as it is there.
  lemma {:induction false} WatchdogsMean(a: seq<string>, b: seq<string>)
    ensures Watchdogs(a + b) == Watchdogs(a) + Watchdogs(b)
    ensures forall n :: Watchdogs([n]) == if IsWatchdog(n) then [n] else []
    decreases a
  {
    forall n ensures Watchdogs([n]) == if IsWatchdog(n) then [n] else [] {
      assert [n][1..] == [];
    }
    if a == [] {
      assert a + b == b;
    } else {
      assert (a + b)[0] == a[0] && (a + b)[1..] == a[1..] + b;
      WatchdogsMean(a[1..], b);
      Associates(if IsWatchdog(a[0]) then [a[0]] else [], Watchdogs(a[1..]), Watchdogs(b));
    }
  }

  // The line loop with its `past` flag.
  function AfterLines(lines: seq<string>, target: string, past: bool): seq<string>
    decreases lines
  {
    if lines == [] then []
    else
      var entry := Entry(lines[0]);
      if entry == [] then AfterLines(lines[1..], target, past)
      else if !past then AfterLines(lines[1..], target, entry[0] == target)
      else (if IsWatchdog(entry[0]) then [entry[0]] else []) + AfterLines(lines[1..], target, true)
  }

  function SnapshotsAfter(text: string, target: string): seq<string> {
    AfterLines(Split(text), target, false)
  }

  method SnapshotsAfterLoop(text: string, target: string) returns (result: seq<string>)
    ensures result == SnapshotsAfter(text, target)
  {
    var lines := Split(text);
    var past := false;
    result := [];
    for k := 0 to |lines|
      invariant result + AfterLines(lines[k..], target, past) == AfterLines(lines, target, false)
    {
      assert lines[k..][1..] == lines[k + 1..];
      var entry := Entry(lines[k]);
      if entry != [] {
        if !past {
          past := entry[0] == target;
        } else if IsWatchdog(entry[0]) {
          Associates(result, [entry[0]], AfterLines(lines[k + 1..], target, true));
          result := result + [entry[0]];
        }
      }
    }
  }

  // ---- parseSnapshotNames ----

  // bufio.MaxScanTokenSize
  const SCAN_LIMIT: nat := 65536

  function DropCR(line: string): string {
    if line != "" && line[|line| - 1] == '\r' then line[..|line| - 1] else line
  }

  // What bufio.Scanner yields for the lines of a text: it drops a trailing
  // carriage return and an empty last line, and stops at a line over its limit.
  function Scanned(lines: seq<string>): seq<string>
    decreases lines
  {
    if lines == [] || |lines[0]| >= SCAN_LIMIT then []
    else if |lines| == 1 && lines[0] == "" then []
    else [DropCR(lines[0])] + Scanned(lines[1..])
  }

  function ParseSnapshotNames(text: string): seq<string> {
    Entries(Scanned(Split(text)))
  }

  method ParseSnapshotNamesLoop(text: string) returns (names: seq<string>)
    ensures names == ParseSnapshotNames(text)
  {
    var lines := Scanned(Split(text));
    names := [];
    for k := 0 to |lines|
      invariant names + Entries(lines[k..]) == Entries(lines)
    {
      assert lines[k..][1..] == lines[k + 1..];
      Associates(names, Entry(lines[k]), Entries(lines[k + 1..]));
      names := names + Entry(lines[k]);
    }
  }

  // ---- The two parsers agree ----

  lemma {:induction false} TrimMarksBefore(x: string)
    ensures TrimMarks(x + ['\r']) == TrimMarks(x) + ['\r']
  {
    if x != "" && IsTreeMark(x[0]) {
      TrimMarksBefore(x[1..]);
      assert (x + ['\r'])[1..] == x[1..] + ['\r'];
    }
  }

  lemma {:induction false} TrimSpaceBefore(x: string)
    ensures TrimSpaceLeft(x + ['\r']) == if TrimSpaceLeft(x) == "" then "" else TrimSpaceLeft(x) + ['\r']
  {
    if x == "" {
      assert ("" + ['\r'])[1..] == "";
    } else if IsSpace(x[0]) {
      TrimSpaceBefore(x[1..]);
      assert (x + ['\r'])[1..] == x[1..] + ['\r'];
    }
  }

  lemma {:induction false} FieldBefore(x: string)
    ensures Field(x + ['\r']) == Field(x)
  {
    if x != "" && !IsSpace(x[0]) {
      FieldBefore(x[1..]);
      assert (x + ['\r'])[1..] == x[1..] + ['\r'];
    }
  }

  // A carriage return at the end of a line does not change what it names.
  lemma EntryIgnoresCR(line: string)
    ensures Entry(DropCR(line)) == Entry(line)
  {
    if DropCR(line) != line {
      var x := DropCR(line);
      assert line == x + ['\r'];
      TrimMarksBefore(x);
      TrimSpaceBefore(TrimMarks(x));
      FieldBefore(TrimSpaceLeft(TrimMarks(x)));
    }
  }

  // Lines the scanner can hold.
  ghost predicate ShortLines(lines: seq<string>) {
    forall l :: l in lines ==> |l| < 65536
  }

  lemma {:induction false} ScanningKeepsEntries(lines: seq<string>)
    requires ShortLines(lines)
    ensures Entries(Scanned(lines)) == Entries(lines)
    decreases lines
  {
    if lines != [] {
      assert lines[0] in lines;
      EntryIgnoresCR(lines[0]);
      ScanningKeepsEntries(lines[1..]);
    }
  }

  // At the first line that is too long the scanner gives up: the names before it
  // are all there is.
  lemma {:induction false} LongLineEnds(before: seq<string>, long: string, after: seq<string>)
    requires ShortLines(before) && |long| >= 65536
    ensures Entries(Scanned(before + ([long] + after))) == Entries(before)
    decreases before
  {
    var all := before + ([long] + after);
    if before == [] {
      assert all[0] == long;
    } else {
      assert before[0] in before && all[0] == before[0];
      assert all[1..] == before[1..] + ([long] + after);
      EntryIgnoresCR(before[0]);
      LongLineEnds(before[1..], long, after);
      assert ([DropCR(before[0])] + Scanned(all[1..]))[1..] == Scanned(all[1..]);
    }
  }

  lemma {:induction false} AfterLinesIsFilter(lines: seq<string>, target: string, past: bool)
    ensures AfterLines(lines, target, past)
         == Watchdogs(if past then Entries(lines) else AfterFirst(Entries(lines), target))
    decreases lines
  {
    if lines != [] {
      var entry, rest := Entry(lines[0]), Entries(lines[1..]);
      if entry == [] {
        assert Entries(lines) == rest;
        AfterLinesIsFilter(lines[1..], target, past);
      } else {
        assert Entries(lines)[0] == entry[0] && Entries(lines)[1..] == rest;
        AfterLinesIsFilter(lines[1..], target, past || entry[0] == target);
      }
    }
  }

  // For any listing whose lines fit the scanner, what rollback deletes below its
  // target is exactly the watchdog's snapshots among the names gc and reset see
  // after the target's first occurrence.
  lemma ParsersAgree(text: string, target: string)
    requires ShortLines(Split(text))
    ensures SnapshotsAfter(text, target) == Watchdogs(AfterFirst(ParseSnapshotNames(text), target))
  {
    ScanningKeepsEntries(Split(text));
    AfterLinesIsFilter(Split(text), target, false);
  }

  lemma {:induction false} WatchdogsOnly(names: seq<string>)
    ensures forall n :: n in Watchdogs(names) ==> IsWatchdog(n) && n in names
    decreases names
  {
    if names != [] {
      WatchdogsOnly(names[1..]);
    }
  }

  // Rollback's list holds nothing but watchdog snapshots, on any text at all.
  lemma OnlyWatchdogsAfter(text: string, target: string)
    ensures forall n :: n in SnapshotsAfter(text, target) ==> IsWatchdog(n)
  {
    AfterLinesIsFilter(Split(text), target, false);
    WatchdogsOnly(AfterFirst(Entries(Split(text)), target));
  }

  // ---- Parsing a rendered tree ----

  datatype Row = Row(indent: string, name: string, rest: string)

  // A name Proxmox can list, or the running state, drawn with any tree marks and
  // any columns behind.
  predicate LegalRow(r: Row) {
    && (forall c :: c in r.indent ==> c in {' ', '`', '-', '>', '|'})
    && r.name != "" && r.name[0] !in {' ', '`', '-', '>', '|'}
    && (forall c :: c in r.name ==> !IsSpace(c))
    && (r.rest != "" ==> IsSpace(r.rest[0]))
    && NoNewline(r.rest)
    && |r.indent + r.name + r.rest| < 65536
  }

  function Render(rows: seq<Row>): string
    decreases rows
  {
    if rows == [] then ""
    else (rows[0].indent + rows[0].name + rows[0].rest) + ['\n'] + Render(rows[1..])
  }

  // The snapshots among the rows; the running state is none.
  function Names(rows: seq<Row>): seq<string>
    decreases rows
  {
    if rows == [] then [] else Named(rows[0]) + Names(rows[1..])
  }

  function Named(r: Row): seq<string> {
    if r.name == "current" then [] else [r.name]
  }

  lemma {:induction false} TrimIndent(indent: string, s: string)
    requires (forall c :: c in indent ==> IsTreeMark(c)) && s != "" && !IsTreeMark(s[0])
    ensures TrimMarks(indent + s) == s
  {
    if indent == "" {
      assert indent + s == s;
    } else {
      assert (indent + s)[1..] == indent[1..] + s;
      TrimIndent(indent[1..], s);
    }
  }

  lemma {:induction false} FieldOfName(name: string, rest: string)
    requires (forall c :: c in name ==> !IsSpace(c)) && (rest != "" ==> IsSpace(rest[0]))
    ensures Field(name + rest) == name
  {
    if name == "" {
      assert name + rest == rest;
    } else {
      assert (name + rest)[1..] == name[1..] + rest;
      FieldOfName(name[1..], rest);
    }
  }

  lemma EntryOfRow(r: Row)
    requires LegalRow(r)
    ensures Entry(r.indent + r.name + r.rest) == Named(r)
    ensures NoNewline(r.indent + r.name + r.rest)
  {
    assert r.indent + r.name + r.rest == r.indent + (r.name + r.rest);
    TrimIndent(r.indent, r.name + r.rest);
    FieldOfName(r.name, r.rest);
    assert r.name[0] in r.name;
    assert IsSpace('\n') && !IsTreeMark('\n');
  }

  lemma SplitOfRender(rows: seq<Row>)
    requires rows != [] && LegalRow(rows[0])
    ensures Split(Render(rows)) == [rows[0].indent + rows[0].name + rows[0].rest] + Split(Render(rows[1..]))
  {
    EntryOfRow(rows[0]);
    SplitLine(rows[0].indent + rows[0].name + rows[0].rest, Render(rows[1..]));
  }

  lemma EntriesOfScanned(line: string, rest: seq<string>)
    requires |line| < 65536 && rest != []
    ensures Entries(Scanned([line] + rest)) == Entry(line) + Entries(Scanned(rest))
  {
    EntryIgnoresCR(line);
    assert ([line] + rest)[1..] == rest;
    assert ([DropCR(line)] + Scanned(rest))[1..] == Scanned(rest);
  }

  // A rendered tree of legal names is read back in order, whatever the
  // indentation and the columns behind the names.
  lemma {:induction false} ParseOfRender(rows: seq<Row>)
    requires forall r :: r in rows ==> LegalRow(r)
    ensures ParseSnapshotNames(Render(rows)) == Names(rows)
    decreases rows
  {
    if rows != [] {
      var line := rows[0].indent + rows[0].name + rows[0].rest;
      var below := Render(rows[1..]);
      assert LegalRow(rows[0]);
      EntryOfRow(rows[0]);
      SplitOfRender(rows);
      EntriesOfScanned(line, Split(below));
      ParseOfRender(rows[1..]);
      assert ParseSnapshotNames(below) == Names(rows[1..]);
    }
  }

  lemma {:induction false} RenderedLinesAreShort(rows: seq<Row>)
    requires forall r :: r in rows ==> LegalRow(r)
    ensures ShortLines(Split(Render(rows)))
    decreases rows
  {
    if rows != [] {
      assert LegalRow(rows[0]);
      SplitOfRender(rows);
      RenderedLinesAreShort(rows[1..]);
    }
  }

  // The other parser reads the same names from it, and keeps the watchdog's after
  // the first row that is the target's.
  lemma AfterOfRender(rows: seq<Row>, target: string)
    requires forall r :: r in rows ==> LegalRow(r)
    ensures SnapshotsAfter(Render(rows), target) == Watchdogs(AfterFirst(Names(rows), target))
  {
    RenderedLinesAreShort(rows);
    ParsersAgree(Render(rows), target);
    ParseOfRender(rows);
  }

  // ---- sort.Strings ----

  predicate Before(a: string, b: string)
    decreases a
  {
    a == "" || (b != "" && (a[0] < b[0] || (a[0] == b[0] && Before(a[1..], b[1..]))))
  }

  function Insert(name: string, names: seq<string>): seq<string>
    decreases names
  {
    if names == [] || Before(name, names[0]) then [name] + names else [names[0]] + Insert(name, names[1..])
  }

  function Sorted(names: seq<string>): seq<string>
    decreases names
  {
    if names == [] then [] else Insert(names[0], Sorted(names[1..]))
  }

  lemma {:induction false} InsertKeeps(name: string, names: seq<string>)
    ensures multiset(Insert(name, names)) == multiset(names) + multiset{name}
    decreases names
  {
    if names != [] && !Before(name, names[0]) {
      HeadTail(names);
      InsertKeeps(name, names[1..]);
    }
  }

  lemma {:induction false} SortedKeeps(names: seq<string>)
    ensures multiset(Sorted(names)) == multiset(names)
    decreases names
  {
    if names != [] {
      HeadTail(names);
      SortedKeeps(names[1..]);
      InsertKeeps(names[0], Sorted(names[1..]));
    }
  }

  // Byte order: one name is a prefix of the other, or the first character in which
  // they differ decides.
  lemma {:induction false} BeforeMeans(a: string, b: string)
    ensures Before(a, b) <==> a <= b || exists i: nat :: DiffersAt(a, b, i)
    decreases a
  {
    if a != "" && b != "" {
      HeadTail(a);
      HeadTail(b);
      if a[0] == b[0] {
        BeforeMeans(a[1..], b[1..]);
        if exists i: nat :: DiffersAt(a[1..], b[1..], i) {
          var i: nat :| DiffersAt(a[1..], b[1..], i);
          assert a[..i + 1] == [a[0]] + a[1..][..i] && b[..i + 1] == [b[0]] + b[1..][..i];
          assert DiffersAt(a, b, i + 1);
        }
        if exists i: nat :: DiffersAt(a, b, i) {
          var i: nat :| DiffersAt(a, b, i);
          assert i > 0 && a[1..][..i - 1] == a[..i][1..] && b[1..][..i - 1] == b[..i][1..];
          assert DiffersAt(a[1..], b[1..], i - 1);
        }
        assert a <= b <==> a[1..] <= b[1..];
      } else {
        assert a[0] < b[0] ==> DiffersAt(a, b, 0);
        assert forall i: nat :: 0 < i < |a| && i < |b| ==> a[..i][0] == a[0] && b[..i][0] == b[0];
      }
    }
  }

  predicate DiffersAt(a: string, b: string, i: nat) {
    i < |a| && i < |b| && a[..i] == b[..i] && a[i] < b[i]
  }

  // No name stands before a smaller one.
  predicate InOrder(names: seq<string>)
    decreases names
  {
    |names| < 2 || (Before(names[0], names[1]) && InOrder(names[1..]))
  }

  lemma {:induction false} BeforeIsTotal(a: string, b: string)
    ensures Before(a, b) || Before(b, a)
    decreases a
  {
    if a != "" && b != "" && a[0] == b[0] {
      BeforeIsTotal(a[1..], b[1..]);
    }
  }

  lemma {:induction false} InsertOrders(name: string, names: seq<string>)
    requires InOrder(names)
    ensures InOrder(Insert(name, names))
    decreases names
  {
    if names == [] || Before(name, names[0]) {
      assert ([name] + names)[1..] == names;
    } else {
      var rest := Insert(name, names[1..]);
      InsertOrders(name, names[1..]);
      BeforeIsTotal(name, names[0]);
      assert ([names[0]] + rest)[1..] == rest;
    }
  }

  lemma {:induction false} SortedOrders(names: seq<string>)
    ensures InOrder(Sorted(names))
    decreases names
  {
    if names != [] {
      SortedOrders(names[1..]);
      InsertOrders(names[0], Sorted(names[1..]));
    }
  }
}
