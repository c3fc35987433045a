// Classifying a world-state save, inserting its missing time row, and counting line differences.
module SaveMigration {
  import opened U64
  import opened Text

  // ---- lines ----

  // Each piece loses one trailing CR; empty lines are dropped.
  function Kept(pieces: seq<string>): seq<string> {
    if pieces == [] then []
    else
      var line := StripCr(pieces[0]);
      (if line == [] then [] else [line]) + Kept(pieces[1..])
  }

  function SplitLines(content: string): seq<string> {
    Kept(Split(content, LF))
  }

  lemma {:induction false} KeptConcat(a: seq<string>, b: seq<string>)
    ensures Kept(a + b) == Kept(a) + Kept(b)
  {
    if a == [] {
      assert a + b == b;
    } else {
      assert (a + b)[1..] == a[1..] + b;
      KeptConcat(a[1..], b);
    }
  }

  lemma NothingKept()
    ensures Kept([]) == []
  {
  }

  lemma KeptOne(piece: string)
    ensures Kept([piece]) == if StripCr(piece) == [] then [] else [StripCr(piece)]
  {
    assert [piece][1..] == [];
  }

  method SplitContent(content: string) returns (lines: seq<string>)
    ensures lines == SplitLines(content)
  {
    NothingKept();
    hide Kept, Split, StripCr;
    lines := [];
    var start := 0;
    assert content[0..] == content;
    while start <= |content|
      invariant start <= |content|
      invariant SplitLines(content) == lines + Kept(Split(content[start..], LF))
    {
      var piece, next := NextPiece(content, LF, start);
      KeptOne(piece);
      KeptConcat([piece], if next == None then [] else Split(content[next.value..], LF));
      var line := StripCr(piece);
      if line != [] { lines := lines + [line]; }
      if next == None { break; }
      start := next.value;
    }
  }

  method JoinLines(lines: seq<string>) returns (output: string)
    ensures output == Terminated(lines)
  {
    output := [];
    assert lines[..0] == [];
    for i := 0 to |lines|
      invariant output == Terminated(lines[..i])
    {
      assert lines[..i + 1] == lines[..i] + [lines[i]];
      assert [lines[i]][1..] == [];
      TerminatedConcat(lines[..i], [lines[i]]);
      output := output + lines[i];
      output := output + [LF];
    }
    assert lines[..|lines|] == lines;
  }

  predicate EndsInCr(line: string) { line != [] && line[|line| - 1] == CR }

  predicate NoneEndsInCr(lines: seq<string>) { forall i :: 0 <= i < |lines| ==> !EndsInCr(lines[i]) }

  predicate PlainLines(lines: seq<string>) {
    forall i :: 0 <= i < |lines| ==> lines[i] != [] && Free(lines[i], LF)
  }

  lemma {:induction false} KeptIsPlain(pieces: seq<string>)
    requires AllFree(pieces, LF)
    ensures PlainLines(Kept(pieces))
  {
    if pieces != [] {
      KeptIsPlain(pieces[1..]);
    }
  }

  lemma SplitLinesIsPlain(content: string)
    ensures PlainLines(SplitLines(content))
  {
    JoinSplit(content, LF);
    KeptIsPlain(Split(content, LF));
  }

  lemma SplitJoined(lines: seq<string>)
    requires PlainLines(lines)
    ensures SplitLines(Terminated(lines)) == Kept(lines)
  {
    SplitTerminated(lines);
    var blank: seq<string> := [[]];
    assert blank[1..] == [] && Kept(blank) == [];
    KeptConcat(lines, blank);
  }

  // Printed lines are stable under reading unless one still ends in CR; then text is lost.
  lemma {:induction false} KeptKeepsLines(lines: seq<string>)
    requires PlainLines(lines)
    ensures NoneEndsInCr(lines) ==> Kept(lines) == lines
    ensures !NoneEndsInCr(lines) ==> |Terminated(Kept(lines))| < |Terminated(lines)|
    ensures |Terminated(Kept(lines))| <= |Terminated(lines)|
  {
    if lines != [] {
      KeptKeepsLines(lines[1..]);
      var line := StripCr(lines[0]);
      if line != [] {
        assert Kept(lines)[1..] == Kept(lines[1..]);
      } else {
        assert Kept(lines) == Kept(lines[1..]);
      }
      if EndsInCr(lines[0]) {
        assert |line| < |lines[0]|;
      } else if !NoneEndsInCr(lines) {
        var i :| 0 <= i < |lines| && EndsInCr(lines[i]);
        assert lines[1..][i - 1] == lines[i];
      } else {
        assert lines == [lines[0]] + lines[1..];
      }
    }
  }

  // ---- classification ----

  const FORMAT_ID := "CLC_SIM_WORLD_STATE"
  const FORMAT_VERSION: u32 := 1

  function Fields(line: string): (f: seq<string>)
    ensures |f| > 0
  {
    Split(line, TAB)
  }

  function Tag(line: string): string { Fields(line)[0] }

  predicate HasTag(lines: seq<string>, tag: string) {
    exists i :: 0 <= i < |lines| && Tag(lines[i]) == tag
  }

  // A row of the older width, without tick fields.
  predicate HasLegacy(lines: seq<string>, tag: string, width: nat) {
    exists i :: 0 <= i < |lines| && Tag(lines[i]) == tag && |Fields(lines[i])| == width
  }

  predicate HeaderPresent(lines: seq<string>) {
    lines != [] && |Fields(lines[0])| == 2 && Tag(lines[0]) == FORMAT_ID
  }

  function ParseU32(s: string): Option<u32> {
    if s != [] && AllDigits(s) && Value(s) <= U32_MAX then Some(Value(s)) else None
  }

  method ParseUint32(value: string) returns (output: Option<u32>)
    ensures output == ParseU32(value)
  {
    if value == [] { return None; }
    var parsed: u64 := 0;
    for i := 0 to |value|
      invariant AllDigits(value[..i])
      invariant parsed == Value(value[..i]) <= U32_MAX
    {
      var c := value[i];
      if c < '0' || c > '9' { return None; }
      var prefix := value[..i + 1];
      assert prefix[..i] == value[..i] && AllDigits(prefix);
      parsed := parsed * 10 + Digit(c);
      if parsed > U32_MAX {
        if AllDigits(value) { PrefixValue(value, i + 1); }
        return None;
      }
    }
    assert value[..|value|] == value;
    return Some(parsed);
  }

  // The header's version; 0 when there is no header or it is unreadable.
  function Version(lines: seq<string>): u32 {
    if HeaderPresent(lines) && ParseU32(Fields(lines[0])[1]).Some? then ParseU32(Fields(lines[0])[1]).value else 0
  }

  datatype Compatibility = Current | MigratableLegacy | Unsupported

  datatype Review = Review(
    version: u32, compatibility: Compatibility, headerPresent: bool, hasTimeRow: bool,
    legacyRoutes: bool, legacyCaravans: bool, legacyContracts: bool,
    lineCount: nat, errors: nat, warnings: nat)
  {
    predicate Loadable() { compatibility.Current? || compatibility.MigratableLegacy? }
    predicate LegacyRows() { legacyRoutes || legacyCaravans || legacyContracts }
  }

  predicate Supported(lines: seq<string>) {
    HeaderPresent(lines) && Version(lines) == FORMAT_VERSION
  }

  // An unreadable version counts twice: once as such, once as an unsupported version zero.
  function ReviewErrors(lines: seq<string>): nat {
    if lines == [] then 0
    else if !HeaderPresent(lines) then 1
    else (if ParseU32(Fields(lines[0])[1]) == None then 1 else 0) + (if Version(lines) != FORMAT_VERSION then 1 else 0)
  }

  predicate HasLegacyRows(lines: seq<string>) {
    HasLegacy(lines, "route", 6) || HasLegacy(lines, "caravan", 8) || HasLegacy(lines, "contract", 10)
  }

  function ReviewWarnings(lines: seq<string>): nat {
    if !Supported(lines) then 0
    else (if HasTag(lines, "time") then 0 else 1) + (if HasLegacyRows(lines) then 1 else 0)
  }

  ghost predicate Reviews(r: Review, lines: seq<string>) {
    && r.headerPresent == HeaderPresent(lines)
    && r.version == Version(lines)
    && r.lineCount == |lines|
    && r.hasTimeRow == HasTag(lines, "time")
    && r.legacyRoutes == HasLegacy(lines, "route", 6)
    && r.legacyCaravans == HasLegacy(lines, "caravan", 8)
    && r.legacyContracts == HasLegacy(lines, "contract", 10)
    && (r.Loadable() <==> Supported(lines))
    && (r.compatibility.Current? <==> Supported(lines) && r.hasTimeRow && !r.LegacyRows())
    && r.errors == ReviewErrors(lines) && r.warnings == ReviewWarnings(lines)
  }

  lemma TagStep(lines: seq<string>, i: nat, tag: string)
    requires i < |lines|
    ensures HasTag(lines[..i + 1], tag) <==> HasTag(lines[..i], tag) || Tag(lines[i]) == tag
  {
    var a, b := lines[..i], lines[..i + 1];
    assert b[i] == lines[i] && forall k :: 0 <= k < i ==> a[k] == b[k];
  }

  lemma LegacyStep(lines: seq<string>, i: nat, tag: string, width: nat)
    requires i < |lines|
    ensures HasLegacy(lines[..i + 1], tag, width)
            <==> HasLegacy(lines[..i], tag, width) || (Tag(lines[i]) == tag && |Fields(lines[i])| == width)
  {
    var a, b := lines[..i], lines[..i + 1];
    assert b[i] == lines[i] && forall k :: 0 <= k < i ==> a[k] == b[k];
  }

  method ReviewHeader(lines: seq<string>) returns (present: bool, version: u32, errors: nat)
    ensures present == HeaderPresent(lines) && version == Version(lines)
    ensures lines != [] && (!present || ParseU32(Fields(lines[0])[1]) == None) ==> errors == 1
    ensures lines == [] || (present && ParseU32(Fields(lines[0])[1]).Some?) ==> errors == 0
  {
    present, version, errors := false, 0, 0;
    if lines == [] { return; }
    var fields := SplitTabLine(lines[0]);
    if |fields| == 2 && fields[0] == FORMAT_ID {
      present := true;
      var parsed := ParseUint32(fields[1]);
      if parsed == None { errors := 1; } else { version := parsed.value; }
    } else {
      errors := 1;
    }
  }

  method ReviewRows(lines: seq<string>) returns (time: bool, routes: bool, caravans: bool, contracts: bool)
    ensures time == HasTag(lines, "time")
    ensures routes == HasLegacy(lines, "route", 6)
    ensures caravans == HasLegacy(lines, "caravan", 8)
    ensures contracts == HasLegacy(lines, "contract", 10)
  {
    time, routes, caravans, contracts := false, false, false, false;
    for index := 0 to |lines|
      invariant time == HasTag(lines[..index], "time")
      invariant routes == HasLegacy(lines[..index], "route", 6)
      invariant caravans == HasLegacy(lines[..index], "caravan", 8)
      invariant contracts == HasLegacy(lines[..index], "contract", 10)
    {
      var fields := SplitTabLine(lines[index]);
      TagStep(lines, index, "time");
      LegacyStep(lines, index, "route", 6);
      LegacyStep(lines, index, "caravan", 8);
      LegacyStep(lines, index, "contract", 10);
      if fields[0] == "time" {
        time := true;
      } else if fields[0] == "route" && |fields| == 6 {
        routes := true;
      } else if fields[0] == "caravan" && |fields| == 8 {
        caravans := true;
      } else if fields[0] == "contract" && |fields| == 10 {
        contracts := true;
      }
    }
    assert lines[..|lines|] == lines;
  }

  method ReviewSaveFormat(content: string) returns (r: Review)
    ensures Reviews(r, SplitLines(content))
  {
    var lines := SplitContent(content);
    var present, version, errors := ReviewHeader(lines);
    var time, routes, caravans, contracts := ReviewRows(lines);
    r := Review(version, Unsupported, present, time, routes, caravans, contracts, |lines|, errors, 0);
    if !present {
      r := r.(compatibility := Unsupported);
    } else if version != FORMAT_VERSION {
      r := r.(compatibility := Unsupported, errors := errors + 1);
    } else if time && !r.LegacyRows() {
      r := r.(compatibility := Current);
    } else {
      r := r.(compatibility := MigratableLegacy);
      if !time { r := r.(warnings := r.warnings + 1); }
      if r.LegacyRows() { r := r.(warnings := r.warnings + 1); }
    }
  }

  // ---- migration ----

  // The first readable `day` row; its value sets the clock of the new row.
  function SaveDay(lines: seq<string>): Option<u64> {
    if lines == [] then None
    else
      var f := Fields(lines[0]);
      if |f| == 2 && f[0] == "day" && ParseU64(f[1]).Some? then ParseU64(f[1]) else SaveDay(lines[1..])
  }

  // Just after the first row tagged `day`; the very front when there is none.
  function InsertPosition(lines: seq<string>): (p: nat)
    ensures p <= |lines|
    ensures p > 0 <==> HasTag(lines, "day")
    ensures p > 0 ==> Tag(lines[p - 1]) == "day" && forall i :: 0 <= i < p - 1 ==> Tag(lines[i]) != "day"
  {
    if lines == [] then 0
    else if Tag(lines[0]) == "day" then 1
    else
      var p := InsertPosition(lines[1..]);
      assert p > 0 ==> lines[1..][p - 1] == lines[p];
      assert HasTag(lines, "day") ==> HasTag(lines[1..], "day") by {
        if i :| 0 <= i < |lines| && Tag(lines[i]) == "day" { assert lines[1..][i - 1] == lines[i]; }
      }
      assert forall i :: 0 <= i < |lines[1..]| ==> lines[1..][i] == lines[i + 1];
      if p == 0 then 0 else p + 1
  }

  function TimeRow(lines: seq<string>): string {
    "time\t" + Dec(match SaveDay(lines) case Some(day) => DaysToTicks(day) case None => 0)
  }

  function MigratedLines(lines: seq<string>): seq<string> {
    if HasTag(lines, "time") then lines
    else var p := InsertPosition(lines); lines[..p] + [TimeRow(lines)] + lines[p..]
  }

  function MigratedContent(content: string): string {
    var lines := SplitLines(content);
    if Supported(lines) then Terminated(MigratedLines(lines)) else content
  }

  datatype Migration = Migration(
    content: string, before: Review, after: Review, insertedTimeRows: nat, legacyRowGroups: nat, errors: nat)
  {
    predicate Ok() { errors == 0 && after.Loadable() }
  }

  method FindDay(lines: seq<string>) returns (day: u64, hasDay: bool)
    ensures SaveDay(lines) == if hasDay then Some(day) else None
  {
    day, hasDay := 0, false;
    var i := 0;
    assert lines[0..] == lines;
    while i < |lines|
      invariant i <= |lines|
      invariant SaveDay(lines) == SaveDay(lines[i..])
    {
      var fields := SplitTabLine(lines[i]);
      assert lines[i..][1..] == lines[i + 1..];
      if |fields| == 2 && fields[0] == "day" {
        var parsed := ParseUint64(fields[1]);
        if parsed != None { return parsed.value, true; }
      }
      i := i + 1;
    }
  }

  method FindInsertPosition(lines: seq<string>) returns (position: nat)
    ensures position == InsertPosition(lines)
  {
    var j := 0;
    while j < |lines|
      invariant j <= |lines|
      invariant forall i :: 0 <= i < j ==> Tag(lines[i]) != "day"
    {
      var fields := SplitTabLine(lines[j]);
      if fields[0] == "day" { return j + 1; }
      j := j + 1;
    }
    return 0;
  }

  lemma SuccessExactly(content: string)
    ensures var lines := SplitLines(content);
      && (Supported(SplitLines(MigratedContent(content)))
          == (Supported(lines) && (HasTag(lines, "time") || HasTag(lines, "day"))))
  {
    if Supported(SplitLines(content)) { MigrationSucceedsExactly(content); }
  }

  // The migrated text of a supported save, spelled out.
  lemma MigratedBy(content: string)
    ensures var lines := SplitLines(content); var p := InsertPosition(lines);
      && (!Supported(lines) ==> MigratedContent(content) == content)
      && (Supported(lines) && HasTag(lines, "time") ==> MigratedContent(content) == Terminated(lines))
      && (Supported(lines) && !HasTag(lines, "time") ==>
          MigratedContent(content) == Terminated(lines[..p] + [TimeRow(lines)] + lines[p..]))
  {
  }

  function LegacyGroups(r: Review): nat {
    (if r.legacyRoutes then 1 else 0) + (if r.legacyCaravans then 1 else 0) + (if r.legacyContracts then 1 else 0)
  }

  method CountLegacyGroups(review: Review) returns (groups: nat)
    ensures groups == LegacyGroups(review)
  {
    groups := 0;
    if review.legacyRoutes { groups := groups + 1; }
    if review.legacyCaravans { groups := groups + 1; }
    if review.legacyContracts { groups := groups + 1; }
  }

  method MigrateContent(content: string) returns (m: Migration)
    ensures m.content == MigratedContent(content)
    ensures Reviews(m.before, SplitLines(content)) && Reviews(m.after, SplitLines(m.content))
    ensures m.errors == if m.before.Loadable() && m.after.Loadable() then 0 else 1
    ensures m.insertedTimeRows == if m.before.Loadable() && !m.before.hasTimeRow then 1 else 0
    ensures m.legacyRowGroups == if m.before.Loadable() then LegacyGroups(m.before) else 0
    ensures m.Ok() <==> var lines := SplitLines(content);
                        Supported(lines) && (HasTag(lines, "time") || HasTag(lines, "day"))
  {
    hide SplitLines, Supported, HasLegacy, MigratedLines, Dec, DaysToTicks, Terminated, InsertPosition, SaveDay,
         HasTag, Reviews, LegacyGroups;
    SuccessExactly(content);
    MigratedBy(content);
    var before := ReviewSaveFormat(content);
    m := Migration(content, before, before, 0, 0, 0);
    if !before.Loadable() {
      m := m.(errors := 1);
      return;
    }
    var lines := SplitContent(content);
    var day, hasDay := FindDay(lines);
    if !before.hasTimeRow {
      var tick := if hasDay then DaysToTicks(day) else 0;
      var position := FindInsertPosition(lines);
      lines := lines[..position] + ["time\t" + Dec(tick)] + lines[position..];
      m := m.(insertedTimeRows := m.insertedTimeRows + 1);
    }
    var groups := CountLegacyGroups(before);
    m := m.(legacyRowGroups := groups);
    var joined := JoinLines(lines);
    var after := ReviewSaveFormat(joined);
    m := m.(content := joined, after := after);
    if !after.Loadable() { m := m.(errors := m.errors + 1); }
  }

  // ---- what migration does to a save ----

  lemma {:induction false} SplitSnocFirst(s: string, c: char)
    requires c != TAB
    ensures |Fields(s + [c])| == |Fields(s)|
    ensures |Fields(s)| > 1 ==> Tag(s + [c]) == Tag(s)
  {
    if s == [] {
      assert [c][1..] == [] && s + [c] == [c];
    } else {
      assert (s + [c])[1..] == s[1..] + [c];
      SplitSnocFirst(s[1..], c);
    }
  }

  // Dropping a trailing CR leaves the tag of a row alone, provided the tag itself does not end in CR.
  lemma StripKeepsTag(line: string)
    requires !EndsInCr(Tag(line))
    ensures Tag(StripCr(line)) == Tag(line)
  {
    if EndsInCr(line) {
      var s := StripCr(line);
      assert line == s + [CR];
      SplitSnocFirst(s, CR);
      JoinSplit(line, TAB);
    }
  }

  lemma SupportedHeader(lines: seq<string>)
    requires Supported(lines)
    ensures !EndsInCr(lines[0]) && lines[0] != [] && Tag(lines[0]) == FORMAT_ID
  {
    var f := Fields(lines[0]);
    JoinSplit(lines[0], TAB);
    assert f == [f[0], f[1]];
    assert f[1..] == [f[1]];
    assert lines[0] == f[0] + [TAB] + f[1];
    assert IsDigit(f[1][|f[1]| - 1]);
    assert lines[0][|lines[0]| - 1] == f[1][|f[1]| - 1];
  }

  lemma TimeRowTag(lines: seq<string>)
    ensures Tag(TimeRow(lines)) == "time" && !EndsInCr(TimeRow(lines)) && Free(TimeRow(lines), LF)
    ensures TimeRow(lines) != []
  {
    var digits := TimeRow(lines)[5..];
    assert TimeRow(lines) == "time" + [TAB] + digits;
    assert AllDigits(digits) && digits != [];
    SplitPrepend("time", TAB, digits);
    assert IsDigit(digits[|digits| - 1]);
  }

  lemma {:induction false} KeptHasTag(lines: seq<string>, tag: string)
    requires tag != [] && !EndsInCr(tag) && HasTag(lines, tag)
    ensures HasTag(Kept(lines), tag)
  {
    if Tag(lines[0]) == tag {
      StripKeepsTag(lines[0]);
      var line := StripCr(lines[0]);
      assert line != [];
      assert Kept(lines)[0] == line;
    } else {
      var i :| 0 <= i < |lines| && Tag(lines[i]) == tag;
      assert lines[1..][i - 1] == lines[i];
      KeptHasTag(lines[1..], tag);
      var k :| 0 <= k < |Kept(lines[1..])| && Tag(Kept(lines[1..])[k]) == tag;
      var d := |Kept(lines)| - |Kept(lines[1..])|;
      assert Kept(lines)[k + d] == Kept(lines[1..])[k];
    }
  }

  lemma MigratedLinesArePlain(lines: seq<string>)
    requires PlainLines(lines)
    ensures PlainLines(MigratedLines(lines))
  {
    TimeRowTag(lines);
  }

  // For a supported save the result can be loaded, and holds a time row, exactly when
  // the save has a time row or a row tagged `day` to put one after.
  lemma MigrationSucceedsExactly(content: string)
    requires Supported(SplitLines(content))
    ensures var lines := SplitLines(content); var after := SplitLines(MigratedContent(content));
            && (Supported(after) <==> HasTag(lines, "time") || HasTag(lines, "day"))
            && (Supported(after) ==> HasTag(after, "time"))
  {
    hide Split, Terminated, Dec, DaysToTicks, SaveDay;
    var lines := SplitLines(content);
    var moved := MigratedLines(lines);
    SplitLinesIsPlain(content);
    MigratedLinesArePlain(lines);
    SplitJoined(moved);
    SupportedHeader(lines);
    TimeRowTag(lines);
    var p := InsertPosition(lines);
    if HasTag(lines, "time") || HasTag(lines, "day") {
      assert moved[0] == lines[0];
      assert Kept(moved)[0] == lines[0];
      if !HasTag(lines, "time") { assert moved[p] == TimeRow(lines); }
      KeptHasTag(moved, "time");
    } else {
      assert moved[0] == TimeRow(lines);
      assert StripCr(moved[0]) == moved[0];
      assert Kept(moved)[0] == TimeRow(lines);
    }
  }

  lemma InsertedAt(lines: seq<string>, p: nat, row: string)
    requires p <= |lines|
    ensures var moved := lines[..p] + [row] + lines[p..];
            moved[p] == row && moved[..p] + moved[p + 1..] == lines && (p > 0 ==> moved[p - 1] == lines[p - 1])
  {
  }

  // Nothing is lost or reordered: without the inserted row the lines are the original ones.
  lemma MigrationKeepsLines(lines: seq<string>)
    ensures var moved := MigratedLines(lines); var p := InsertPosition(lines);
            if HasTag(lines, "time") then moved == lines
            else |moved| == |lines| + 1 && Tag(moved[p]) == "time" && moved[..p] + moved[p + 1..] == lines
                 && (HasTag(lines, "day") ==> p > 0 && Tag(moved[p - 1]) == "day")
  {
    TimeRowTag(lines);
    var p := InsertPosition(lines);
    var moved := MigratedLines(lines);
    if !HasTag(lines, "time") {
      InsertedAt(lines, p, TimeRow(lines));
    }
  }

  // ---- the migrated text, told from the lines ----

  // A save that can be loaded begins with a row of two fields: the format's name and the number one.
  lemma SupportedExactly(lines: seq<string>)
    ensures Supported(lines) <==>
      && lines != []
      && var f := Split(lines[0], TAB);
        && |f| == 2 && f[0] == "CLC_SIM_WORLD_STATE"
        && f[1] != [] && AllDigits(f[1]) && Value(f[1]) == 1
  {
  }

  ghost predicate HasRow(lines: seq<string>, tag: string, width: nat) {
    exists i :: 0 <= i < |lines| && Split(lines[i], TAB)[0] == tag && |Split(lines[i], TAB)| == width
  }

  // What a review counts: a header that is missing or unsupported, once more if its version is no number of
  // 32 bits; a missing time row, and rows of the older widths, in a save that can be loaded.
  lemma ReviewCountsExactly(lines: seq<string>, r: Review)
    requires Reviews(r, lines)
    ensures lines == [] ==> r.errors == 0
    ensures lines != [] ==> var f := Split(lines[0], TAB);
      r.errors ==
        if |f| != 2 || f[0] != "CLC_SIM_WORLD_STATE" then 1
        else if f[1] == "" || !AllDigits(f[1]) || Value(f[1]) > U32_MAX then 2
        else if Value(f[1]) != 1 then 1
        else 0
    ensures r.warnings ==
      if !Supported(lines) then 0
      else
        (if exists i :: 0 <= i < |lines| && Split(lines[i], TAB)[0] == "time" then 0 else 1)
        + (if HasRow(lines, "route", 6) || HasRow(lines, "caravan", 8) || HasRow(lines, "contract", 10) then 1 else 0)
    ensures LegacyGroups(r) ==
      (if HasRow(lines, "route", 6) then 1 else 0) + (if HasRow(lines, "caravan", 8) then 1 else 0)
      + (if HasRow(lines, "contract", 10) then 1 else 0)
  {
    hide Split;
  }

  // A row of two fields, `day` and a number of 64 bits.
  predicate DayRow(line: string, n: nat) {
    var f := Split(line, TAB);
    |f| == 2 && f[0] == "day" && f[1] != [] && AllDigits(f[1]) && Value(f[1]) == n && n <= U64_MAX
  }

  ghost predicate NoDayRow(line: string) { forall n: nat :: !DayRow(line, n) }

  // The number in the first such row, or 0 when there is none.
  ghost predicate FirstDay(lines: seq<string>, d: nat) {
    || (exists i :: 0 <= i < |lines| && DayRow(lines[i], d) && forall j :: 0 <= j < i ==> NoDayRow(lines[j]))
    || (d == 0 && forall j :: 0 <= j < |lines| ==> NoDayRow(lines[j]))
  }

  lemma {:induction false} SaveDayIsFirst(lines: seq<string>)
    ensures FirstDay(lines, match SaveDay(lines) case Some(day) => day case None => 0)
    ensures SaveDay(lines) == None ==> forall j :: 0 <= j < |lines| ==> NoDayRow(lines[j])
  {
    if lines != [] {
      var d := match SaveDay(lines) case Some(day) => day case None => 0;
      if DayRow(lines[0], d) && ParseU64(Fields(lines[0])[1]).Some? {
      } else {
        assert NoDayRow(lines[0]);
        SaveDayIsFirst(lines[1..]);
        assert forall j :: 0 < j < |lines| ==> lines[1..][j - 1] == lines[j];
        assert forall j :: 0 <= j < |lines[1..]| ==> lines[1..][j] == lines[j + 1];
        if i :| 0 <= i < |lines[1..]| && DayRow(lines[1..][i], d)
                && forall j :: 0 <= j < i ==> NoDayRow(lines[1..][j]) {
          assert DayRow(lines[i + 1], d);
          forall j | 0 <= j < i + 1 ensures NoDayRow(lines[j]) {
            if j > 0 { assert NoDayRow(lines[1..][j - 1]); }
          }
        }
      }
    }
  }

  // No number is written with a leading zero.
  lemma {:induction false} DecIsCanonical(n: nat)
    ensures |Dec(n)| > 1 ==> Dec(n)[0] != '0'
  {
    if n >= 10 {
      DecIsCanonical(n / 10);
      assert Dec(n)[0] == Dec(n / 10)[0];
      if |Dec(n / 10)| == 1 { assert Value(Dec(n / 10)[..0]) == 0; }
    }
  }

  lemma TimeRowSplits(lines: seq<string>, d: u64, digits: string)
    requires d == match SaveDay(lines) case Some(day) => day case None => 0
    requires digits == Dec(Min(86400 * d, U64_MAX))
    ensures TimeRow(lines) == "time\t" + digits
    ensures Split("time\t" + digits, TAB) == ["time", digits]
  {
    assert "time\t" + digits == "time" + [TAB] + digits;
    SplitPrepend("time", TAB, digits);
    SplitPrepend(digits, TAB, []);
  }

  // `time` and the ticks of the day saved, as far as 64 bits go, without a leading zero.
  ghost predicate TimeRowFor(row: string, lines: seq<string>) {
    exists digits: string, d: nat ::
      && Split(row, TAB) == ["time", digits] && digits != [] && AllDigits(digits)
      && (|digits| > 1 ==> digits[0] != '0')
      && FirstDay(lines, d) && Value(digits) == Min(86400 * d, U64_MAX)
  }

  lemma TimeRowTells(lines: seq<string>)
    ensures TimeRowFor(TimeRow(lines), lines)
  {
    var d := match SaveDay(lines) case Some(day) => day case None => 0;
    var digits := Dec(Min(86400 * d, U64_MAX));
    SaveDayIsFirst(lines);
    TimeRowSplits(lines, d, digits);
    DecIsCanonical(Min(86400 * d, U64_MAX));
    hide TimeRow, Split, SaveDay, FirstDay, Value, Dec;
  }

  // Just after the first row tagged `day`, or in front when there is none.
  predicate AfterFirstDay(lines: seq<string>, p: nat) {
    && p <= |lines| && (forall i :: 0 <= i < p - 1 ==> Split(lines[i], TAB)[0] != "day")
    && if p > 0 then Split(lines[p - 1], TAB)[0] == "day"
       else forall i :: 0 <= i < |lines| ==> Split(lines[i], TAB)[0] != "day"
  }

  lemma PositionTells(lines: seq<string>)
    ensures AfterFirstDay(lines, InsertPosition(lines))
  {
    hide Split;
    if InsertPosition(lines) == 0 {
      assert !HasTag(lines, "day");
      assert forall i :: 0 <= i < |lines| ==> Tag(lines[i]) != "day";
    }
  }

  // Where a save that can be loaded lacks a time row, the text gains exactly one line, after the first row
  // tagged `day` or else in front: the time row for its lines.
  lemma MigratedTextTells(content: string) returns (p: nat, row: string)
    requires Supported(SplitLines(content))
    requires forall i :: 0 <= i < |SplitLines(content)| ==> Split(SplitLines(content)[i], TAB)[0] != "time"
    ensures AfterFirstDay(SplitLines(content), p) && TimeRowFor(row, SplitLines(content))
    ensures MigratedContent(content) == Terminated(SplitLines(content)[..p] + [row] + SplitLines(content)[p..])
  {
    var lines := SplitLines(content);
    p, row := InsertPosition(lines), TimeRow(lines);
    assert !HasTag(lines, "time");
    TimeRowTells(lines);
    PositionTells(lines);
    MigratedBy(content);
    hide TimeRow, TimeRowFor, AfterFirstDay, InsertPosition, SplitLines, Supported, HasTag, Terminated,
         MigratedContent;
  }

  predicate Idempotent(content: string) {
    MigratedContent(MigratedContent(content)) == MigratedContent(content)
  }

  // Migrating twice is migrating once, unless a save that can be migrated has a line that ended in two CRs.
  lemma MigrationIdempotentExactly(content: string)
    ensures var lines := SplitLines(content);
            Idempotent(content) <==>
            (Supported(lines) && (HasTag(lines, "time") || HasTag(lines, "day")) ==> NoneEndsInCr(lines))
  {
    var lines := SplitLines(content);
    var once := MigratedContent(content);
    SplitLinesIsPlain(content);
    if !Supported(lines) {
      assert once == content;
    } else {
      MigrationSucceedsExactly(content);
      var moved := MigratedLines(lines);
      MigratedLinesArePlain(lines);
      SplitJoined(moved);
      if Supported(SplitLines(once)) {
        assert MigratedContent(once) == Terminated(Kept(moved));
        KeptKeepsLines(moved);
        TimeRowTag(lines);
        InsertKeepsCr(lines);
      }
    }
  }

  lemma ConcatEndsInCr(a: seq<string>, b: seq<string>)
    ensures NoneEndsInCr(a + b) <==> NoneEndsInCr(a) && NoneEndsInCr(b)
  {
    assert forall i :: 0 <= i < |b| ==> b[i] == (a + b)[|a| + i];
    assert forall i :: 0 <= i < |a| ==> a[i] == (a + b)[i];
  }

  lemma InsertKeepsCr(lines: seq<string>)
    ensures NoneEndsInCr(MigratedLines(lines)) <==> NoneEndsInCr(lines)
  {
    var p, row := InsertPosition(lines), TimeRow(lines);
    TimeRowTag(lines);
    ConcatEndsInCr(lines[..p], [row]);
    ConcatEndsInCr(lines[..p] + [row], lines[p..]);
    ConcatEndsInCr(lines[..p], lines[p..]);
    assert lines[..p] + lines[p..] == lines;
  }

  function TwoFields(a: string, b: string): string { a + [TAB] + b }

  lemma TwoFieldsSplit(a: string, b: string)
    requires Free(a, TAB) && Free(b, TAB)
    ensures Fields(TwoFields(a, b)) == [a, b]
  {
    SplitPrepend(a, TAB, b);
    SplitPrepend(b, TAB, []);
  }

  lemma KeptPair(header: string, day: string)
    requires header != [] && day != [] && Free(header, LF) && Free(day, LF) && !EndsInCr(header)
    ensures SplitLines(Terminated([header, day + [CR]])) == [header, day]
  {
    var raw := [header, day + [CR]];
    var tail: seq<string> := [day + [CR]];
    SplitJoined(raw);
    assert raw[1..] == tail && tail[1..] == [];
    assert StripCr(day + [CR]) == day && StripCr(header) == header;
    assert Kept(tail) == [day];
  }

  lemma CurrentHeader(lines: seq<string>)
    requires lines != [] && lines[0] == TwoFields(FORMAT_ID, Dec(1))
    ensures Supported(lines)
  {
    TwoFieldsSplit(FORMAT_ID, Dec(1));
  }

  lemma CrIsLost(content: string, lines: seq<string>, i: nat)
    requires SplitLines(content) == lines && Supported(lines)
    requires i < |lines| && Tag(lines[i]) == "day" && EndsInCr(lines[i])
    ensures !Idempotent(content)
  {
    MigrationSucceedsExactly(content);
    MigrationIdempotentExactly(content);
  }

  lemma ExampleRows(header: string, day: string, n: u64)
    requires header == TwoFields(FORMAT_ID, Dec(1)) && day == TwoFields("day", Dec(n) + [CR])
    ensures header != [] && Free(header, LF) && !EndsInCr(header)
    ensures day != [] && Free(day, LF) && EndsInCr(day) && Tag(day) == "day"
  {
    TwoFieldsSplit("day", Dec(n) + [CR]);
    assert header[|header| - 1] == Dec(1)[|Dec(1)| - 1];
  }

  // A save that is only a header: its time row ends up in front, and the result cannot be loaded.
  lemma HeaderOnlyMigrationFails(header: string)
    requires header == TwoFields(FORMAT_ID, Dec(1))
    ensures Supported(SplitLines(Terminated([header])))
    ensures !Supported(SplitLines(MigratedContent(Terminated([header]))))
  {
    var lines := [header];
    TwoFieldsSplit(FORMAT_ID, Dec(1));
    assert header[|header| - 1] == Dec(1)[|Dec(1)| - 1];
    SplitJoined(lines);
    assert lines[1..] == [] && StripCr(header) == header;
    assert Kept(lines) == lines;
    CurrentHeader(lines);
    assert Tag(lines[0]) == FORMAT_ID;
    assert FORMAT_ID[0] == 'C' && "time"[0] == 't' && "day"[0] == 'd';
    MigrationSucceedsExactly(Terminated(lines));
  }

  // A `day` row that ended in two CRs: the second migration drops the one the first kept.
  lemma DoubleCrIsNotIdempotent(header: string, day: string, n: u64)
    requires header == TwoFields(FORMAT_ID, Dec(1)) && day == TwoFields("day", Dec(n) + [CR])
    ensures !Idempotent(Terminated([header, day + [CR]]))
  {
    ExampleRows(header, day, n);
    CurrentHeader([header, day]);
    KeptPair(header, day);
    CrIsLost(Terminated([header, day + [CR]]), [header, day], 1);
  }
}
