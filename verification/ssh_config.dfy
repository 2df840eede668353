/** Migration of the user's ssh_config to the managed include line. */
module SshConfig {
  import opened Common

  const INCLUDE_LINE := "Include ~/.ssh/keynoxis.conf"
  const LEGACY_INCLUDE_LINE := "Include ~/.ssh/yubiagent.conf"

  // ----- the string operations of the standard library

  /** The characters with the Unicode property White_Space. */
  predicate IsWhite(c: char) {
    var n := c as int;
    || 0x9 <= n <= 0xD || n == 0x20 || n == 0x85 || n == 0xA0 || n == 0x1680 || 0x2000 <= n <= 0x200A
    || n == 0x2028 || n == 0x2029 || n == 0x202F || n == 0x205F || n == 0x3000
  }

  function TrimStart(s: string): string {
    if s != [] && IsWhite(s[0]) then TrimStart(s[1..]) else s
  }

  function TrimEnd(s: string): string {
    if s != [] && IsWhite(s[|s| - 1]) then TrimEnd(s[..|s| - 1]) else s
  }

  function Trim(s: string): string {
    TrimStart(TrimEnd(s))
  }

  /** `strip_suffix('\r')`. */
  function StripReturn(line: string): string {
    if EndsInReturn(line) then line[..|line| - 1] else line
  }

  predicate EndsInReturn(line: string) {
    line != [] && line[|line| - 1] == '\r'
  }

  predicate OneLine(line: string) {
    '\n' !in line
  }

  /** The position of the first line feed, or the length. */
  function LineEnd(s: string): (r: nat)
    ensures r <= |s| && OneLine(s[..r]) && (r < |s| ==> s[r] == '\n')
  {
    if s == [] || s[0] == '\n' then 0
    else
      var r := 1 + LineEnd(s[1..]);
      assert s[..r] == [s[0]] + s[1..][..r - 1];
      r
  }

  /** `str::lines`: only a line that ends in a line feed loses a carriage return. */
  function Lines(s: string): (r: seq<string>)
    ensures forall line | line in r :: OneLine(line)
  {
    if s == [] then []
    else
      var end := LineEnd(s);
      if end == |s| then
        assert s[..end] == s;
        [s]
      else [StripReturn(s[..end])] + Lines(s[end + 1..])
  }

  /** `join("\n")`. */
  function Join(lines: seq<string>): string {
    if lines == [] then [] else if |lines| == 1 then lines[0] else lines[0] + ['\n'] + Join(lines[1..])
  }

  /** `trim_start_matches('\n')`. */
  function DropLineFeeds(s: string): string {
    if s != [] && s[0] == '\n' then DropLineFeeds(s[1..]) else s
  }

  // ----- the migration

  predicate Managed(line: string) {
    Trim(line) == INCLUDE_LINE || Trim(line) == LEGACY_INCLUDE_LINE
  }

  function Unmanaged(): string -> bool {
    (line: string) => !Managed(line)
  }

  function IsManaged(): string -> bool {
    (line: string) => Managed(line)
  }

  /** `migrated_config`. */
  function Migrated(existing: string): string {
    var body := DropLineFeeds(Join(Filter(Lines(existing), Unmanaged())));
    if body == [] then INCLUDE_LINE + ['\n'] else INCLUDE_LINE + ['\n', '\n'] + body + ['\n']
  }

  // ----- the output line by line

  /** Every line followed by a line feed. */
  function Terminated(lines: seq<string>): string {
    if lines == [] then [] else lines[0] + ['\n'] + Terminated(lines[1..])
  }

  function DropEmpty(lines: seq<string>): seq<string> {
    if lines != [] && lines[0] == [] then DropEmpty(lines[1..]) else lines
  }

  function StripAll(lines: seq<string>): (r: seq<string>)
    ensures |r| == |lines|
    ensures forall i | 0 <= i < |lines| :: r[i] == StripReturn(lines[i])
  {
    if lines == [] then [] else [StripReturn(lines[0])] + StripAll(lines[1..])
  }

  /** The user's own lines: neither include line, and without the empty lines in front. */
  function UserLines(existing: string): seq<string> {
    DropEmpty(Filter(Lines(existing), Unmanaged()))
  }

  /** An empty line separates the include line from the user's. */
  function Layout(lines: seq<string>): seq<string> {
    if lines == [] then [INCLUDE_LINE] else [INCLUDE_LINE, []] + lines
  }

  ghost predicate AllOneLine(lines: seq<string>) {
    forall line | line in lines :: OneLine(line)
  }

  lemma {:induction false} JoinTerminated(lines: seq<string>)
    requires lines != []
    ensures Join(lines) + ['\n'] == Terminated(lines)
  {
    if |lines| == 1 {
      assert Terminated(lines[1..]) == [];
    } else {
      JoinTerminated(lines[1..]);
      assert Join(lines) + ['\n'] == lines[0] + ['\n'] + (Join(lines[1..]) + ['\n']);
    }
  }

  lemma {:induction false} JoinDropped(lines: seq<string>)
    requires AllOneLine(lines)
    ensures DropLineFeeds(Join(lines)) == Join(DropEmpty(lines))
    ensures Join(DropEmpty(lines)) == [] <==> DropEmpty(lines) == []
  {
    if lines == [] {
    } else if lines[0] == [] {
      JoinDropped(lines[1..]);
      if |lines| > 1 { assert Join(lines)[1..] == Join(lines[1..]); }
    } else {
      assert OneLine(lines[0]) && lines[0][0] in lines[0];
      assert Join(lines)[0] == lines[0][0];
    }
  }

  lemma {:induction false} LinesTerminated(lines: seq<string>)
    requires AllOneLine(lines)
    ensures Lines(Terminated(lines)) == StripAll(lines)
  {
    if lines != [] {
      var s := Terminated(lines);
      assert lines[0] in lines;
      LineEndAt(lines[0], Terminated(lines[1..]));
      assert s == lines[0] + (['\n'] + Terminated(lines[1..]));
      assert s[..|lines[0]|] == lines[0] && s[|lines[0]| + 1..] == Terminated(lines[1..]);
      LinesTerminated(lines[1..]);
    }
  }

  lemma {:induction false} LineEndAt(line: string, rest: string)
    requires OneLine(line)
    ensures LineEnd(line + (['\n'] + rest)) == |line|
  {
    if line != [] {
      assert line[0] in line;
      assert (line + (['\n'] + rest))[1..] == line[1..] + (['\n'] + rest);
      LineEndAt(line[1..], rest);
    }
  }

  lemma IncludeFacts()
    ensures OneLine(INCLUDE_LINE) && !EndsInReturn(INCLUDE_LINE) && INCLUDE_LINE != []
    ensures Managed(INCLUDE_LINE) && !Managed([])
  {
    IncludeEnds();
    IncludeOneLine();
    hide INCLUDE_LINE;
    assert TrimEnd(INCLUDE_LINE) == INCLUDE_LINE && TrimStart(INCLUDE_LINE) == INCLUDE_LINE;
    assert Trim([]) == [];
  }

  lemma IncludeEnds()
    ensures |INCLUDE_LINE| == 28 && |LEGACY_INCLUDE_LINE| == 29
    ensures INCLUDE_LINE[0] == 'I' && INCLUDE_LINE[27] == 'f'
  {
  }

  lemma IncludeOneLine()
    ensures OneLine(INCLUDE_LINE)
  {
  }

  lemma StripKeepsManaged(line: string)
    ensures Managed(StripReturn(line)) <==> Managed(line)
  {
    hide INCLUDE_LINE, LEGACY_INCLUDE_LINE;
  }

  lemma {:induction false} DropEmptyIsSuffix(lines: seq<string>)
    ensures |DropEmpty(lines)| <= |lines| && lines[|lines| - |DropEmpty(lines)|..] == DropEmpty(lines)
    ensures forall i | 0 <= i < |lines| - |DropEmpty(lines)| :: lines[i] == []
    ensures DropEmpty(lines) != [] ==> DropEmpty(lines)[0] != []
    ensures forall line | line in DropEmpty(lines) :: line in lines
    ensures forall line | line in lines && line != [] :: line in DropEmpty(lines)
  {
    if lines != [] && lines[0] == [] {
      DropEmptyIsSuffix(lines[1..]);
      assert lines == [lines[0]] + lines[1..];
    }
  }

  /** The output is the include line, and the user's lines behind an empty one, each ended by a line feed. */
  lemma MigratedLayout(existing: string)
    ensures Migrated(existing) == Terminated(Layout(UserLines(existing)))
  {
    hide INCLUDE_LINE, Lines, Filter, Managed;
    var kept, users := Filter(Lines(existing), Unmanaged()), UserLines(existing);
    JoinDropped(kept);
    LayoutText(users);
    if users != [] { JoinTerminated(users); }
  }

  lemma LayoutText(lines: seq<string>)
    ensures Terminated(Layout([])) == INCLUDE_LINE + ['\n']
    ensures lines != [] ==> Terminated(Layout(lines)) == INCLUDE_LINE + ['\n', '\n'] + Terminated(lines)
  {
    hide INCLUDE_LINE;
    assert [INCLUDE_LINE][1..] == [];
    var all := [INCLUDE_LINE, []] + lines;
    assert all[1..] == [[]] + lines && all[1..][1..] == lines;
    assert INCLUDE_LINE + ['\n'] + ([] + ['\n'] + Terminated(lines)) == INCLUDE_LINE + ['\n', '\n'] + Terminated(lines);
  }

  lemma {:induction false} StripAllKeeps(lines: seq<string>)
    ensures Filter(lines, Unmanaged()) == lines ==> Filter(StripAll(lines), Unmanaged()) == StripAll(lines)
    ensures (forall line | line in lines :: !EndsInReturn(line)) ==> StripAll(lines) == lines
  {
    hide StripReturn, Managed;
    if Filter(lines, Unmanaged()) == lines {
      forall line | line in StripAll(lines) ensures !Managed(line) {
        var i :| 0 <= i < |lines| && StripAll(lines)[i] == line;
        assert lines[i] in Filter(lines, Unmanaged());
        StripKeepsManaged(lines[i]);
      }
      FilterAll(StripAll(lines), Unmanaged());
    }
    if forall line | line in lines :: !EndsInReturn(line) {
      forall i | 0 <= i < |lines| ensures StripAll(lines)[i] == lines[i] {
        StripNothing(lines[i]);
        assert lines[i] in lines;
      }
    }
  }

  lemma StripNothing(line: string)
    ensures !EndsInReturn(line) ==> StripReturn(line) == line
  {
  }

  /** The lines of the output: the user's lines, each without one carriage return at its end. */
  lemma MigratedLines(existing: string)
    ensures Lines(Migrated(existing)) == Layout(StripAll(UserLines(existing)))
  {
    IncludeFacts();
    hide INCLUDE_LINE, Lines, Filter, Managed;
    var users := UserLines(existing);
    MigratedLayout(existing);
    DropEmptyIsSuffix(Filter(Lines(existing), Unmanaged()));
    assert AllOneLine(Layout(users));
    LinesTerminated(Layout(users));
    StripNothing(INCLUDE_LINE);
    assert StripAll(Layout(users)) == Layout(StripAll(users));
  }

  lemma UserLinesUnmanaged(existing: string)
    ensures forall line | line in StripAll(UserLines(existing)) :: !Managed(line)
  {
    hide Lines, Managed, StripReturn;
    var users := UserLines(existing);
    DropEmptyIsSuffix(Filter(Lines(existing), Unmanaged()));
    forall line | line in StripAll(users) ensures !Managed(line) {
      var i :| 0 <= i < |users| && StripAll(users)[i] == line;
      assert users[i] in Filter(Lines(existing), Unmanaged());
      StripKeepsManaged(users[i]);
    }
  }

  /** The include line is the first line of the output, and its only managed line. */
  lemma IncludeOnceAndFirst(existing: string)
    ensures Lines(Migrated(existing)) != [] && Lines(Migrated(existing))[0] == INCLUDE_LINE
    ensures Filter(Lines(Migrated(existing)), IsManaged()) == [INCLUDE_LINE]
  {
    IncludeFacts();
    MigratedLines(existing);
    UserLinesUnmanaged(existing);
    hide INCLUDE_LINE, Lines, Managed, UserLines, StripAll, Filter;
    var rest := StripAll(UserLines(existing));
    var tail := if UserLines(existing) == [] then [] else [[]] + rest;
    assert Layout(rest) == [INCLUDE_LINE] + tail;
    FilterCons(INCLUDE_LINE, tail, IsManaged());
    FilterNone(tail, IsManaged());
  }

  /** No other line of the output is an include of the current or the former file, however it is indented. */
  lemma NoOtherInclude(existing: string, i: nat)
    requires 0 < i < |Lines(Migrated(existing))|
    ensures Trim(Lines(Migrated(existing))[i]) != INCLUDE_LINE
    ensures Trim(Lines(Migrated(existing))[i]) != LEGACY_INCLUDE_LINE
  {
    IncludeFacts();
    MigratedLines(existing);
    UserLinesUnmanaged(existing);
    hide INCLUDE_LINE, LEGACY_INCLUDE_LINE, Lines, UserLines, StripAll, Trim;
    var rest := StripAll(UserLines(existing));
    assert forall j | 0 <= j < |rest| :: rest[j] in rest;
    var line := Layout(rest)[i];
    assert line == [] || line in rest;
    assert !Managed(line);
  }

  /** Every other line of the input that is not empty is in the output, without a carriage return at its end. */
  lemma OtherLinesStay(existing: string, line: string)
    requires line in Lines(existing) && line != []
    requires Trim(line) != INCLUDE_LINE && Trim(line) != LEGACY_INCLUDE_LINE
    ensures StripReturn(line) in Lines(Migrated(existing))[1..]
  {
    MigratedLines(existing);
    hide INCLUDE_LINE, LEGACY_INCLUDE_LINE, Lines, Trim, StripReturn;
    var kept, users := Filter(Lines(existing), Unmanaged()), UserLines(existing);
    assert line in kept;
    DropEmptyIsSuffix(kept);
    var i :| 0 <= i < |users| && users[i] == line;
    assert StripAll(users)[i] == StripReturn(line);
    assert Layout(StripAll(users))[i + 2] == StripReturn(line);
    assert Layout(StripAll(users))[1..][i + 1] == StripReturn(line);
  }

  /** The position of the first line that is not empty, or the length. */
  ghost predicate FirstContent(lines: seq<string>, k: nat) {
    k <= |lines| && (forall i | 0 <= i < k :: lines[i] == []) && (k < |lines| ==> lines[k] != [])
  }

  /**
   * The user's lines survive in their order: what stands behind the include line is the unmanaged lines of
   * the input from the first one that is not empty. A line loses a carriage return it ends in, if any.
   */
  lemma UserLinesSurvive(existing: string) returns (k: nat)
    ensures var kept := Filter(Lines(existing), Unmanaged());
            && FirstContent(kept, k)
            && Lines(Migrated(existing)) == Layout(StripAll(kept[k..]))
            && ((forall line | line in kept :: !EndsInReturn(line)) ==> Lines(Migrated(existing)) == Layout(kept[k..]))
  {
    hide Lines, Managed, INCLUDE_LINE, Filter;
    var kept := Filter(Lines(existing), Unmanaged());
    var users := UserLines(existing);
    DropEmptyIsSuffix(kept);
    MigratedLines(existing);
    StripAllKeeps(users);
    k := |kept| - |users|;
    assert users == kept[k..];
    assert k < |kept| ==> kept[k] == users[0];
  }

  /** What a second migration sees. */
  lemma UserLinesAgain(existing: string)
    ensures UserLines(Migrated(existing)) == DropEmpty(StripAll(UserLines(existing)))
  {
    IncludeFacts();
    MigratedLines(existing);
    UserLinesUnmanaged(existing);
    hide INCLUDE_LINE, Lines, Managed, StripAll, Filter;
    var rest := StripAll(UserLines(existing));
    var tail := if rest == [] then [] else [[]] + rest;
    assert Layout(rest) == [INCLUDE_LINE] + tail;
    FilterCons(INCLUDE_LINE, tail, Unmanaged());
    FilterAll(tail, Unmanaged());
    assert [] + tail == tail;
    if rest != [] { assert tail[1..] == rest; }
  }

  lemma {:induction false} StripShrinks(lines: seq<string>)
    ensures |Terminated(StripAll(lines))| <= |Terminated(lines)|
    ensures (exists line | line in lines :: EndsInReturn(line)) ==> |Terminated(StripAll(lines))| < |Terminated(lines)|
  {
    if lines != [] {
      StripShrinks(lines[1..]);
      assert forall line | line in lines :: line == lines[0] || line in lines[1..];
    }
  }

  lemma {:induction false} DropShrinks(lines: seq<string>)
    ensures |Terminated(DropEmpty(lines))| <= |Terminated(lines)|
  {
    if lines != [] && lines[0] == [] { DropShrinks(lines[1..]); }
  }

  /** The condition of the next lemma, on the user's lines alone. */
  lemma ReturnsAmongUserLines(existing: string)
    ensures (exists line | line in Filter(Lines(existing), Unmanaged()) :: EndsInReturn(line))
       <==> (exists line | line in UserLines(existing) :: EndsInReturn(line))
  {
    hide Lines, Managed, Filter;
    DropEmptyIsSuffix(Filter(Lines(existing), Unmanaged()));
  }

  /**
   * A second migration changes nothing exactly when no line the first one kept ends in a carriage return
   * (a line does when it had two of them, or one and no line feed).
   */
  lemma IdempotentExactly(existing: string)
    ensures Migrated(Migrated(existing)) == Migrated(existing)
       <==> forall line | line in Filter(Lines(existing), Unmanaged()) :: !EndsInReturn(line)
  {
    hide Lines, Managed, Filter, INCLUDE_LINE, Migrated;
    var users := UserLines(existing);
    MigratedLayout(existing);
    MigratedLayout(Migrated(existing));
    UserLinesAgain(existing);
    DropEmptyIsSuffix(Filter(Lines(existing), Unmanaged()));
    ReturnsAmongUserLines(existing);
    assert DropEmpty(users) == users;
    hide UserLines;
    if exists line | line in users :: EndsInReturn(line) {
      StripShrinks(users);
      DropShrinks(StripAll(users));
      LayoutText(users);
      LayoutText(UserLines(Migrated(existing)));
    } else {
      StripAllKeeps(users);
    }
  }

  /** In particular, migration is idempotent on every input without lines that end in a carriage return. */
  lemma IdempotentOnPlainLines(existing: string)
    requires forall line | line in Lines(existing) :: !EndsInReturn(line)
    ensures Migrated(Migrated(existing)) == Migrated(existing)
  {
    IdempotentExactly(existing);
    hide Lines, Managed, Migrated;
  }

  /** It is not on every input: the last line of this one keeps its carriage return once. */
  lemma NotAlwaysIdempotent()
    ensures Migrated(Migrated("a\r")) != Migrated("a\r")
  {
    IdempotentExactly("a\r");
    hide INCLUDE_LINE, LEGACY_INCLUDE_LINE;
    assert LineEnd("a\r") == 2 by { assert "a\r"[1..] == "\r"; assert "a\r"[1..][1..] == []; }
    assert Lines("a\r") == ["a\r"];
    assert EndsInReturn("a\r");
    PlainUnmanaged();
    assert "a\r" in Filter(Lines("a\r"), Unmanaged());
  }

  lemma PlainUnmanaged()
    ensures !Managed("a\r")
  {
    assert "a\r"[..1] == "a";
    assert TrimEnd("a\r") == "a";
    assert Trim("a\r") == "a";
    assert |INCLUDE_LINE| != 1 && |LEGACY_INCLUDE_LINE| != 1;
  }
}
