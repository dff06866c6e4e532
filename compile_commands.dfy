/**
 * The compile-log filter of scripts/generate_compile_commands.py: from the
 * build log's lines, keep the `g++` commands logged after `"[INFO] CMD:"`
 * that name a `.cpp` source, and turn each into a compilation-database entry.
 */
module CompileCommands {
  import opened Wrappers
  import opened Strings

  /**
   * The whitespace of `str.strip` and of the regular expression `\s`, as far
   * as this model goes: the ASCII whitespace characters and the separators
   * U+001C to U+001F.
   */
  predicate IsSpace(c: char)
  {
    c == ' ' || c == '\t' || c == '\n' || c == '\r' || c == '\U{000B}' || c == '\U{000C}' ||
    ('\U{001C}' <= c <= '\U{001F}')
  }

  /** The number of whitespace characters `s` starts with. */
  function LeadingSpaces(s: string): (n: nat)
    ensures n <= |s| && (n < |s| ==> !IsSpace(s[n]))
    ensures forall i :: 0 <= i < n ==> IsSpace(s[i])
  {
    if s == [] || !IsSpace(s[0]) then 0 else 1 + LeadingSpaces(s[1..])
  }

  /** The number of whitespace characters `s` ends with. */
  function TrailingSpaces(s: string): (n: nat)
    ensures n <= |s| && (n < |s| ==> !IsSpace(s[|s| - 1 - n]))
    ensures forall i :: |s| - n <= i < |s| ==> IsSpace(s[i])
    decreases |s|
  {
    if s == [] || !IsSpace(s[|s| - 1]) then 0 else 1 + TrailingSpaces(s[..|s| - 1])
  }

  /**
   * `str.strip`: `s` without its leading and trailing whitespace; the result
   * is the part of `s` that starts after the leading whitespace.
   */
  function Strip(s: string): (r: string)
    ensures r == [] || (!IsSpace(r[0]) && !IsSpace(r[|r| - 1]))
    ensures OccursAt(s, r, LeadingSpaces(s))
    ensures r == [] <==> forall i :: 0 <= i < |s| ==> IsSpace(s[i])
    ensures forall i :: LeadingSpaces(s) + |r| <= i < |s| ==> IsSpace(s[i])
  {
    var lead := LeadingSpaces(s);
    if lead == |s| then []
    else
      s[lead..|s| - TrailingSpaces(s)]
  }

  const MARKER := "[INFO] CMD:"

  /** An occurrence at or after `start` is an occurrence in the suffix from `start`. */
  lemma OccurrencesInSuffix(line: string, sep: string, start: nat)
    requires start <= |line|
    ensures forall k: nat :: start <= k && OccursAt(line, sep, k) ==> OccursAt(line[start..], sep, k - start)
  {
    forall k: nat | start <= k && OccursAt(line, sep, k)
      ensures OccursAt(line[start..], sep, k - start)
    {
      assert line[start..][k - start..k - start + |sep|] == line[k..k + |sep|];
    }
  }

  /** An occurrence in the suffix from `start` is an occurrence in the whole line. */
  lemma OccurrenceFromSuffix(line: string, sep: string, start: nat, j: nat)
    requires start <= |line| && OccursAt(line[start..], sep, j)
    ensures OccursAt(line, sep, start + j)
  {
    assert line[start + j..start + j + |sep|] == line[start..][j..j + |sep|];
  }

  /** An occurrence in a prefix `rest[..j]` is an occurrence in `rest` before `j`. */
  lemma OccurrencesInPrefix(rest: string, sep: string, j: nat)
    requires j <= |rest| && |sep| > 0
    ensures forall k: nat :: OccursAt(rest[..j], sep, k) ==> OccursAt(rest, sep, k) && k < j
  {
    forall k: nat | OccursAt(rest[..j], sep, k)
      ensures OccursAt(rest, sep, k) && k < j
    {
      assert rest[..j][k..k + |sep|] == rest[k..k + |sep|];
    }
  }

  /**
   * `line.split(sep)[1]`: the text between the first and the second
   * occurrence of `sep`, or up to the end of the line; `None` when `sep` does
   * not occur and there is no second field.
   */
  function SecondField(line: string, sep: string): (f: Option<string>)
    requires |sep| > 0
    ensures f.None? <==> FindSubstring(line, sep).None?
    ensures f.Some? ==> OccursAt(line, f.value, FindSubstring(line, sep).value + |sep|)
    ensures f.Some? ==> forall k: nat :: !OccursAt(f.value, sep, k)
    ensures f.Some? ==>
              var e := FindSubstring(line, sep).value + |sep| + |f.value|;
              e == |line| || OccursAt(line, sep, e)
    ensures f.Some? ==>
              var start := FindSubstring(line, sep).value + |sep|;
              forall k: nat :: start <= k < start + |f.value| ==> !OccursAt(line, sep, k)
  {
    match FindSubstring(line, sep)
    case None => None
    case Some(i) =>
      var start := i + |sep|;
      var rest := line[start..];
      OccurrencesInSuffix(line, sep, start);
      match FindSubstring(rest, sep)
      case None => Some(rest)
      case Some(j) =>
        OccurrencesInPrefix(rest, sep, j);
        OccurrenceFromSuffix(line, sep, start, j);
        Some(rest[..j])
  }

  /** The marker a kept line starts with (after stripping) also occurs in the line itself. */
  lemma MarkerInLine(line: string)
    requires StartsWith(Strip(line), MARKER)
    ensures FindSubstring(line, MARKER).Some?
  {
    var lead := LeadingSpaces(line);
    var r := Strip(line);
    assert line[lead..lead + |MARKER|] == r[..|MARKER|];
    assert OccursAt(line, MARKER, lead);
  }

  /** Where the non-whitespace run starting at `k` ends. */
  function TokenEnd(s: string, k: nat): (e: nat)
    requires k <= |s|
    ensures k <= e <= |s| && (e < |s| ==> IsSpace(s[e]))
    ensures forall m :: k <= m < e ==> !IsSpace(s[m])
    decreases |s| - k
  {
    if k == |s| || IsSpace(s[k]) then k else TokenEnd(s, k + 1)
  }

  /**
   * A match of `\s([^\s]+\.cpp)\s` at position `i` of `cmd` with group `t`:
   * whitespace, then `t` (no whitespace, at least one character before
   * `.cpp`), then whitespace.
   */
  predicate CppMatchAt(cmd: string, i: nat, t: string)
  {
    i + 1 + |t| < |cmd| && IsSpace(cmd[i]) && cmd[i + 1..i + 1 + |t|] == t &&
    |t| >= 5 && t[|t| - 4..] == ".cpp" &&
    (forall k :: 0 <= k < |t| ==> !IsSpace(t[k])) &&
    IsSpace(cmd[i + 1 + |t|])
  }

  /** At a whitespace position, the only candidate group is the run up to the next whitespace. */
  lemma MatchIsRun(cmd: string, i: nat, t: string)
    requires i < |cmd| && CppMatchAt(cmd, i, t)
    ensures TokenEnd(cmd, i + 1) == i + 1 + |t|
  {
  }

  /**
   * `re.search`: the leftmost match at or after `from`, as its position and
   * group; no position before it (or none at all) matches.
   */
  function FindCpp(cmd: string, from: nat): (r: Option<(nat, string)>)
    requires from <= |cmd|
    ensures r.Some? ==> from <= r.value.0 && CppMatchAt(cmd, r.value.0, r.value.1)
    ensures forall k: nat, t :: from <= k && (r.None? || k < r.value.0) ==> !CppMatchAt(cmd, k, t)
    decreases |cmd| - from
  {
    if from == |cmd| then None
    else
      var e := TokenEnd(cmd, from + 1);
      if IsSpace(cmd[from]) && e < |cmd| && e - (from + 1) >= 5 && cmd[e - 4..e] == ".cpp" then
        assert cmd[from + 1..e][e - from - 5..] == cmd[e - 4..e];
        Some((from, cmd[from + 1..e]))
      else
        assert forall t :: !CppMatchAt(cmd, from, t) by {
          forall t | CppMatchAt(cmd, from, t)
            ensures false
          {
            MatchIsRun(cmd, from, t);
          }
        }
        FindCpp(cmd, from + 1)
  }

  /** One entry of compile_commands.json. */
  datatype Entry = Entry(directory: string, command: string, file: string)

  predicate HasSuffix(s: string, suffix: string)
  {
    |suffix| <= |s| && s[|s| - |suffix|..] == suffix
  }

  /** The command a marked line logs: its second field, stripped. */
  function CommandOf(line: string): string
    requires StartsWith(Strip(line), MARKER)
  {
    MarkerInLine(line);
    Strip(SecondField(line, MARKER).value)
  }

  /**
   * The loop body for one line: keep a line whose stripped form starts with
   * the marker, drop `ar ` commands and anything not starting with `g++`,
   * and name the first `.cpp` group.
   */
  function ParseLine(line: string, projectDir: string): Option<Entry>
  {
    if !StartsWith(Strip(line), MARKER) then None
    else
      var cmd := CommandOf(line);
      if StartsWith(cmd, "ar ") then None
      else if !StartsWith(cmd, "g++") then None
      else
        match FindCpp(cmd, 0)
        case None => None
        case Some((_, file)) => Some(Entry(projectDir, cmd, file))
  }

  /**
   * A line yields an entry exactly when it is marked, its command starts with
   * `g++` and names a `.cpp` file; the entry holds the project directory,
   * that command, and the group of the leftmost match.
   */
  lemma ParseLineKeeps(line: string, projectDir: string)
    ensures ParseLine(line, projectDir).Some? <==>
              StartsWith(Strip(line), MARKER) && StartsWith(CommandOf(line), "g++") &&
              exists i: nat, t :: CppMatchAt(CommandOf(line), i, t)
    ensures ParseLine(line, projectDir).Some? ==>
              var e := ParseLine(line, projectDir).value;
              var i := FindCpp(e.command, 0).value.0;
              e.directory == projectDir && e.command == CommandOf(line) &&
              CppMatchAt(e.command, i, e.file) &&
              forall k: nat, t :: k < i ==> !CppMatchAt(e.command, k, t)
  {
    if StartsWith(Strip(line), MARKER) && StartsWith(CommandOf(line), "g++") {
      ArSkipSubsumed(CommandOf(line));
    }
  }

  /** A command starting with `ar ` never starts with `g++`, so the first of the two skips is subsumed. */
  lemma ArSkipSubsumed(cmd: string)
    ensures StartsWith(cmd, "ar ") ==> !StartsWith(cmd, "g++")
  {
    if StartsWith(cmd, "ar ") {
      assert cmd[0] == 'a';
    }
  }

  /** The entry a parsed line contributes: none, or one. */
  function Emit(parsed: Option<Entry>): seq<Entry>
  {
    if parsed.Some? then [parsed.value] else []
  }

  /** The entries `parse` yields for `lines`, in order. */
  function Collect(lines: seq<string>, parse: string -> Option<Entry>): (entries: seq<Entry>)
    ensures |entries| <= |lines|
    decreases |lines|
  {
    if lines == [] then []
    else Collect(lines[..|lines| - 1], parse) + Emit(parse(lines[|lines| - 1]))
  }

  /** Collecting from two parts gives the two parts' entries, in order. */
  lemma {:induction false} CollectAppend(a: seq<string>, b: seq<string>, parse: string -> Option<Entry>)
    ensures Collect(a + b, parse) == Collect(a, parse) + Collect(b, parse)
    decreases |b|
  {
    if b == [] {
      assert a + b == a;
    } else {
      var init := b[..|b| - 1];
      var last := Emit(parse(b[|b| - 1]));
      assert (a + b)[..|a + b| - 1] == a + init;
      assert (a + b)[|a + b| - 1] == b[|b| - 1];
      calc {
        Collect(a + b, parse);
        Collect(a + init, parse) + last;
        { CollectAppend(a, init, parse); }
        (Collect(a, parse) + Collect(init, parse)) + last;
        Collect(a, parse) + (Collect(init, parse) + last);
        Collect(a, parse) + Collect(b, parse);
      }
    }
  }

  function Parser(projectDir: string): string -> Option<Entry>
  {
    line => ParseLine(line, projectDir)
  }

  /** The entries for the log `lines`, in log order. */
  function Commands(lines: seq<string>, projectDir: string): seq<Entry>
  {
    Collect(lines, Parser(projectDir))
  }

  /** Processing a log in two parts gives the two parts' entries, in order. */
  lemma CommandsAppend(a: seq<string>, b: seq<string>, projectDir: string)
    ensures Commands(a + b, projectDir) == Commands(a, projectDir) + Commands(b, projectDir)
  {
    CollectAppend(a, b, Parser(projectDir));
  }

  /** Every entry `parse` yields for a line satisfies `good`, so every collected entry does. */
  lemma {:induction false} CollectAll(lines: seq<string>, parse: string -> Option<Entry>, good: Entry -> bool)
    requires forall i :: 0 <= i < |lines| && parse(lines[i]).Some? ==> good(parse(lines[i]).value)
    ensures forall j :: 0 <= j < |Collect(lines, parse)| ==> good(Collect(lines, parse)[j])
    decreases |lines|
  {
    if lines != [] {
      var init := lines[..|lines| - 1];
      assert forall i :: 0 <= i < |init| ==> init[i] == lines[i];
      CollectAll(init, parse, good);
    }
  }

  /** A compilation entry: the project directory, a `g++` command and a `.cpp` file name. */
  predicate IsCompilation(e: Entry, projectDir: string)
  {
    e.directory == projectDir && StartsWith(e.command, "g++") &&
    |e.file| >= 5 && HasSuffix(e.file, ".cpp")
  }

  /**
   * Every entry carries the project directory, a command starting with `g++`
   * and a file name ending in `.cpp` with at least one character before it.
   */
  lemma CommandsAreCompilations(lines: seq<string>, projectDir: string)
    ensures |Commands(lines, projectDir)| <= |lines|
    ensures forall j :: 0 <= j < |Commands(lines, projectDir)| ==>
              IsCompilation(Commands(lines, projectDir)[j], projectDir)
  {
    var good := e => IsCompilation(e, projectDir);
    forall i | 0 <= i < |lines| && Parser(projectDir)(lines[i]).Some?
      ensures good(Parser(projectDir)(lines[i]).value)
    {
      ParseLineKeeps(lines[i], projectDir);
    }
    CollectAll(lines, Parser(projectDir), good);
  }

  /** The loop over the log's lines, appending each entry to `compile_commands`. */
  method CollectCommands(lines: seq<string>, projectDir: string) returns (compileCommands: seq<Entry>)
    ensures compileCommands == Commands(lines, projectDir)
  {
    compileCommands := [];
    for n := 0 to |lines|
      invariant compileCommands == Commands(lines[..n], projectDir)
    {
      assert lines[..n + 1][..n] == lines[..n];
      var line := lines[n];
      if !StartsWith(Strip(line), MARKER) {
        continue;
      }
      MarkerInLine(line);
      var cmd := Strip(SecondField(line, MARKER).value);
      assert cmd == CommandOf(line);
      if StartsWith(cmd, "ar ") {
        continue;
      }
      if !StartsWith(cmd, "g++") {
        continue;
      }
      var found := FindCpp(cmd, 0);
      if found.None? {
        continue;
      }
      compileCommands := compileCommands + [Entry(projectDir, cmd, found.value.1)];
    }
    assert lines[..|lines|] == lines;
  }
}
