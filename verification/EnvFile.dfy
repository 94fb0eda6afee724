/**
 The `.env` output: rewriting it around the managed keys, the parser that reads it back, and loading it
 into an environment.
 */
module EnvFile {
  import opened Text

  const CREDENTIALS := "GOOGLE_APPLICATION_CREDENTIALS"
  const SPREADSHEET_URL := "HIKOUTEI_SYNC_SPREADSHEET_URL"
  const CREDENTIAL_POOL := "HIKOUTEI_SYNC_CREDENTIALS"

  // ---- Lines ----

  /** Every line followed by a newline. */
  function Lined(lines: seq<string>): string {
    if lines == [] then "" else lines[0] + ("\n" + Lined(lines[1..]))
  }

  predicate OneLine(s: string) {
    '\n' !in s
  }

  predicate AllOneLine(lines: seq<string>) {
    forall l :: l in lines ==> OneLine(l)
  }

  /** The lines of an existing file: a final newline adds none. */
  function LinesOf(content: string): seq<string> {
    if content == "" then []
    else
      var raw := Split(content, '\n');
      if raw[|raw| - 1] == "" then raw[..|raw| - 1] else raw
  }

  lemma {:induction false} SplitLined(lines: seq<string>)
    requires AllOneLine(lines)
    ensures Split(Lined(lines), '\n') == lines + [""]
  {
    if lines != [] {
      assert OneLine(lines[0]);
      SplitFirst(lines[0], '\n', Lined(lines[1..]));
      SplitLined(lines[1..]);
      assert [lines[0]] + (lines[1..] + [""]) == lines + [""];
    }
  }

  lemma LinesOfLined(lines: seq<string>)
    requires AllOneLine(lines)
    ensures LinesOf(Lined(lines)) == lines
  {
    SplitLined(lines);
    if lines != [] {
      assert |Lined(lines)| > 0;
    }
  }

  // ---- Parsing ----

  /** Removes one matching pair of surrounding quotes. */
  function Unquote(s: string): string {
    if |s| >= 2 && ((s[0] == '"' && s[|s| - 1] == '"') || (s[0] == '\'' && s[|s| - 1] == '\'')) then s[1..|s| - 1] else s
  }

  function IndexOf(s: string, c: char): (n: nat)
    ensures n <= |s| && c !in s[..n] && (n < |s| ==> s[n] == c)
  {
    if s == "" || s[0] == c then 0
    else
      var n := 1 + IndexOf(s[1..], c);
      assert s[..n] == [s[0]] + s[1..][..n - 1];
      n
  }

  /** The key and value of one line, or none for a blank line, a comment, or a line without a key. */
  function ParseLine(raw: string): Option<(string, string)> {
    ParseTrimmed(Trim(raw))
  }

  function ParseTrimmed(line: string): Option<(string, string)> {
    var equals := IndexOf(line, '=');
    if line == "" || line[0] == '#' || equals == 0 || equals == |line| then None
    else
      var key := Trim(line[..equals]);
      if key == "" then None else Some((key, Unquote(Trim(line[equals + 1..]))))
  }

  /** White space only. */
  predicate IsSpaces(s: string) {
    All(IsSpace, s)
  }

  lemma {:induction false} TrimRightSpaces(a: string, spaces: string)
    requires IsSpaces(spaces)
    ensures TrimRight(a + spaces) == TrimRight(a)
  {
    if spaces == "" {
      assert a + spaces == a;
    } else {
      var n := |spaces| - 1;
      assert (a + spaces)[..|a + spaces| - 1] == a + spaces[..n];
      TrimRightSpaces(a, spaces[..n]);
    }
  }

  lemma {:induction false} TrimLeftSpaces(spaces: string, a: string)
    requires IsSpaces(spaces)
    ensures TrimLeft(spaces + a) == TrimLeft(a)
  {
    if spaces == "" {
      assert spaces + a == a;
    } else {
      assert (spaces + a)[1..] == spaces[1..] + a;
      TrimLeftSpaces(spaces[1..], a);
    }
  }

  /** A line that is blank, a comment, without an equals sign, or without a key before it assigns nothing. */
  lemma NothingAssigned(spaces: string, text: string)
    requires IsSpaces(spaces)
    ensures ParseLine(spaces).None?
    ensures ParseLine(spaces + "#" + text).None? && ParseLine(spaces + "=" + text).None?
    ensures '=' !in text ==> ParseLine(text).None?
  {
    TrimRightSpaces("", spaces);
    assert "" + spaces == spaces;
    CommentTrims(spaces, "#", text);
    CommentTrims(spaces, "=", text);
    if '=' !in text {
      TrimInside(text);
    }
  }

  lemma CommentTrims(spaces: string, sign: string, text: string)
    requires IsSpaces(spaces) && |sign| == 1 && !IsSpace(sign[0])
    ensures Trim(spaces + sign + text) == sign + TrimRight(text)
  {
    hide TrimLeft, TrimRight, IsSpaces, IsSpace;
    var head, line := spaces + sign, sign + TrimRight(text);
    assert head[|head| - 1] == sign[0] && line[0] == sign[0];
    TrimRightAppend(head, text);
    assert head + TrimRight(text) == spaces + line;
    TrimLeftSpaces(spaces, line);
    TrimLeftFirst(line);
  }

  lemma TrimLeftFirst(line: string)
    requires line != "" && !IsSpace(line[0])
    ensures TrimLeft(line) == line
  {
  }

  lemma TrimInside(text: string)
    ensures forall c :: c in Trim(text) ==> c in text
  {
    TrimLeftInside(TrimRight(text));
    TrimRightInside(text);
  }

  lemma {:induction false} TrimLeftInside(s: string)
    ensures forall c :: c in TrimLeft(s) ==> c in s
  {
    if s != "" {
      TrimLeftInside(s[1..]);
    }
  }

  lemma {:induction false} TrimRightInside(s: string)
    ensures forall c :: c in TrimRight(s) ==> c in s
  {
    if s != "" {
      TrimRightInside(s[..|s| - 1]);
    }
  }

  /** Later lines over earlier ones. */
  function ParseLines(lines: seq<string>): map<string, string> {
    if lines == [] then map[]
    else
      var before := ParseLines(lines[..|lines| - 1]);
      match ParseLine(lines[|lines| - 1])
      case None => before
      case Some((key, value)) => before[key := value]
  }

  /** The pieces of a content split at `\r?\n`. */
  function Pieces(content: string): seq<string> {
    var raw := Split(content, '\n');
    seq(|raw|, i requires 0 <= i < |raw| =>
      if i < |raw| - 1 && raw[i] != "" && raw[i][|raw[i]| - 1] == '\r' then raw[i][..|raw[i]| - 1] else raw[i])
  }

  function Parse(content: string): map<string, string> {
    ParseLines(Pieces(content))
  }

  method ParseEnvFileContent(content: string) returns (parsed: map<string, string>)
    ensures parsed == Parse(content)
  {
    parsed := map[];
    var pieces := Pieces(content);
    for i := 0 to |pieces|
      invariant parsed == ParseLines(pieces[..i])
    {
      assert pieces[..i + 1][..i] == pieces[..i];
      match ParseLine(pieces[i]) {
        case None =>
        case Some((key, value)) => parsed := parsed[key := value];
      }
    }
    assert pieces[..|pieces|] == pieces;
  }

  // ---- Writing ----

  predicate StartsWith(s: string, prefix: string) {
    |prefix| <= |s| && s[..|prefix|] == prefix
  }

  predicate IsManagedLine(line: string) {
    StartsWith(line, CREDENTIALS + "=") || StartsWith(line, SPREADSHEET_URL + "=") || StartsWith(line, CREDENTIAL_POOL + "=")
  }

  function Unmanaged(lines: seq<string>): seq<string> {
    if lines == [] then []
    else Unmanaged(lines[..|lines| - 1]) + if IsManagedLine(lines[|lines| - 1]) then [] else [lines[|lines| - 1]]
  }

  /** What a setup writes: the pool only with at least two paths. */
  datatype Managed = Managed(credentialsPath: string, spreadsheetUrl: string, poolPaths: seq<string>)

  function Assignment(key: string, value: string): string {
    key + ("=" + value)
  }

  function PoolLines(m: Managed): seq<string> {
    if |m.poolPaths| >= 2 then [Assignment(CREDENTIAL_POOL, Join(m.poolPaths, ","))] else []
  }

  function ManagedLines(m: Managed): seq<string> {
    [Assignment(CREDENTIALS, m.credentialsPath), Assignment(SPREADSHEET_URL, m.spreadsheetUrl)] + PoolLines(m)
  }

  function NextLines(existing: string, m: Managed): seq<string> {
    Unmanaged(LinesOf(existing)) + ManagedLines(m)
  }

  function NextContent(existing: string, m: Managed): string {
    Join(NextLines(existing, m), "\n") + "\n"
  }

  /** Whether the file has to be written: it is new, its content changes, or its mode is wrong. */
  predicate Modified(created: bool, existing: string, mode: int, m: Managed) {
    created || NextContent(existing, m) != existing || mode != 0x180
  }

  lemma {:induction false} JoinLined(lines: seq<string>)
    requires lines != []
    ensures Join(lines, "\n") + "\n" == Lined(lines)
  {
    if |lines| > 1 {
      JoinLined(lines[1..]);
      var tail := Join(lines[1..], "\n");
      assert lines[0] + "\n" + tail + "\n" == lines[0] + ("\n" + (tail + "\n"));
    } else {
      assert Lined(lines[1..]) == "" && lines[0] + ("\n" + "") == lines[0] + "\n";
    }
  }

  /** The written values have no newline. */
  predicate SingleLine(m: Managed) {
    OneLine(m.credentialsPath) && OneLine(m.spreadsheetUrl) && OneLine(Join(m.poolPaths, ","))
  }

  /** A key: no `=`, no newline, not a comment, and nothing to trim. */
  predicate IsKey(key: string) {
    key != "" && '=' !in key && OneLine(key) && key[0] != '#' && !IsSpace(key[0]) && !IsSpace(key[|key| - 1])
  }

  lemma CredentialsIsKey()
    ensures IsKey(CREDENTIALS)
  {
  }

  lemma SpreadsheetUrlIsKey()
    ensures IsKey(SPREADSHEET_URL)
  {
  }

  lemma CredentialPoolIsKey()
    ensures IsKey(CREDENTIAL_POOL)
  {
  }

  lemma KeysDiffer()
    ensures CREDENTIALS == "GOOGLE_APPLICATION_CREDENTIALS" && SPREADSHEET_URL == "HIKOUTEI_SYNC_SPREADSHEET_URL"
    ensures CREDENTIAL_POOL == "HIKOUTEI_SYNC_CREDENTIALS"
    ensures CREDENTIALS != SPREADSHEET_URL && CREDENTIALS != CREDENTIAL_POOL && SPREADSHEET_URL != CREDENTIAL_POOL
  {
    assert CREDENTIALS[0] == 'G' && SPREADSHEET_URL[0] == 'H' && CREDENTIAL_POOL[0] == 'H';
    assert SPREADSHEET_URL[14] == 'S' && CREDENTIAL_POOL[14] == 'C';
  }

  /** An assignment of a key parses to that key and the trimmed, unquoted value. */
  lemma AssignmentParses(key: string, value: string)
    requires IsKey(key)
    ensures ParseLine(Assignment(key, value)) == Some((key, Unquote(Trim(value))))
  {
    var head := key + "=";
    assert Assignment(key, value) == head + value;
    TrimRightAppend(head, value);
    var line := head + TrimRight(value);
    assert line[0] == key[0] && Trim(head + value) == line;
    IndexOfKey(key, TrimRight(value));
    assert line[..|key|] == key && line[|key| + 1..] == TrimRight(value);
    assert Trim(key) == key;
    TrimRightTwice(value);
  }

  /** White space before a key and between it and the equals sign is no part of it. */
  lemma SpacedAssignmentParses(before: string, key: string, between: string, value: string)
    requires IsSpaces(before) && IsKey(key) && IsSpaces(between)
    ensures ParseLine(before + (key + between + "=" + value)) == Some((key, Unquote(Trim(value))))
  {
    var head := key + between + "=";
    var line := head + TrimRight(value);
    assert before + (head + value) == (before + head) + value;
    TrimRightAppend(before + head, value);
    assert before + head + TrimRight(value) == before + line;
    TrimLeftSpaces(before, line);
    assert line[0] == key[0];
    SpacesNoEquals(between);
    IndexOfKey(key + between, TrimRight(value));
    assert line[..|key + between|] == key + between && line[|key + between| + 1..] == TrimRight(value);
    TrimRightSpaces(key, between);
    assert Trim(key + between) == Trim(key) == key;
    TrimRightTwice(value);
  }

  lemma SpacesNoEquals(spaces: string)
    requires IsSpaces(spaces)
    ensures '=' !in spaces
  {
    assert forall i :: 0 <= i < |spaces| ==> IsSpace(spaces[i]);
  }

  lemma {:induction false} IndexOfKey(key: string, value: string)
    requires '=' !in key
    ensures IndexOf(key + "=" + value, '=') == |key|
    decreases |key|
  {
    var s := key + "=" + value;
    if key != "" {
      assert key[0] in key && s[0] == key[0];
      assert s[1..] == key[1..] + "=" + value;
      IndexOfKey(key[1..], value);
    }
  }

  // ---- Rewriting ----

  lemma {:induction false} UnmanagedAppend(a: seq<string>, b: seq<string>)
    ensures Unmanaged(a + b) == Unmanaged(a) + Unmanaged(b)
  {
    if b == [] {
      assert a + b == a;
    } else {
      assert (a + b)[..|a + b| - 1] == a + b[..|b| - 1];
      UnmanagedAppend(a, b[..|b| - 1]);
    }
  }

  /** The kept lines are the lines of the file that are not managed. */
  lemma {:induction false} UnmanagedLines(lines: seq<string>, line: string)
    ensures line in Unmanaged(lines) <==> line in lines && !IsManagedLine(line)
  {
    hide IsManagedLine;
    if lines != [] {
      var n := |lines| - 1;
      UnmanagedLines(lines[..n], line);
      assert lines == lines[..n] + [lines[n]];
    }
  }

  /** Filtering again changes nothing. */
  lemma {:induction false} UnmanagedTwice(lines: seq<string>)
    ensures Unmanaged(Unmanaged(lines)) == Unmanaged(lines)
  {
    hide IsManagedLine;
    if lines != [] {
      var n := |lines| - 1;
      UnmanagedTwice(lines[..n]);
      if !IsManagedLine(lines[n]) {
        UnmanagedAppend(Unmanaged(lines[..n]), [lines[n]]);
        assert Unmanaged([lines[n]]) == Unmanaged([]) + [lines[n]];
      } else {
        assert Unmanaged(lines) == Unmanaged(lines[..n]);
      }
    }
  }

  lemma AssignmentManaged(key: string, value: string)
    requires key == CREDENTIALS || key == SPREADSHEET_URL || key == CREDENTIAL_POOL
    ensures IsManagedLine(Assignment(key, value))
  {
    var head := key + "=";
    assert Assignment(key, value) == head + value;
    assert (head + value)[..|head|] == head;
  }

  lemma {:induction false} NothingUnmanaged(lines: seq<string>)
    requires forall l :: l in lines ==> IsManagedLine(l)
    ensures Unmanaged(lines) == []
  {
    if lines != [] {
      assert lines[|lines| - 1] in lines;
      NothingUnmanaged(lines[..|lines| - 1]);
    }
  }

  lemma ManagedLinesManaged(m: Managed)
    ensures forall l :: l in ManagedLines(m) ==> IsManagedLine(l)
    ensures Unmanaged(ManagedLines(m)) == []
  {
    hide IsManagedLine, Assignment;
    AssignmentManaged(CREDENTIALS, m.credentialsPath);
    AssignmentManaged(SPREADSHEET_URL, m.spreadsheetUrl);
    AssignmentManaged(CREDENTIAL_POOL, Join(m.poolPaths, ","));
    NothingUnmanaged(ManagedLines(m));
  }

  lemma AssignmentOneLine(key: string, value: string)
    requires OneLine(key) && OneLine(value)
    ensures OneLine(Assignment(key, value))
  {
  }

  lemma LinesOneLine(existing: string)
    ensures AllOneLine(LinesOf(existing))
  {
    SplitPieces(existing, '\n');
  }

  lemma NextOneLine(existing: string, m: Managed)
    requires SingleLine(m)
    ensures AllOneLine(NextLines(existing, m))
  {
    hide Assignment, OneLine;
    LinesOneLine(existing);
    forall l | l in Unmanaged(LinesOf(existing))
      ensures OneLine(l)
    {
      UnmanagedLines(LinesOf(existing), l);
    }
    CredentialsIsKey();
    SpreadsheetUrlIsKey();
    CredentialPoolIsKey();
    AssignmentOneLine(CREDENTIALS, m.credentialsPath);
    AssignmentOneLine(SPREADSHEET_URL, m.spreadsheetUrl);
    AssignmentOneLine(CREDENTIAL_POOL, Join(m.poolPaths, ","));
  }

  lemma NextContentLines(existing: string, m: Managed)
    requires SingleLine(m)
    ensures NextContent(existing, m) == Lined(NextLines(existing, m))
    ensures LinesOf(NextContent(existing, m)) == NextLines(existing, m)
  {
    NextOneLine(existing, m);
    JoinLined(NextLines(existing, m));
    LinesOfLined(NextLines(existing, m));
  }

  /** Rewriting keeps every unmanaged line, in order, and no other line of the file. */
  lemma KeepsUnmanaged(existing: string, m: Managed)
    requires SingleLine(m)
    ensures Unmanaged(LinesOf(NextContent(existing, m))) == Unmanaged(LinesOf(existing))
  {
    NextContentLines(existing, m);
    UnmanagedAppend(Unmanaged(LinesOf(existing)), ManagedLines(m));
    UnmanagedTwice(LinesOf(existing));
    ManagedLinesManaged(m);
  }

  /** A second rewrite makes the first one unseen; the same one again changes nothing and writes nothing. */
  lemma LastRewriteWins(existing: string, first: Managed, second: Managed)
    requires SingleLine(first)
    ensures NextContent(NextContent(existing, first), second) == NextContent(existing, second)
    ensures !Modified(false, NextContent(existing, first), 0x180, first)
  {
    KeepsUnmanaged(existing, first);
  }

  // ---- Reading back ----

  lemma {:induction false} ParseAppend(a: seq<string>, b: seq<string>)
    ensures ParseLines(a + b) == ParseLines(a) + ParseLines(b)
  {
    if b == [] {
      assert a + b == a;
    } else {
      assert (a + b)[..|a + b| - 1] == a + b[..|b| - 1];
      ParseAppend(a, b[..|b| - 1]);
    }
  }

  lemma {:induction false} ParseAlike(a: seq<string>, b: seq<string>)
    requires |a| == |b| && forall i :: 0 <= i < |a| ==> ParseLine(a[i]) == ParseLine(b[i])
    ensures ParseLines(a) == ParseLines(b)
  {
    hide ParseLine;
    if a != [] {
      ParseAlike(a[..|a| - 1], b[..|b| - 1]);
    }
  }

  lemma ChompParses(raw: string)
    ensures raw != "" && raw[|raw| - 1] == '\r' ==> ParseLine(raw[..|raw| - 1]) == ParseLine(raw)
  {
  }

  /** A carriage return before the newline is white space to the parser. */
  lemma ParsePieces(content: string)
    ensures Parse(content) == ParseLines(Split(content, '\n'))
  {
    forall i | 0 <= i < |Split(content, '\n')|
      ensures ParseLine(Pieces(content)[i]) == ParseLine(Split(content, '\n')[i])
    {
      ChompParses(Split(content, '\n')[i]);
    }
    hide ParseLine;
    ParseAlike(Pieces(content), Split(content, '\n'));
  }

  /** Parsing written lines is parsing the lines. */
  lemma ParseLined(lines: seq<string>)
    requires AllOneLine(lines)
    ensures Parse(Lined(lines)) == ParseLines(lines)
  {
    ParsePieces(Lined(lines));
    SplitLined(lines);
    ParseAppend(lines, [""]);
    assert ParseLines([""]) == map[];
  }

  predicate IsManagedKey(key: string) {
    key == CREDENTIALS || key == SPREADSHEET_URL || key == CREDENTIAL_POOL
  }

  /** A managed line assigns a managed key or nothing else. */
  lemma ManagedLineParses(line: string)
    requires IsManagedLine(line)
    ensures ParseLine(line).Some? && IsManagedKey(ParseLine(line).value.0)
  {
    var key := if StartsWith(line, CREDENTIALS + "=") then CREDENTIALS
               else if StartsWith(line, SPREADSHEET_URL + "=") then SPREADSHEET_URL else CREDENTIAL_POOL;
    var value := line[|key| + 1..];
    assert line == line[..|key| + 1] + value;
    assert Assignment(key, value) == key + "=" + value;
    CredentialsIsKey();
    SpreadsheetUrlIsKey();
    CredentialPoolIsKey();
    AssignmentParses(key, value);
  }

  /** Dropping the managed lines does not change what the file says about other keys. */
  lemma {:induction false} UnmanagedKeysKept(lines: seq<string>, key: string)
    requires !IsManagedKey(key)
    ensures key in ParseLines(Unmanaged(lines)) <==> key in ParseLines(lines)
    ensures key in ParseLines(lines) ==> ParseLines(Unmanaged(lines))[key] == ParseLines(lines)[key]
  {
    hide IsManagedLine, IsManagedKey, ParseLine;
    if lines != [] {
      var n := |lines| - 1;
      UnmanagedKeysKept(lines[..n], key);
      if IsManagedLine(lines[n]) {
        ManagedLineParses(lines[n]);
        assert Unmanaged(lines) == Unmanaged(lines[..n]);
      } else {
        ParseAppend(Unmanaged(lines[..n]), [lines[n]]);
        assert [lines[n]][..0] == [];
      }
    }
  }

  /** The value survives a round through the file: no outer white space, and no matching quotes around it. */
  predicate Plain(value: string) {
    value == "" || (!IsSpace(value[0]) && !IsSpace(value[|value| - 1]) && !Quoted(value, '"') && !Quoted(value, '\''))
  }

  /** The first and the last character are this quote. */
  predicate Quoted(value: string, quote: char) {
    |value| >= 2 && value[0] == quote && value[|value| - 1] == quote
  }

  lemma PlainExactly(value: string)
    ensures Unquote(Trim(value)) == value <==> Plain(value)
  {
    TrimShorter(TrimRight(value));
    TrimShorter(value);
    TrimEnds(value);
  }

  lemma TrimEnds(value: string)
    ensures Trim(value) == value <==> value == "" || (!IsSpace(value[0]) && !IsSpace(value[|value| - 1]))
  {
    TrimShorter(TrimRight(value));
    TrimShorter(value);
    if value != "" && IsSpace(value[|value| - 1]) {
      TrimShorter(value[..|value| - 1]);
    } else if value != "" && IsSpace(value[0]) {
      TrimShorter(value[1..]);
    }
  }

  /** Unquoting takes off exactly one matching pair of quotes, and nothing else. */
  lemma UnquoteMeaning(inner: string, value: string)
    ensures Unquote("\"" + inner + "\"") == inner && Unquote("'" + inner + "'") == inner
    ensures !Quoted(value, '"') && !Quoted(value, '\'') ==> Unquote(value) == value
  {
    assert ("\"" + inner + "\"")[1..|inner| + 1] == inner && ("'" + inner + "'")[1..|inner| + 1] == inner;
  }

  lemma ManagedValues(m: Managed, key: string)
    ensures var parsed := ParseLines(ManagedLines(m));
            && CREDENTIALS in parsed && parsed[CREDENTIALS] == Unquote(Trim(m.credentialsPath))
            && SPREADSHEET_URL in parsed && parsed[SPREADSHEET_URL] == Unquote(Trim(m.spreadsheetUrl))
            && (CREDENTIAL_POOL in parsed <==> |m.poolPaths| >= 2)
            && (|m.poolPaths| >= 2 ==> parsed[CREDENTIAL_POOL] == Unquote(Trim(Join(m.poolPaths, ","))))
            && (key in parsed ==> IsManagedKey(key))
  {
    CredentialsIsKey();
    SpreadsheetUrlIsKey();
    CredentialPoolIsKey();
    KeysDiffer();
    hide IsKey, Assignment;
    PairParses(CREDENTIALS, m.credentialsPath, SPREADSHEET_URL, m.spreadsheetUrl);
    ParseAppend([Assignment(CREDENTIALS, m.credentialsPath), Assignment(SPREADSHEET_URL, m.spreadsheetUrl)], PoolLines(m));
    AssignmentParses(CREDENTIAL_POOL, Join(m.poolPaths, ","));
    ParseOne(Assignment(CREDENTIAL_POOL, Join(m.poolPaths, ",")));
  }

  lemma PairParses(key1: string, value1: string, key2: string, value2: string)
    requires IsKey(key1) && IsKey(key2)
    ensures ParseLines([Assignment(key1, value1), Assignment(key2, value2)]) ==
            map[key1 := Unquote(Trim(value1))][key2 := Unquote(Trim(value2))]
  {
    AssignmentParses(key1, value1);
    AssignmentParses(key2, value2);
    hide ParseLine, Assignment, IsKey;
    var a, b := Assignment(key1, value1), Assignment(key2, value2);
    assert [a, b] == [a] + [b];
    ParseAppend([a], [b]);
    ParseOne(a);
    ParseOne(b);
  }

  lemma ParseOne(line: string)
    ensures ParseLines([line]) == match ParseLine(line) case None => map[] case Some((key, value)) => map[key := value]
  {
    hide ParseLine;
    assert [line][..0] == [];
    assert ParseLines([]) == map[];
  }

  /** What the rewritten file parses to. */
  lemma ParseNext(existing: string, m: Managed)
    requires SingleLine(m)
    ensures Parse(NextContent(existing, m)) == ParseLines(Unmanaged(LinesOf(existing))) + ParseLines(ManagedLines(m))
  {
    NextContentLines(existing, m);
    NextOneLine(existing, m);
    ParseLined(NextLines(existing, m));
    ParseAppend(Unmanaged(LinesOf(existing)), ManagedLines(m));
  }

  /**
   Whatever the file contained, reading the rewritten file back gives exactly the written values, provided
   they are plain; values with outer white space or quotes come back without them. All other keys read as
   they did before.
   */
  lemma ReadsBack(existing: string, m: Managed, key: string)
    requires SingleLine(m)
    ensures var parsed := Parse(NextContent(existing, m));
            && CREDENTIALS in parsed && (parsed[CREDENTIALS] == m.credentialsPath <==> Plain(m.credentialsPath))
            && SPREADSHEET_URL in parsed && (parsed[SPREADSHEET_URL] == m.spreadsheetUrl <==> Plain(m.spreadsheetUrl))
            && (|m.poolPaths| >= 2 ==>
                  CREDENTIAL_POOL in parsed
                  && (parsed[CREDENTIAL_POOL] == Join(m.poolPaths, ",") <==> Plain(Join(m.poolPaths, ","))))
            && (!IsManagedKey(key) ==>
                  (key in parsed <==> key in ParseLines(LinesOf(existing)))
                  && (key in parsed ==> parsed[key] == ParseLines(LinesOf(existing))[key]))
  {
    hide Parse, NextContent, ManagedLines, LinesOf, Plain;
    ParseNext(existing, m);
    ManagedValues(m, key);
    PlainExactly(m.credentialsPath);
    PlainExactly(m.spreadsheetUrl);
    PlainExactly(Join(m.poolPaths, ","));
    if !IsManagedKey(key) {
      UnmanagedKeysKept(LinesOf(existing), key);
    }
  }

  /** The pool key reads as present exactly when a pool was written or an unmanaged line of the file assigns it. */
  lemma PoolPresent(existing: string, m: Managed)
    requires SingleLine(m)
    ensures CREDENTIAL_POOL in Parse(NextContent(existing, m)) <==>
              |m.poolPaths| >= 2 || CREDENTIAL_POOL in ParseLines(Unmanaged(LinesOf(existing)))
  {
    hide Parse, NextContent, ManagedLines, LinesOf;
    ParseNext(existing, m);
    ManagedValues(m, CREDENTIAL_POOL);
  }

  /** An indented assignment of the pool is no managed line, but the parser reads it. */
  lemma IndentedPoolStays(value: string)
    ensures var line := " " + Assignment(CREDENTIAL_POOL, value);
            !IsManagedLine(line) && ParseLine(line) == Some((CREDENTIAL_POOL, Unquote(Trim(value))))
  {
    CredentialsIsKey();
    SpreadsheetUrlIsKey();
    CredentialPoolIsKey();
    hide ParseLine, Assignment, IsManagedLine;
    IndentedUnmanaged(Assignment(CREDENTIAL_POOL, value));
    AssignmentParses(CREDENTIAL_POOL, value);
    IndentParses(CREDENTIAL_POOL, value);
  }

  lemma IndentedUnmanaged(line: string)
    requires IsKey(CREDENTIALS) && IsKey(SPREADSHEET_URL) && IsKey(CREDENTIAL_POOL)
    ensures !IsManagedLine(" " + line)
  {
    IndentedNoPrefix(CREDENTIALS, line);
    IndentedNoPrefix(SPREADSHEET_URL, line);
    IndentedNoPrefix(CREDENTIAL_POOL, line);
  }

  lemma IndentedNoPrefix(key: string, line: string)
    requires IsKey(key)
    ensures !StartsWith(" " + line, key + "=")
  {
    var head, indented := key + "=", " " + line;
    assert head[0] == key[0] && indented[0] == ' ';
    assert |head| <= |indented| ==> indented[..|head|][0] == ' ';
  }

  lemma IndentParses(key: string, value: string)
    requires IsKey(key)
    ensures ParseLine(" " + Assignment(key, value)) == ParseLine(Assignment(key, value))
  {
    var head := key + "=";
    assert Assignment(key, value) == head + value && head[0] == key[0];
    IndentTrimmed(head, value);
    hide ParseTrimmed;
  }

  lemma IndentTrimmed(head: string, value: string)
    requires head != "" && !IsSpace(head[0]) && !IsSpace(head[|head| - 1])
    ensures Trim(" " + (head + value)) == Trim(head + value)
  {
    var indented, line := " " + head, head + TrimRight(value);
    assert " " + (head + value) == indented + value;
    TrimRightAppend(head, value);
    TrimRightAppend(indented, value);
    assert indented + TrimRight(value) == " " + line;
    TrimLeftIndent(line);
  }

  lemma TrimLeftIndent(line: string)
    ensures TrimLeft(" " + line) == TrimLeft(line)
  {
    assert (" " + line)[1..] == line;
  }

  // ---- Loading ----

  /** A variable that is set and not empty. */
  predicate IsSet(target: map<string, string>, key: string) {
    key in target && target[key] != ""
  }

  /** Every entry has its value in the environment, a set variable wins, and other variables are as they were. */
  ghost predicate Filled(entries: seq<(string, string)>, target: map<string, string>, loaded: map<string, string>) {
    && (forall e :: e in entries ==> e.0 in loaded && loaded[e.0] == if e.0 in target && target[e.0] != "" then target[e.0] else e.1)
    && (forall k :: (forall e :: e in entries ==> e.0 != k) ==> (k in loaded <==> k in target) && (k in target ==> loaded[k] == target[k]))
  }

  /** The names of the entries that were set before. */
  ghost predicate SkippedSet(entries: seq<(string, string)>, target: map<string, string>, skipped: seq<string>) {
    forall k :: k in skipped <==> IsSet(target, k) && exists e :: e in entries && e.0 == k
  }

  lemma FillOne(entries: seq<(string, string)>, target: map<string, string>, loaded: map<string, string>, e: (string, string))
    requires Filled(entries, target, loaded) && forall d :: d in entries ==> d.0 != e.0
    ensures IsSet(loaded, e.0) <==> IsSet(target, e.0)
    ensures Filled(entries + [e], target, if IsSet(loaded, e.0) then loaded else loaded[e.0 := e.1])
  {
    forall k | forall d :: d in entries + [e] ==> d.0 != k
      ensures (k in loaded <==> k in target) && (k in target ==> loaded[k] == target[k]) && k != e.0
    {
      assert e in entries + [e];
      assert forall d :: d in entries ==> d in entries + [e];
    }
  }

  lemma SkipOne(entries: seq<(string, string)>, target: map<string, string>, skipped: seq<string>, e: (string, string))
    requires SkippedSet(entries, target, skipped)
    ensures SkippedSet(entries + [e], target, if IsSet(target, e.0) then skipped + [e.0] else skipped)
  {
    assert e in entries + [e];
    assert forall d :: d in entries ==> d in entries + [e];
  }

  /**
   Fills the gaps of an environment from a parsed file, in the order of its entries: a set variable wins, every
   other name of the file gets the file's value, and nothing else changes.
   */
  method LoadEnv(entries: seq<(string, string)>, target: map<string, string>)
    returns (loaded: map<string, string>, applied: nat, skipped: seq<string>)
    requires forall i, j :: 0 <= i < j < |entries| ==> entries[i].0 != entries[j].0
    ensures Filled(entries, target, loaded) && SkippedSet(entries, target, skipped)
    ensures applied + |skipped| == |entries|
  {
    hide IsSet, Filled, SkippedSet;
    loaded, applied, skipped := target, 0, [];
    NothingFilled(target);
    assert entries[..0] == [];
    for i := 0 to |entries|
      invariant applied + |skipped| == i
      invariant Filled(entries[..i], target, loaded) && SkippedSet(entries[..i], target, skipped)
    {
      var (key, value) := entries[i];
      assert entries[..i + 1] == entries[..i] + [entries[i]];
      FillOne(entries[..i], target, loaded, entries[i]);
      SkipOne(entries[..i], target, skipped, entries[i]);
      if IsSet(loaded, key) {
        skipped := skipped + [key];
      } else {
        loaded := loaded[key := value];
        applied := applied + 1;
      }
    }
    assert entries[..|entries|] == entries;
  }

  lemma NothingFilled(target: map<string, string>)
    ensures Filled([], target, target) && SkippedSet([], target, [])
  {
  }
}
