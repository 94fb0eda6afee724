/**
 The user-managed key list: reading the output of the list command into a sorted list of canonical
 resource names that can be stored as a checkpoint baseline.
 */
module KeyList {
  import opened Text

  // ---- Names ----

  predicate IsHexDigit(c: char) {
    '0' <= c <= '9' || 'a' <= c <= 'f' || 'A' <= c <= 'F'
  }

  predicate IsKeyId(s: string) {
    16 <= |s| <= 40 && All(IsHexDigit, s)
  }

  function LowerChar(c: char): char {
    if 'A' <= c <= 'Z' then (c as int + 32) as char else c
  }

  function Lower(s: string): (r: string)
    ensures |r| == |s| && forall i :: 0 <= i < |s| ==> r[i] == LowerChar(s[i])
  {
    seq(|s|, i requires 0 <= i < |s| => LowerChar(s[i]))
  }

  /** The canonical resource name of a key. */
  function ResourceName(projectId: string, saEmail: string, keyId: string): string {
    Join(["projects", projectId, "serviceAccounts", saEmail, "keys", keyId], "/")
  }

  predicate IsResourceName(name: string, projectId: string, saEmail: string) {
    var parts := Split(name, '/');
    && |parts| == 6 && parts[0] == "projects" && parts[1] == projectId && parts[2] == "serviceAccounts"
    && parts[3] == saEmail && parts[4] == "keys" && IsKeyId(parts[5])
  }

  predicate NoSlash(s: string) {
    '/' !in s
  }

  /** The canonical name behind one line of the list output, in either of its two shapes. */
  function NormalizeLine(line: string, projectId: string, saEmail: string): Option<string> {
    if IsResourceName(line, projectId, saEmail) then
      var parts := Split(line, '/');
      Some(ResourceName(parts[1], parts[3], Lower(parts[5])))
    else if IsKeyId(line) then Some(ResourceName(projectId, saEmail, Lower(line)))
    else None
  }

  lemma KeyIdNoSlash(id: string)
    requires IsKeyId(id)
    ensures NoSlash(id)
  {
    assert forall i :: 0 <= i < |id| ==> IsHexDigit(id[i]) && id[i] != '/';
  }

  lemma LowerKeyId(id: string)
    requires IsKeyId(id)
    ensures IsKeyId(Lower(id)) && Lower(Lower(id)) == Lower(id)
  {
  }

  /** A name built from a key id splits back into its parts. */
  lemma ResourceNameSplits(projectId: string, saEmail: string, keyId: string)
    requires NoSlash(projectId) && NoSlash(saEmail) && IsKeyId(keyId)
    ensures Split(ResourceName(projectId, saEmail, keyId), '/') == ["projects", projectId, "serviceAccounts", saEmail, "keys", keyId]
    ensures IsResourceName(ResourceName(projectId, saEmail, keyId), projectId, saEmail)
  {
    KeyIdNoSlash(keyId);
    SplitJoin(["projects", projectId, "serviceAccounts", saEmail, "keys", keyId], '/');
  }

  /** A key id has 16 to 40 hexadecimal digits in either case. */
  lemma KeyIdExactly(s: string)
    ensures IsKeyId(s) <==> 16 <= |s| <= 40 && forall i :: 0 <= i < |s| ==> s[i] in "0123456789abcdefABCDEF"
  {
    assert forall c: char :: IsHexDigit(c) <==> c in "0123456789abcdefABCDEF";
  }

  /** A normalized name ends in a key id without capital letters, and letter case does not distinguish keys. */
  lemma CaseIgnored(a: string, b: string, projectId: string, saEmail: string)
    requires NoSlash(projectId) && NoSlash(saEmail) && IsKeyId(a)
    requires |a| == |b| && forall i :: 0 <= i < |a| ==> a[i] == b[i] || (a[i] in "abcdef" && b[i] as int == a[i] as int - 32)
    ensures NormalizeLine(b, projectId, saEmail) == NormalizeLine(a, projectId, saEmail)
    ensures exists id :: NormalizeLine(a, projectId, saEmail) == Some(ResourceName(projectId, saEmail, id))
                         && IsKeyId(id) && forall i :: 0 <= i < |id| ==> !('A' <= id[i] <= 'Z')
  {
    assert forall i :: 0 <= i < |a| ==> IsHexDigit(a[i]) && IsHexDigit(b[i]);
    assert forall i :: 0 <= i < |a| ==> LowerChar(a[i]) == LowerChar(b[i]);
    assert Lower(a) == Lower(b);
    BareId(a, projectId, saEmail);
    BareId(b, projectId, saEmail);
  }

  /** A bare key id is not taken for a resource name. */
  lemma BareId(id: string, projectId: string, saEmail: string)
    requires IsKeyId(id)
    ensures NormalizeLine(id, projectId, saEmail) == Some(ResourceName(projectId, saEmail, Lower(id))) && IsKeyId(Lower(id))
  {
    KeyIdNoSlash(id);
    LowerKeyId(id);
    SplitWhole(id, '/');
  }

  /** Normalizing gives a canonical name of this project and account, and normalizing that changes nothing. */
  lemma NormalizeCanonical(line: string, projectId: string, saEmail: string)
    requires NoSlash(projectId) && NoSlash(saEmail) && NormalizeLine(line, projectId, saEmail).Some?
    ensures var name := NormalizeLine(line, projectId, saEmail).value;
            && IsResourceName(name, projectId, saEmail)
            && NormalizeLine(name, projectId, saEmail) == Some(name)
  {
    var id := if IsResourceName(line, projectId, saEmail) then Split(line, '/')[5] else line;
    LowerKeyId(id);
    ResourceNameSplits(projectId, saEmail, Lower(id));
  }

  /** The two shapes of a line name the same key. */
  lemma ShapesAgree(projectId: string, saEmail: string, keyId: string)
    requires NoSlash(projectId) && NoSlash(saEmail) && IsKeyId(keyId)
    ensures NormalizeLine(ResourceName(projectId, saEmail, keyId), projectId, saEmail) == Some(ResourceName(projectId, saEmail, Lower(keyId)))
    ensures NormalizeLine(keyId, projectId, saEmail) == Some(ResourceName(projectId, saEmail, Lower(keyId)))
  {
    ResourceNameSplits(projectId, saEmail, keyId);
    KeyIdNoSlash(keyId);
    SplitWhole(keyId, '/');
  }

  // ---- Order ----

  /** Lexicographic order of the characters. */
  predicate Less(a: string, b: string) {
    b != "" && (a == "" || a[0] < b[0] || (a[0] == b[0] && Less(a[1..], b[1..])))
  }

  lemma {:induction false} LessOrder(a: string, b: string, c: string)
    ensures !Less(a, a)
    ensures Less(a, b) || a == b || Less(b, a)
    ensures Less(a, b) && Less(b, c) ==> Less(a, c)
  {
    if a != "" {
      LessOrder(a[1..], if b == "" then "" else b[1..], if c == "" then "" else c[1..]);
      if b != "" && a[0] == b[0] && a[1..] == b[1..] {
        assert a == [a[0]] + a[1..] && b == [b[0]] + b[1..];
      }
    }
  }

  predicate Sorted(s: seq<string>) {
    forall i, j :: 0 <= i < j < |s| ==> Less(s[i], s[j])
  }

  /** Puts a string into its place, unless it is there. */
  function Insert(s: seq<string>, x: string): seq<string> {
    if s == [] then [x]
    else if x == s[0] then s
    else if Less(x, s[0]) then [x] + s
    else [s[0]] + Insert(s[1..], x)
  }

  function SortDistinct(s: seq<string>): seq<string> {
    if s == [] then [] else Insert(SortDistinct(s[..|s| - 1]), s[|s| - 1])
  }

  lemma {:induction false} InsertKeeps(s: seq<string>, x: string)
    requires Sorted(s)
    ensures Sorted(Insert(s, x)) && (forall y :: y in Insert(s, x) <==> y == x || y in s)
  {
    if s != [] {
      LessOrder(x, s[0], s[0]);
      if x == s[0] {
        assert x in s;
      } else if Less(x, s[0]) {
        forall j | 0 <= j < |s|
          ensures Less(x, s[j])
        {
          LessOrder(x, s[0], s[j]);
        }
      } else {
        InsertKeeps(s[1..], x);
        var rest := Insert(s[1..], x);
        forall j | 0 <= j < |rest|
          ensures Less(s[0], rest[j])
        {
          assert rest[j] in rest;
          if rest[j] != x {
            var k :| 0 <= k < |s[1..]| && s[1..][k] == rest[j];
            assert s[k + 1] == rest[j];
          }
        }
      }
    }
  }

  /** The distinct elements in order: what deduplicating and sorting gives, and nothing else is. */
  lemma {:induction false} SortDistinctMeaning(s: seq<string>)
    ensures Sorted(SortDistinct(s)) && forall y :: y in SortDistinct(s) <==> y in s
  {
    if s != [] {
      var n := |s| - 1;
      SortDistinctMeaning(s[..n]);
      InsertKeeps(SortDistinct(s[..n]), s[n]);
      assert s == s[..n] + [s[n]];
    }
  }

  lemma {:induction false} SortedUnique(a: seq<string>, b: seq<string>)
    requires Sorted(a) && Sorted(b) && forall y :: y in a <==> y in b
    ensures a == b
  {
    assert (a != [] ==> a[0] in a) && (b != [] ==> b[0] in b);
    if a != [] {
      FirstIsLeast(a, b[0]);
      FirstIsLeast(b, a[0]);
      LessOrder(a[0], b[0], a[0]);
      forall y
        ensures y in a[1..] <==> y in b[1..]
      {
        TailMember(a, y);
        TailMember(b, y);
      }
      SortedUnique(a[1..], b[1..]);
      assert a == [a[0]] + a[1..] && b == [b[0]] + b[1..];
    }
  }

  lemma FirstIsLeast(s: seq<string>, y: string)
    requires Sorted(s) && y in s
    ensures s[0] == y || Less(s[0], y)
  {
  }

  lemma TailMember(s: seq<string>, y: string)
    requires Sorted(s) && s != []
    ensures y in s[1..] <==> y in s && y != s[0]
  {
    LessOrder(s[0], s[0], s[0]);
    if y in s && y != s[0] {
      var k :| 0 <= k < |s| && s[k] == y;
      assert s[1..][k - 1] == y;
    }
  }

  // ---- The list and the baseline ----

  /** A line of the output that is neither blank nor a key of this project and account. */
  predicate Refused(line: string, projectId: string, saEmail: string) {
    Trim(line) != "" && NormalizeLine(Trim(line), projectId, saEmail).None?
  }

  /** The line lists the key with this canonical name. */
  predicate Lists(line: string, projectId: string, saEmail: string, name: string) {
    Trim(line) != "" && NormalizeLine(Trim(line), projectId, saEmail) == Some(name)
  }

  /** The sorted list of exactly the keys that some line of the output lists. */
  ghost predicate ReadsAs(stdout: string, projectId: string, saEmail: string, names: seq<string>) {
    && Sorted(names)
    && forall name :: name in names <==> exists line :: line in Split(stdout, '\n') && Lists(line, projectId, saEmail, name)
  }

  /** Every line of the output is blank or lists a key. */
  ghost predicate Readable(stdout: string, projectId: string, saEmail: string) {
    forall line :: line in Split(stdout, '\n') ==> !Refused(line, projectId, saEmail)
  }

  /**
   Reads the whole output or refuses it: one refused line spoils the list, and otherwise the result is the
   sorted list of exactly the keys that some line lists.
   */
  method ParseUserManagedKeyList(stdout: string, projectId: string, saEmail: string) returns (r: Option<seq<string>>)
    ensures r.Some? <==> Readable(stdout, projectId, saEmail)
    ensures r.Some? ==> ReadsAs(stdout, projectId, saEmail, r.value)
  {
    var lines := Split(stdout, '\n');
    var names: seq<string> := [];
    for i := 0 to |lines|
      invariant forall j :: 0 <= j < i ==> !Refused(lines[j], projectId, saEmail)
      invariant forall name :: name in names <==> exists j :: 0 <= j < i && Lists(lines[j], projectId, saEmail, name)
    {
      assert lines[i] in lines;
      var name := Trim(lines[i]);
      if name != "" {
        var normalized := NormalizeLine(name, projectId, saEmail);
        if normalized.None? {
          assert Refused(lines[i], projectId, saEmail);
          return None;
        }
        names := names + [normalized.value];
      }
    }
    SortDistinctMeaning(names);
    return Some(SortDistinct(names));
  }

  /** What a stored baseline has to be. */
  predicate IsValidKeyBaseline(names: seq<string>, projectId: string, saEmail: string) {
    Sorted(names) && forall n :: n in names ==> IsResourceName(n, projectId, saEmail)
  }

  /** Comparing each name with the one before it checks the order of the whole list. */
  method CheckKeyBaseline(names: seq<string>, projectId: string, saEmail: string) returns (ok: bool)
    ensures ok <==> IsValidKeyBaseline(names, projectId, saEmail)
  {
    var previous: Option<string> := None;
    for i := 0 to |names|
      invariant Sorted(names[..i]) && forall j :: 0 <= j < i ==> IsResourceName(names[j], projectId, saEmail)
      invariant previous == if i == 0 then None else Some(names[i - 1])
    {
      var entry := names[i];
      if !IsResourceName(entry, projectId, saEmail) {
        assert entry in names;
        return false;
      }
      if previous.Some? {
        LessOrder(entry, previous.value, entry);
        if !Less(previous.value, entry) {
          assert names[i - 1] == previous.value;
          return false;
        }
        forall j | 0 <= j < i
          ensures Less(names[j], entry)
        {
          if j < i - 1 {
            assert Less(names[..i][j], names[..i][i - 1]);
            LessOrder(names[j], previous.value, entry);
          }
        }
      }
      previous := Some(entry);
    }
    assert names[..|names|] == names;
    return true;
  }

  /** Every list that can be read is a valid baseline. */
  lemma ListIsBaseline(stdout: string, projectId: string, saEmail: string, names: seq<string>)
    requires NoSlash(projectId) && NoSlash(saEmail) && ReadsAs(stdout, projectId, saEmail, names)
    ensures IsValidKeyBaseline(names, projectId, saEmail)
  {
    forall n | n in names
      ensures IsResourceName(n, projectId, saEmail)
    {
      var line :| line in Split(stdout, '\n') && Lists(line, projectId, saEmail, n);
      NormalizeCanonical(Trim(line), projectId, saEmail);
    }
  }
}
