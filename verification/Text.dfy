/** String helpers shared by the modules that read or write text. */
module Text {

  datatype Option<+T> = None | Some(value: T)

  predicate IsDigit(c: char) {
    '0' <= c <= '9'
  }

  predicate IsCapital(c: char) {
    'A' <= c <= 'Z'
  }

  /** Every character of `s` passes `accept`. */
  predicate All(accept: char -> bool, s: string) {
    forall i :: 0 <= i < |s| ==> accept(s[i])
  }

  function Digit(d: nat): (c: char)
    requires d < 10
    ensures IsDigit(c) && c as int - '0' as int == d
  {
    ('0' as int + d) as char
  }

  /** Decimal rendering of a length or a row number. */
  function Decimal(n: nat): (s: string)
    ensures 0 < |s| && All(IsDigit, s)
  {
    if n < 10 then [Digit(n)] else Decimal(n / 10) + [Digit(n % 10)]
  }

  /** The number a run of decimal digits denotes. */
  function DigitsValue(s: string): nat
    requires All(IsDigit, s)
  {
    if s == "" then 0
    else 10 * DigitsValue(s[..|s| - 1]) + (s[|s| - 1] as int - '0' as int)
  }

  lemma {:induction false} DecimalDenotes(n: nat)
    ensures DigitsValue(Decimal(n)) == n
  {
    if n >= 10 {
      var s := Decimal(n);
      assert s[..|s| - 1] == Decimal(n / 10);
      DecimalDenotes(n / 10);
    }
  }

  /** Length of the longest prefix of `s` whose characters all pass `accept`. */
  function Run(accept: char -> bool, s: string): (n: nat)
    ensures n <= |s| && All(accept, s[..n])
    ensures n == |s| || !accept(s[n])
  {
    if s == "" || !accept(s[0]) then 0
    else
      var n := 1 + Run(accept, s[1..]);
      assert forall i :: 0 < i < n ==> s[i] == s[1..][..n - 1][i - 1];
      n
  }

  lemma {:induction false} RunOfPrefix(accept: char -> bool, head: string, rest: string)
    requires All(accept, head)
    requires rest == "" || !accept(rest[0])
    ensures Run(accept, head + rest) == |head|
  {
    if head == "" {
      assert head + rest == rest;
    } else {
      assert (head + rest)[1..] == head[1..] + rest;
      RunOfPrefix(accept, head[1..], rest);
    }
  }

  /** Concatenation of `parts` with `separator` between neighbours. */
  function Join(parts: seq<string>, separator: string): string {
    if parts == [] then ""
    else if |parts| == 1 then parts[0]
    else parts[0] + separator + Join(parts[1..], separator)
  }

  lemma {:induction false} JoinSnoc(parts: seq<string>, last: string, separator: string)
    requires parts != []
    ensures Join(parts + [last], separator) == Join(parts, separator) + separator + last
  {
    var whole := parts + [last];
    assert whole[1..] == parts[1..] + [last];
    if |parts| > 1 {
      JoinSnoc(parts[1..], last, separator);
    } else {
      assert whole[1..] == [last];
    }
  }

  /** Splitting off the last part. */
  lemma JoinLast(parts: seq<string>, separator: string)
    requires |parts| > 1
    ensures Join(parts, separator) == Join(parts[..|parts| - 1], separator) + separator + parts[|parts| - 1]
  {
    JoinSnoc(parts[..|parts| - 1], parts[|parts| - 1], separator);
    assert parts == parts[..|parts| - 1] + [parts[|parts| - 1]];
  }

  // ---- Splitting ----

  /** The pieces of `s` between separators. */
  function Split(s: string, separator: char): (r: seq<string>)
    ensures |r| > 0
  {
    if s == "" then [""]
    else
      var rest := Split(s[1..], separator);
      if s[0] == separator then [""] + rest else [[s[0]] + rest[0]] + rest[1..]
  }

  /** A piece in front of a separator is split off. */
  lemma {:induction false} SplitFirst(piece: string, separator: char, rest: string)
    requires separator !in piece
    ensures Split(piece + ([separator] + rest), separator) == [piece] + Split(rest, separator)
    decreases |piece|
  {
    var s := piece + ([separator] + rest);
    if piece == "" {
      assert s[1..] == rest;
    } else {
      assert s[1..] == piece[1..] + ([separator] + rest);
      SplitFirst(piece[1..], separator, rest);
      assert [piece[0]] + piece[1..] == piece;
    }
  }

  lemma {:induction false} SplitWhole(piece: string, separator: char)
    requires separator !in piece
    ensures Split(piece, separator) == [piece]
  {
    if piece != "" {
      SplitWhole(piece[1..], separator);
      assert [piece[0]] + piece[1..] == piece;
    }
  }

  /** No piece contains the separator. */
  lemma {:induction false} SplitPieces(s: string, separator: char)
    ensures forall p :: p in Split(s, separator) ==> separator !in p
  {
    if s != "" {
      SplitPieces(s[1..], separator);
      var rest := Split(s[1..], separator);
      assert rest[0] in rest;
      assert forall p :: p in rest[1..] ==> p in rest;
    }
  }

  /** Splitting undoes joining pieces without separators. */
  lemma {:induction false} SplitJoin(pieces: seq<string>, separator: char)
    requires pieces != [] && forall p :: p in pieces ==> separator !in p
    ensures Split(Join(pieces, [separator]), separator) == pieces
  {
    if |pieces| == 1 {
      SplitWhole(pieces[0], separator);
    } else {
      var rest := Join(pieces[1..], [separator]);
      assert pieces[0] + [separator] + rest == pieces[0] + ([separator] + rest);
      SplitFirst(pieces[0], separator, rest);
      SplitJoin(pieces[1..], separator);
    }
  }

  // ---- Trimming ----

  /** The white space and line terminators that ECMAScript trims. */
  predicate IsSpace(c: char) {
    var n := c as int;
    9 <= n <= 13 || n == 32 || n == 160 || n == 0x1680 || 0x2000 <= n <= 0x200a || n == 0x2028 || n == 0x2029
    || n == 0x202f || n == 0x205f || n == 0x3000 || n == 0xfeff
  }

  function TrimLeft(s: string): string {
    if s != "" && IsSpace(s[0]) then TrimLeft(s[1..]) else s
  }

  function TrimRight(s: string): string {
    if s != "" && IsSpace(s[|s| - 1]) then TrimRight(s[..|s| - 1]) else s
  }

  function Trim(s: string): string {
    TrimLeft(TrimRight(s))
  }

  lemma {:induction false} TrimRightAppend(a: string, v: string)
    requires a != "" && !IsSpace(a[|a| - 1])
    ensures TrimRight(a + v) == a + TrimRight(v)
  {
    var n := |v|;
    if n == 0 {
      assert a + v == a;
    } else {
      assert (a + v)[|a + v| - 1] == v[n - 1];
      assert (a + v)[..|a + v| - 1] == a + v[..n - 1];
      TrimRightAppend(a, v[..n - 1]);
    }
  }

  lemma {:induction false} TrimRightTwice(s: string)
    ensures TrimRight(TrimRight(s)) == TrimRight(s)
  {
    if s != "" && IsSpace(s[|s| - 1]) {
      TrimRightTwice(s[..|s| - 1]);
    }
  }

  lemma {:induction false} TrimShorter(s: string)
    ensures |TrimLeft(s)| <= |s| && (|TrimLeft(s)| == |s| ==> TrimLeft(s) == s)
    ensures |TrimRight(s)| <= |s| && (|TrimRight(s)| == |s| ==> TrimRight(s) == s)
  {
    if s != "" {
      TrimShorter(s[1..]);
      TrimShorter(s[..|s| - 1]);
    }
  }
}
