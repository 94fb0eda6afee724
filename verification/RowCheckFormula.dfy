/**
 The row-check formula builder. The emitted text is given a meaning by a reader of the
 formula sublanguage it uses (concatenation, IF, ISNUMBER, ISLOGICAL, LEN, text literals
 and cell references) and an evaluator over a grid.
 */
module RowCheckFormula {
  import opened Text
  import RowCheck

  // ---- Column letters ----

  function Letters(column: nat): (letters: string)
    ensures All(IsCapital, letters) && (letters == "" <==> column == 0)
  {
    if column == 0 then ""
    else Letters((column - 1) / 26) + [('A' as int + (column - 1) % 26) as char]
  }

  /** The column a run of capital letters addresses. */
  function ColumnOf(letters: string): nat
    requires All(IsCapital, letters)
  {
    if letters == "" then 0
    else 26 * ColumnOf(letters[..|letters| - 1]) + (letters[|letters| - 1] as int - 'A' as int) + 1
  }

  /** Reading the letters of a column back gives the column, so distinct columns have distinct letters. */
  lemma {:induction false} LettersAddressColumn(column: nat)
    ensures ColumnOf(Letters(column)) == column
  {
    if column > 0 {
      var s := Letters(column);
      assert s[..|s| - 1] == Letters((column - 1) / 26);
      LettersAddressColumn((column - 1) / 26);
    }
  }

  method ColumnLetters(column: nat) returns (letters: string)
    ensures letters == Letters(column)
  {
    letters := "";
    var value := column;
    while value > 0
      invariant Letters(column) == Letters(value) + letters
    {
      var remainder := (value - 1) % 26;
      letters := [('A' as int + remainder) as char] + letters;
      value := (value - 1) / 26;
    }
  }

  // ---- The formula sublanguage ----

  datatype Expr =
    | Literal(text: string)
    | Ref(letters: string, row: nat)
    | Len(arg: Expr)
    | IsNumber(arg: Expr)
    | IsLogical(arg: Expr)
    | If(cond: Expr, thn: Expr, els: Expr)
    | Concat(parts: seq<Expr>)

  ghost predicate WellFormed(e: Expr) {
    match e
    case Literal(text) => '"' !in text
    case Ref(letters, _) => letters != "" && All(IsCapital, letters)
    case Len(arg) => WellFormed(arg)
    case IsNumber(arg) => WellFormed(arg)
    case IsLogical(arg) => WellFormed(arg)
    case If(cond, thn, els) => WellFormed(cond) && WellFormed(thn) && WellFormed(els)
    case Concat(parts) => |parts| >= 2 && Parts(parts)
  }

  /** Parts that can stand in a concatenation. */
  ghost predicate Parts(parts: seq<Expr>) {
    forall p :: p in parts ==> !p.Concat? && WellFormed(p)
  }

  function Quoted(text: string): string {
    "\"" + (text + "\"")
  }

  function Call(name: string, args: string): string {
    name + ("(" + (args + ")"))
  }

  function Call3(name: string, a: string, b: string, c: string): string {
    Call(name, a + ("," + (b + ("," + c))))
  }

  function Print(e: Expr): string
    decreases e, 0
  {
    match e
    case Literal(text) => Quoted(text)
    case Ref(letters, row) => letters + Decimal(row)
    case Len(arg) => Call("LEN", Print(arg))
    case IsNumber(arg) => Call("ISNUMBER", Print(arg))
    case IsLogical(arg) => Call("ISLOGICAL", Print(arg))
    case If(cond, thn, els) => Call3("IF", Print(cond), Print(thn), Print(els))
    case Concat(parts) => PrintParts(parts)
  }

  function PrintParts(parts: seq<Expr>): string
    decreases parts
  {
    if parts == [] then ""
    else if |parts| == 1 then Print(parts[0])
    else Print(parts[0]) + "&" + PrintParts(parts[1..])
  }

  lemma {:induction false} PrintPartsAppend(a: seq<Expr>, b: seq<Expr>)
    requires a != [] && b != []
    ensures PrintParts(a + b) == PrintParts(a) + "&" + PrintParts(b)
  {
    if |a| == 1 {
      assert (a + b)[1..] == b;
    } else {
      assert (a + b)[1..] == a[1..] + b;
      PrintPartsAppend(a[1..], b);
    }
  }

  // ---- Reading a formula ----

  /** Reads up to the closing quote; a doubled quote stands for one quote character. */
  function ParseLiteral(s: string): (r: Option<(string, string)>)
    ensures r.Some? ==> |r.value.1| < |s|
  {
    if s == "" then None
    else if s[0] != '"' then
      match ParseLiteral(s[1..])
      case None => None
      case Some((text, rest)) => Some(([s[0]] + text, rest))
    else if |s| >= 2 && s[1] == '"' then
      match ParseLiteral(s[2..])
      case None => None
      case Some((text, rest)) => Some(("\"" + text, rest))
    else Some(("", s[1..]))
  }

  function ParsePrimary(s: string): (r: Option<(Expr, string)>)
    ensures r.Some? ==> |r.value.1| < |s|
    decreases |s|, 0
  {
    if s == "" then None
    else if s[0] == '"' then
      match ParseLiteral(s[1..])
      case None => None
      case Some((text, rest)) => Some((Literal(text), rest))
    else
      var n := Run(IsCapital, s);
      if n == 0 || n == |s| then None
      else if s[n] == '(' then ParseCall(s[..n], s[n + 1..])
      else
        var rest := s[n..];
        var d := Run(IsDigit, rest);
        if d == 0 then None else Some((Ref(s[..n], DigitsValue(rest[..d])), rest[d..]))
  }

  /** `s` starts behind the opening parenthesis of a call of `name`. */
  function ParseCall(name: string, s: string): (r: Option<(Expr, string)>)
    ensures r.Some? ==> |r.value.1| < |s|
    decreases |s|, 3
  {
    match ParseExpr(s)
    case None => None
    case Some((first, rest)) =>
      if rest == "" then None
      else if rest[0] == ')' then
        if name == "LEN" then Some((Len(first), rest[1..]))
        else if name == "ISNUMBER" then Some((IsNumber(first), rest[1..]))
        else if name == "ISLOGICAL" then Some((IsLogical(first), rest[1..]))
        else None
      else if rest[0] == ',' && name == "IF" then
        match ParseExpr(rest[1..])
        case None => None
        case Some((second, rest2)) =>
          if rest2 == "" || rest2[0] != ',' then None
          else match ParseExpr(rest2[1..])
            case None => None
            case Some((third, rest3)) =>
              if rest3 == "" || rest3[0] != ')' then None
              else Some((If(first, second, third), rest3[1..]))
      else None
  }

  function ParseParts(s: string): (r: Option<(seq<Expr>, string)>)
    ensures r.Some? ==> |r.value.1| < |s| && r.value.0 != []
    decreases |s|, 1
  {
    match ParsePrimary(s)
    case None => None
    case Some((first, rest)) =>
      if rest == "" || rest[0] != '&' then Some(([first], rest))
      else match ParseParts(rest[1..])
        case None => None
        case Some((more, rest2)) => Some(([first] + more, rest2))
  }

  function ParseExpr(s: string): (r: Option<(Expr, string)>)
    ensures r.Some? ==> |r.value.1| < |s|
    decreases |s|, 2
  {
    match ParseParts(s)
    case None => None
    case Some((parts, rest)) => Some((if |parts| == 1 then parts[0] else Concat(parts), rest))
  }

  /** The expression a formula text stands for: an equals sign followed by one expression. */
  function ParseFormula(s: string): Option<Expr> {
    if s == "" || s[0] != '=' then None
    else match ParseExpr(s[1..])
      case None => None
      case Some((e, rest)) => if rest == "" then Some(e) else None
  }

  predicate EndsExpr(rest: string) {
    rest == "" || rest[0] == ')' || rest[0] == ','
  }

  predicate EndsPart(rest: string) {
    EndsExpr(rest) || rest[0] == '&'
  }

  lemma Assoc(a: string, b: string, c: string)
    ensures (a + b) + c == a + (b + c)
  {
  }

  lemma {:induction false} LiteralReads(text: string, rest: string)
    requires '"' !in text && EndsPart(rest)
    ensures ParseLiteral(text + ("\"" + rest)) == Some((text, rest))
  {
    var s := text + ("\"" + rest);
    if text == "" {
      assert s[1..] == rest;
    } else {
      assert s[1..] == text[1..] + ("\"" + rest);
      LiteralReads(text[1..], rest);
      assert [s[0]] + text[1..] == text;
    }
  }

  /** The text of a call is read by reading its arguments up to the closing parenthesis. */
  lemma CallReads(name: string, args: string, rest: string)
    requires name != "" && All(IsCapital, name)
    ensures ParsePrimary(Call(name, args) + rest) == ParseCall(name, args + (")" + rest))
  {
    var inner := args + (")" + rest);
    var s := Call(name, args) + rest;
    assert s == name + ("(" + inner) by {
      Assoc(args, ")", rest);
      Assoc("(", args + ")", rest);
      Assoc(name, "(" + (args + ")"), rest);
    }
    RunOfPrefix(IsCapital, name, "(" + inner);
    assert s[|name| + 1..] == inner && s[..|name|] == name;
  }

  lemma UnaryReads(name: string, arg: Expr, rest: string)
    requires ParseExpr(Print(arg) + (")" + rest)) == Some((arg, ")" + rest))
    ensures name == "LEN" ==> ParseCall(name, Print(arg) + (")" + rest)) == Some((Len(arg), rest))
    ensures name == "ISNUMBER" ==> ParseCall(name, Print(arg) + (")" + rest)) == Some((IsNumber(arg), rest))
    ensures name == "ISLOGICAL" ==> ParseCall(name, Print(arg) + (")" + rest)) == Some((IsLogical(arg), rest))
  {
    assert (")" + rest)[1..] == rest;
  }

  lemma TernaryReads(cond: Expr, thn: Expr, els: Expr, first: string, second: string, third: string, rest: string)
    requires third == ")" + rest && second == "," + (Print(els) + third) && first == "," + (Print(thn) + second)
    requires ParseExpr(Print(cond) + first) == Some((cond, first))
    requires ParseExpr(Print(thn) + second) == Some((thn, second))
    requires ParseExpr(Print(els) + third) == Some((els, third))
    ensures ParseCall("IF", Print(cond) + first) == Some((If(cond, thn, els), rest))
  {
    hide ParseCall, ParseExpr, Print;
    TailsRead(Print(thn) + second, Print(els) + third, rest);
    TernaryParses(Print(cond) + first, cond, thn, els, first, second, third);
  }

  lemma TernaryParses(s: string, cond: Expr, thn: Expr, els: Expr, first: string, second: string, third: string)
    requires first != "" && first[0] == ',' && second != "" && second[0] == ',' && third != "" && third[0] == ')'
    requires ParseExpr(s) == Some((cond, first))
    requires ParseExpr(first[1..]) == Some((thn, second))
    requires ParseExpr(second[1..]) == Some((els, third))
    ensures ParseCall("IF", s) == Some((If(cond, thn, els), third[1..]))
  {
  }

  lemma TailsRead(thn: string, els: string, rest: string)
    ensures ("," + thn)[1..] == thn && ("," + els)[1..] == els && (")" + rest)[1..] == rest
  {
    assert ("," + thn)[1..] == thn && ("," + els)[1..] == els && (")" + rest)[1..] == rest;
  }

  lemma ArgumentsRegroup(a: string, b: string, c: string, third: string)
    ensures (a + ("," + (b + ("," + c)))) + third == a + ("," + (b + ("," + (c + third))))
  {
    Assoc(",", c, third);
    Assoc(b, "," + c, third);
    Assoc(",", b + ("," + c), third);
    Assoc(a, "," + (b + ("," + c)), third);
  }

  lemma {:induction false} PrimaryReads(e: Expr, rest: string)
    requires WellFormed(e) && !e.Concat? && EndsPart(rest)
    ensures ParsePrimary(Print(e) + rest) == Some((e, rest))
    decreases e, 0
  {
    match e
    case Literal(text) =>
      assert (Print(e) + rest)[1..] == text + ("\"" + rest);
      LiteralReads(text, rest);
    case Ref(letters, row) =>
      ReferenceReads(letters, row, rest);
    case Len(arg) =>
      ArgumentReads(arg, ")" + rest);
      CallReads("LEN", Print(arg), rest);
      UnaryReads("LEN", arg, rest);
    case IsNumber(arg) =>
      ArgumentReads(arg, ")" + rest);
      CallReads("ISNUMBER", Print(arg), rest);
      UnaryReads("ISNUMBER", arg, rest);
    case IsLogical(arg) =>
      ArgumentReads(arg, ")" + rest);
      CallReads("ISLOGICAL", Print(arg), rest);
      UnaryReads("ISLOGICAL", arg, rest);
    case If(cond, thn, els) =>
      var third := ")" + rest;
      var second := "," + (Print(els) + third);
      var first := "," + (Print(thn) + second);
      ArgumentReads(cond, first);
      ArgumentReads(thn, second);
      ArgumentReads(els, third);
      CallReads("IF", Print(cond) + ("," + (Print(thn) + ("," + Print(els)))), rest);
      ArgumentsRegroup(Print(cond), Print(thn), Print(els), third);
      TernaryReads(cond, thn, els, first, second, third, rest);
  }

  lemma ReferenceReads(letters: string, row: nat, rest: string)
    requires letters != "" && All(IsCapital, letters) && EndsPart(rest)
    ensures ParsePrimary(letters + Decimal(row) + rest) == Some((Ref(letters, row), rest))
  {
    var tail := Decimal(row) + rest;
    var s := letters + Decimal(row) + rest;
    assert s == letters + tail;
    RunOfPrefix(IsCapital, letters, tail);
    RunOfPrefix(IsDigit, Decimal(row), rest);
    assert s[..|letters|] == letters && s[|letters|..] == tail;
    assert tail[..|Decimal(row)|] == Decimal(row) && tail[|Decimal(row)|..] == rest;
    DecimalDenotes(row);
  }

  lemma {:induction false} PartsRead(parts: seq<Expr>, rest: string)
    requires parts != [] && EndsExpr(rest)
    requires Parts(parts)
    ensures ParseParts(PrintParts(parts) + rest) == Some((parts, rest))
    decreases parts, 1
  {
    if |parts| == 1 {
      PrimaryReads(parts[0], rest);
      assert parts == [parts[0]] && PrintParts(parts) == Print(parts[0]);
    } else {
      assert parts == [parts[0]] + parts[1..];
      var tail := "&" + (PrintParts(parts[1..]) + rest);
      assert PrintParts(parts) + rest == Print(parts[0]) + tail;
      PrimaryReads(parts[0], tail);
      assert tail[1..] == PrintParts(parts[1..]) + rest;
      PartsRead(parts[1..], rest);
    }
  }

  lemma {:induction false} ArgumentReads(e: Expr, rest: string)
    requires WellFormed(e) && EndsExpr(rest)
    ensures ParseExpr(Print(e) + rest) == Some((e, rest))
    decreases e, 2
  {
    if e.Concat? {
      PartsRead(e.parts, rest);
    } else {
      PrimaryReads(e, rest);
    }
  }

  /** Printing and reading are inverse on every well-formed expression. */
  lemma FormulaReads(e: Expr)
    requires WellFormed(e)
    ensures ParseFormula("=" + Print(e)) == Some(e)
  {
    ArgumentReads(e, "");
    assert ("=" + Print(e))[1..] == Print(e) + "";
  }

  // ---- Meaning of a formula over a grid ----

  datatype Value = Empty | TextValue(text: string) | NumberValue(shown: string) | LogicalValue(truth: bool) | ErrorValue

  /** The value of each (column, row) cell. */
  type Grid = (nat, nat) -> Value

  function Shown(v: Value): string {
    match v
    case Empty => ""
    case TextValue(text) => text
    case NumberValue(shown) => shown
    case LogicalValue(truth) => if truth then "TRUE" else "FALSE"
    case ErrorValue => ""
  }

  ghost function Eval(e: Expr, grid: Grid): Value
    requires WellFormed(e)
    decreases e, 0
  {
    match e
    case Literal(text) => TextValue(text)
    case Ref(letters, row) => grid(ColumnOf(letters), row)
    case Len(arg) =>
      var v := Eval(arg, grid);
      if v.ErrorValue? then ErrorValue else NumberValue(Decimal(|Shown(v)|))
    case IsNumber(arg) => LogicalValue(Eval(arg, grid).NumberValue?)
    case IsLogical(arg) => LogicalValue(Eval(arg, grid).LogicalValue?)
    case If(cond, thn, els) =>
      var c := Eval(cond, grid);
      if !c.LogicalValue? then ErrorValue
      else if c.truth then Eval(thn, grid) else Eval(els, grid)
    case Concat(parts) => EvalParts(parts, grid)
  }

  /** Concatenation shows every part in order; one error makes the whole text an error. */
  ghost function EvalParts(parts: seq<Expr>, grid: Grid): Value
    requires Parts(parts)
    decreases parts
  {
    if parts == [] then TextValue("")
    else
      var head := Eval(parts[0], grid);
      var tail := EvalParts(parts[1..], grid);
      if head.ErrorValue? || tail.ErrorValue? then ErrorValue
      else TextValue(Shown(head) + Shown(tail))
  }

  lemma {:induction false} EvalPartsAppend(a: seq<Expr>, b: seq<Expr>, grid: Grid)
    requires Parts(a) && Parts(b)
    ensures var x, y := EvalParts(a, grid), EvalParts(b, grid);
            EvalParts(a + b, grid) ==
            if x.ErrorValue? || y.ErrorValue? then ErrorValue else TextValue(Shown(x) + Shown(y))
  {
    if a == [] {
      assert a + b == b;
      EvalPartsText(b, grid);
    } else {
      assert (a + b)[1..] == a[1..] + b;
      EvalPartsAppend(a[1..], b, grid);
      Assoc(Shown(Eval(a[0], grid)), Shown(EvalParts(a[1..], grid)), Shown(EvalParts(b, grid)));
    }
  }

  lemma EvalPartsText(parts: seq<Expr>, grid: Grid)
    requires Parts(parts)
    ensures var y := EvalParts(parts, grid); y.ErrorValue? || y == TextValue("" + Shown(y))
  {
    assert forall t: string :: "" + t == t;
  }

  // ---- The row-check formula ----

  datatype Vocabulary = Vocabulary(
    delimiter: string, lengthSeparator: string, stringTag: string, numberTag: string, booleanTag: string)

  const SHEETS_VOCABULARY :=
    Vocabulary(RowCheck.DELIMITER, RowCheck.LENGTH_SEPARATOR, RowCheck.STRING_TAG, RowCheck.NUMBER_TAG, RowCheck.BOOLEAN_TAG)

  /** No vocabulary text contains a double quote, so each can stand inside a text literal. */
  predicate QuoteFree(v: Vocabulary) {
    '"' !in v.delimiter && '"' !in v.lengthSeparator && '"' !in v.stringTag && '"' !in v.numberTag && '"' !in v.booleanTag
  }

  function BuildRowCheckTerm(ref: string, v: Vocabulary): string {
    Call3("IF", Call("ISNUMBER", ref), Quoted(v.numberTag),
          Call3("IF", Call("ISLOGICAL", ref), Quoted(v.booleanTag), Quoted(v.stringTag)))
    + "&" + (Call("LEN", ref) + "&" + (Quoted(v.lengthSeparator) + "&" + ref))
  }

  function TagExpr(ref: Expr, v: Vocabulary): Expr {
    If(IsNumber(ref), Literal(v.numberTag), TextTagExpr(ref, v))
  }

  function TextTagExpr(ref: Expr, v: Vocabulary): Expr {
    If(IsLogical(ref), Literal(v.booleanTag), Literal(v.stringTag))
  }

  function TermParts(column: nat, row: nat, v: Vocabulary): (parts: seq<Expr>)
    ensures |parts| == 4
  {
    var ref := Ref(Letters(column), row);
    [TagExpr(ref, v), Len(ref), Literal(v.lengthSeparator), ref]
  }

  /** Terms chained by one delimiter part between neighbours. */
  function Chain(terms: seq<seq<Expr>>, delimiter: Expr): seq<Expr> {
    if terms == [] then []
    else if |terms| == 1 then terms[0]
    else Chain(terms[..|terms| - 1], delimiter) + [delimiter] + terms[|terms| - 1]
  }

  function Terms(first: nat, last: int, row: nat, v: Vocabulary): (terms: seq<seq<Expr>>)
    requires first <= last + 1
    ensures |terms| == last + 1 - first
    ensures forall i :: 0 <= i < |terms| ==> terms[i] == TermParts(first + i, row, v) && |terms[i]| == 4
  {
    seq(last + 1 - first, i requires 0 <= i < last + 1 - first => TermParts(first + i, row, v))
  }

  /** The formula of one row over the columns `first..last`. */
  function RowFormula(first: nat, last: nat, row: nat, v: Vocabulary): Expr
    requires first <= last
  {
    Concat(Chain(Terms(first, last, row, v), Literal(v.delimiter)))
  }

  lemma TermPrints(column: nat, row: nat, v: Vocabulary)
    ensures PrintParts(TermParts(column, row, v)) == BuildRowCheckTerm(Letters(column) + Decimal(row), v)
  {
    var p := TermParts(column, row, v);
    assert p[1..] == [p[1], p[2], p[3]];
    assert p[1..][1..] == [p[2], p[3]];
    assert p[1..][1..][1..] == [p[3]];
    assert PrintParts([p[3]]) == Print(p[3]);
    assert PrintParts([p[2], p[3]]) == Print(p[2]) + "&" + Print(p[3]);
    assert PrintParts([p[1], p[2], p[3]]) == Print(p[1]) + "&" + PrintParts([p[2], p[3]]);
    var ref := Print(p[3]);
    assert Print(IsNumber(p[3])) == Call("ISNUMBER", ref) && Print(IsLogical(p[3])) == Call("ISLOGICAL", ref);
    assert Print(TextTagExpr(p[3], v)) == Call3("IF", Call("ISLOGICAL", ref), Quoted(v.booleanTag), Quoted(v.stringTag));
    assert Print(p[1]) == Call("LEN", ref) && PrintParts(p) == Print(p[0]) + "&" + PrintParts([p[1], p[2], p[3]]);
  }

  /** The texts, joined by the delimiter's printed form, are the printed chain of the terms. */
  ghost predicate Printed(texts: seq<string>, terms: seq<seq<Expr>>, delimiter: Expr) {
    && |texts| == |terms|
    && (terms != [] ==> Chain(terms, delimiter) != [])
    && Join(texts, "&" + Print(delimiter) + "&") == PrintParts(Chain(terms, delimiter))
  }

  lemma DelimitedPrints(front: seq<Expr>, delimiter: Expr, back: seq<Expr>)
    requires front != [] && back != []
    ensures PrintParts(front + [delimiter] + back) == PrintParts(front) + ("&" + Print(delimiter) + "&") + PrintParts(back)
  {
    PrintPartsAppend(front, [delimiter]);
    PrintPartsAppend(front + [delimiter], back);
    assert PrintParts([delimiter]) == Print(delimiter);
    Assoc(PrintParts(front), "&", Print(delimiter));
    Assoc(PrintParts(front), "&" + Print(delimiter), "&");
  }

  lemma PrintedSnoc(texts: seq<string>, terms: seq<seq<Expr>>, term: seq<Expr>, delimiter: Expr)
    requires Printed(texts, terms, delimiter) && term != []
    ensures Printed(texts + [PrintParts(term)], terms + [term], delimiter)
  {
    assert (terms + [term])[..|terms|] == terms;
    if terms != [] {
      DelimitedPrints(Chain(terms, delimiter), delimiter, term);
      JoinSnoc(texts, PrintParts(term), "&" + Print(delimiter) + "&");
    }
  }

  lemma PrintedStep(texts: seq<string>, terms: seq<seq<Expr>>, first: nat, column: nat, row: nat, v: Vocabulary)
    requires first <= column && terms == Terms(first, column - 1, row, v)
    requires Printed(texts, terms, Literal(v.delimiter))
    ensures Printed(texts + [BuildRowCheckTerm(Letters(column) + Decimal(row), v)],
                    Terms(first, column, row, v), Literal(v.delimiter))
  {
    TermPrints(column, row, v);
    PrintedSnoc(texts, terms, TermParts(column, row, v), Literal(v.delimiter));
    assert Terms(first, column, row, v) == terms + [TermParts(column, row, v)];
  }

  /** Builds the formula text of one row over the columns `first..last`. */
  method BuildRowCheckFormula(first: nat, last: nat, row: nat, v: Vocabulary) returns (formula: string)
    requires 1 <= first
    ensures first <= last ==> formula == "=" + Print(RowFormula(first, last, row, v))
    ensures first > last ==> formula == "="
  {
    var terms: seq<string> := [];
    var column := first;
    while column <= last
      invariant first <= column && column <= if first <= last then last + 1 else first
      invariant Printed(terms, Terms(first, column - 1, row, v), Literal(v.delimiter))
    {
      PrintedStep(terms, Terms(first, column - 1, row, v), first, column, row, v);
      var letters := ColumnLetters(column);
      terms := terms + [BuildRowCheckTerm(letters + Decimal(row), v)];
      column := column + 1;
    }
    formula := "=" + Join(terms, "&" + Quoted(v.delimiter) + "&");
  }

  lemma TermWellFormed(column: nat, row: nat, v: Vocabulary)
    requires 1 <= column && QuoteFree(v)
    ensures Parts(TermParts(column, row, v))
    ensures var ref := Ref(Letters(column), row);
            WellFormed(IsNumber(ref)) && WellFormed(IsLogical(ref)) && WellFormed(TextTagExpr(ref, v))
  {
    var ref := Ref(Letters(column), row);
    assert WellFormed(ref);
    assert WellFormed(IsLogical(ref)) && WellFormed(IsNumber(ref));
    assert WellFormed(Literal(v.booleanTag)) && WellFormed(Literal(v.stringTag));
    assert WellFormed(TextTagExpr(ref, v));
  }

  /** What the sheet holds for a canonical cell. */
  function SheetValue(cell: RowCheck.NormalizedCell): Value {
    match cell
    case Blank => Empty
    case Str(value) => TextValue(value)
    case Number(rendered) => NumberValue(rendered)
    case Boolean(truth) => LogicalValue(truth)
    case Date(serial) => NumberValue(serial)
  }

  /** The row of the grid, from column `first` on, holds these canonical cells. */
  ghost predicate RowHolds(grid: Grid, first: nat, row: nat, cells: seq<RowCheck.NormalizedCell>) {
    forall i :: 0 <= i < |cells| ==> grid(first + i, row) == SheetValue(cells[i])
  }

  function TagText(cell: RowCheck.NormalizedCell, v: Vocabulary): string {
    match cell
    case Blank => v.stringTag
    case Str(_) => v.stringTag
    case Number(_) => v.numberTag
    case Boolean(_) => v.booleanTag
    case Date(_) => v.numberTag
  }

  /** The token text of one cell under a vocabulary. */
  function TokenText(cell: RowCheck.NormalizedCell, v: Vocabulary): string {
    var body := RowCheck.BodyOf(cell);
    TagText(cell, v) + (Decimal(|body|) + (v.lengthSeparator + body))
  }

  /** The tokens of a row under a vocabulary, in column order. */
  function TokenTexts(cells: seq<RowCheck.NormalizedCell>, v: Vocabulary): seq<string> {
    seq(|cells|, i requires 0 <= i < |cells| => TokenText(cells[i], v))
  }

  lemma {:induction false} TokenTextsAreRendered(cells: seq<RowCheck.NormalizedCell>)
    ensures TokenTexts(cells, SHEETS_VOCABULARY) == RowCheck.RenderedCells(cells)
  {
    if cells != [] {
      TokenTextIsRendered(cells[0]);
      TokenTextsAreRendered(cells[1..]);
      assert TokenTexts(cells, SHEETS_VOCABULARY)
          == [TokenText(cells[0], SHEETS_VOCABULARY)] + TokenTexts(cells[1..], SHEETS_VOCABULARY);
    }
  }

  lemma TokenTextIsRendered(cell: RowCheck.NormalizedCell)
    ensures TokenText(cell, SHEETS_VOCABULARY) == RowCheck.RenderRowCheckCell(cell)
  {
    var tag, body := RowCheck.TagOf(cell), RowCheck.BodyOf(cell);
    Assoc(tag, Decimal(|body|), RowCheck.LENGTH_SEPARATOR);
    Assoc(tag, Decimal(|body|) + RowCheck.LENGTH_SEPARATOR, body);
    Assoc(Decimal(|body|), RowCheck.LENGTH_SEPARATOR, body);
  }

  lemma TagEvaluates(ref: Expr, cell: RowCheck.NormalizedCell, v: Vocabulary, grid: Grid)
    requires QuoteFree(v) && WellFormed(ref) && Eval(ref, grid) == SheetValue(cell)
    ensures WellFormed(TagExpr(ref, v))
    ensures Eval(TagExpr(ref, v), grid) == TextValue(TagText(cell, v))
  {
    var number, logical := IsNumber(ref), IsLogical(ref);
    assert WellFormed(number) && WellFormed(logical);
    var text := TextTagExpr(ref, v);
    assert WellFormed(text.thn) && WellFormed(text.els) && WellFormed(text);
    assert Eval(number, grid) == LogicalValue(cell.Number? || cell.Date?);
    assert Eval(logical, grid) == LogicalValue(cell.Boolean?);
    assert Eval(text, grid) == TextValue(if cell.Boolean? then v.booleanTag else v.stringTag);
  }

  lemma PairEvaluates(head: Expr, tail: seq<Expr>, x: string, y: string, grid: Grid)
    requires !head.Concat? && WellFormed(head) && Parts(tail)
    requires !Eval(head, grid).ErrorValue? && Shown(Eval(head, grid)) == x
    requires EvalParts(tail, grid) == TextValue(y)
    ensures EvalParts([head] + tail, grid) == TextValue(x + y)
  {
    assert ([head] + tail)[1..] == tail;
  }

  lemma TermEvaluates(column: nat, row: nat, cell: RowCheck.NormalizedCell, v: Vocabulary, grid: Grid)
    requires 1 <= column && QuoteFree(v) && grid(column, row) == SheetValue(cell)
    ensures Parts(TermParts(column, row, v))
    ensures EvalParts(TermParts(column, row, v), grid) == TextValue(TokenText(cell, v))
  {
    TermWellFormed(column, row, v);
    var p := TermParts(column, row, v);
    LettersAddressColumn(column);
    var body := RowCheck.BodyOf(cell);
    var length := Decimal(|body|);
    assert WellFormed(p[1]) && WellFormed(p[2]) && WellFormed(p[3]);
    TagEvaluates(p[3], cell, v, grid);
    PairEvaluates(p[3], [], body, "", grid);
    assert [p[3]] + [] == [p[3]] && body + "" == body;
    PairEvaluates(p[2], [p[3]], v.lengthSeparator, body, grid);
    PairEvaluates(p[1], [p[2]] + [p[3]], length, v.lengthSeparator + body, grid);
    PairEvaluates(p[0], [p[1]] + ([p[2]] + [p[3]]), TagText(cell, v), length + (v.lengthSeparator + body), grid);
    assert p == [p[0]] + ([p[1]] + ([p[2]] + [p[3]]));
  }

  lemma DelimitedEvaluates(front: seq<Expr>, x: string, delimiter: Expr, back: seq<Expr>, y: string, grid: Grid)
    requires Parts(front) && Parts(back) && delimiter.Literal? && WellFormed(delimiter)
    requires EvalParts(front, grid) == TextValue(x) && EvalParts(back, grid) == TextValue(y)
    ensures Parts(front + [delimiter] + back)
    ensures EvalParts(front + [delimiter] + back, grid) == TextValue(x + delimiter.text + y)
  {
    PairEvaluates(delimiter, [], delimiter.text, "", grid);
    assert [delimiter] + [] == [delimiter] && delimiter.text + "" == delimiter.text;
    EvalPartsAppend(front, [delimiter], grid);
    EvalPartsAppend(front + [delimiter], back, grid);
  }

  /** Each term evaluates to the text at the same place. */
  ghost predicate Shows(terms: seq<seq<Expr>>, texts: seq<string>, grid: Grid) {
    |texts| == |terms| &&
    forall i :: 0 <= i < |terms| ==> Parts(terms[i]) && EvalParts(terms[i], grid) == TextValue(texts[i])
  }

  lemma ShowsFront(terms: seq<seq<Expr>>, texts: seq<string>, grid: Grid)
    requires terms != [] && Shows(terms, texts, grid)
    ensures Shows(terms[..|terms| - 1], texts[..|terms| - 1], grid)
  {
  }

  /** A chain of terms shows the terms' texts joined by the delimiter's text. */
  lemma {:induction false} ChainEvaluates(terms: seq<seq<Expr>>, texts: seq<string>, delimiter: Expr, grid: Grid)
    requires terms != [] && delimiter.Literal? && WellFormed(delimiter)
    requires Shows(terms, texts, grid)
    ensures Parts(Chain(terms, delimiter))
    ensures EvalParts(Chain(terms, delimiter), grid) == TextValue(Join(texts, delimiter.text))
  {
    var k := |terms| - 1;
    if k > 0 {
      var x := Join(texts[..k], delimiter.text);
      ShowsFront(terms, texts, grid);
      ChainEvaluates(terms[..k], texts[..k], delimiter, grid);
      DelimitedEvaluates(Chain(terms[..k], delimiter), x, delimiter, terms[k], texts[k], grid);
      JoinLast(texts, delimiter.text);
    }
  }

  /** The chain over two or more columns, or over one four-part term, is a concatenation. */
  lemma {:induction false} ChainIsLong(terms: seq<seq<Expr>>, delimiter: Expr)
    requires terms != [] && forall i :: 0 <= i < |terms| ==> |terms[i]| >= 2
    ensures |Chain(terms, delimiter)| >= 2
  {
  }

  lemma RowFormulaEvaluates(e: Expr, first: nat, row: nat, cells: seq<RowCheck.NormalizedCell>, v: Vocabulary, grid: Grid)
    requires 1 <= first && cells != [] && QuoteFree(v) && RowHolds(grid, first, row, cells)
    requires e == RowFormula(first, first + |cells| - 1, row, v)
    ensures WellFormed(e) && Eval(e, grid) == TextValue(Join(TokenTexts(cells, v), v.delimiter))
  {
    var terms := Terms(first, first + |cells| - 1, row, v);
    forall i | 0 <= i < |terms|
      ensures Parts(terms[i]) && EvalParts(terms[i], grid) == TextValue(TokenTexts(cells, v)[i])
    {
      TermEvaluates(first + i, row, cells[i], v, grid);
    }
    ChainEvaluates(terms, TokenTexts(cells, v), Literal(v.delimiter), grid);
    ChainIsLong(terms, Literal(v.delimiter));
  }

  /**
   The emitted text, read back as a formula and evaluated over a row, shows the length-prefixed
   token text of that row, for every quote-free vocabulary.
   */
  lemma FormulaMeaning(e: Expr, first: nat, row: nat, cells: seq<RowCheck.NormalizedCell>, v: Vocabulary, grid: Grid)
    requires 1 <= first && cells != [] && QuoteFree(v) && RowHolds(grid, first, row, cells)
    requires e == RowFormula(first, first + |cells| - 1, row, v)
    ensures ParseFormula("=" + Print(e)) == Some(e)
    ensures WellFormed(e) && Eval(e, grid) == TextValue(Join(TokenTexts(cells, v), v.delimiter))
  {
    RowFormulaEvaluates(e, first, row, cells, v, grid);
    FormulaReads(e);
  }

  /**
   Under the vocabulary the host binds, the formula of a row shows the string the host computes for the
   row's content, and it shows the same string over two contents exactly when every column has the
   same type tag and the same text in both.
   */
  lemma CheckDetectsEdits(e: Expr, first: nat, row: nat,
                          a: seq<RowCheck.NormalizedCell>, b: seq<RowCheck.NormalizedCell>, before: Grid, after: Grid)
    requires 1 <= first && a != [] && |a| == |b|
    requires e == RowFormula(first, first + |a| - 1, row, SHEETS_VOCABULARY)
    requires RowHolds(before, first, row, a) && RowHolds(after, first, row, b)
    ensures WellFormed(e) && Eval(e, before) == TextValue(RowCheck.RowCheckValue(a))
    ensures Eval(e, before) == Eval(e, after) <==> RowCheck.TokensOf(a) == RowCheck.TokensOf(b)
  {
    RowFormulaEvaluates(e, first, row, a, SHEETS_VOCABULARY, before);
    RowFormulaEvaluates(e, first, row, b, SHEETS_VOCABULARY, after);
    TokenTextsAreRendered(a);
    TokenTextsAreRendered(b);
    RowCheck.RowCheckInjective(a, b);
  }

  lemma {:induction false} ErrorPart(parts: seq<Expr>, k: nat, grid: Grid)
    requires Parts(parts)
    requires k < |parts| && Eval(parts[k], grid).ErrorValue?
    ensures EvalParts(parts, grid) == ErrorValue
  {
    if k > 0 {
      ErrorPart(parts[1..], k - 1, grid);
    }
  }

  lemma {:induction false} ChainError(terms: seq<seq<Expr>>, k: nat, delimiter: Expr, grid: Grid)
    requires k < |terms| && delimiter.Literal? && WellFormed(delimiter)
    requires forall i :: 0 <= i < |terms| ==> Parts(terms[i])
    requires EvalParts(terms[k], grid) == ErrorValue
    ensures Parts(Chain(terms, delimiter)) && EvalParts(Chain(terms, delimiter), grid) == ErrorValue
  {
    var last := |terms| - 1;
    if last > 0 {
      var front := Chain(terms[..last], delimiter);
      ChainParts(terms[..last], delimiter);
      if k < last {
        ChainError(terms[..last], k, delimiter, grid);
      }
      ErrorOnEitherSide(front, delimiter, terms[last], grid);
    }
  }

  lemma ErrorOnEitherSide(front: seq<Expr>, delimiter: Expr, back: seq<Expr>, grid: Grid)
    requires Parts(front) && Parts(back) && delimiter.Literal? && WellFormed(delimiter)
    requires EvalParts(front, grid) == ErrorValue || EvalParts(back, grid) == ErrorValue
    ensures Parts(front + [delimiter] + back) && EvalParts(front + [delimiter] + back, grid) == ErrorValue
  {
    EvalPartsAppend(front, [delimiter], grid);
    EvalPartsAppend(front + [delimiter], back, grid);
  }

  lemma {:induction false} ChainParts(terms: seq<seq<Expr>>, delimiter: Expr)
    requires delimiter.Literal? && WellFormed(delimiter)
    requires forall i :: 0 <= i < |terms| ==> Parts(terms[i])
    ensures Parts(Chain(terms, delimiter))
  {
    if |terms| > 1 {
      ChainParts(terms[..|terms| - 1], delimiter);
    }
  }

  lemma TermError(column: nat, row: nat, v: Vocabulary, grid: Grid)
    requires 1 <= column && QuoteFree(v) && grid(column, row) == ErrorValue
    ensures Parts(TermParts(column, row, v)) && EvalParts(TermParts(column, row, v), grid) == ErrorValue
  {
    TermWellFormed(column, row, v);
    LettersAddressColumn(column);
    ErrorPart(TermParts(column, row, v), 3, grid);
  }

  lemma TermsAreParts(first: nat, last: nat, row: nat, v: Vocabulary)
    requires 1 <= first <= last && QuoteFree(v)
    ensures forall i :: 0 <= i <= last - first ==> Parts(Terms(first, last, row, v)[i])
  {
    forall i | 0 <= i <= last - first
      ensures Parts(Terms(first, last, row, v)[i])
    {
      TermWellFormed(first + i, row, v);
    }
  }

  /** An error in any data column makes the whole check an error, so it can match no expected text. */
  lemma ErrorsPropagate(e: Expr, first: nat, last: nat, row: nat, bad: nat, v: Vocabulary, grid: Grid)
    requires 1 <= first <= bad <= last && QuoteFree(v)
    requires e == RowFormula(first, last, row, v)
    requires grid(bad, row) == ErrorValue
    ensures WellFormed(e) && Eval(e, grid) == ErrorValue
  {
    var terms := Terms(first, last, row, v);
    TermsAreParts(first, last, row, v);
    TermError(bad, row, v, grid);
    ChainError(terms, bad - first, Literal(v.delimiter), grid);
    ChainIsLong(terms, Literal(v.delimiter));
  }
}
