/**
 The row-check encoding: the host renders one length-prefixed, type-tagged token
 per data column and joins the tokens with a delimiter.
 */
module RowCheck {
  import opened Text

  const DELIMITER := "|"
  const LENGTH_SEPARATOR := ":"
  const STRING_TAG := "s"
  const NUMBER_TAG := "n"
  const BOOLEAN_TAG := "b"

  /** A canonical cell. Numbers and date serials carry the text they render to. */
  datatype NormalizedCell =
    | Blank
    | Str(value: string)
    | Number(rendered: string)
    | Boolean(truth: bool)
    | Date(serial: string)

  function TagOf(cell: NormalizedCell): (tag: string)
    ensures |tag| == 1
  {
    match cell
    case Blank => STRING_TAG
    case Str(_) => STRING_TAG
    case Number(_) => NUMBER_TAG
    case Boolean(_) => BOOLEAN_TAG
    case Date(_) => NUMBER_TAG
  }

  function BodyOf(cell: NormalizedCell): string {
    match cell
    case Blank => ""
    case Str(value) => value
    case Number(rendered) => rendered
    case Boolean(truth) => if truth then "TRUE" else "FALSE"
    case Date(serial) => serial
  }

  function RowCheckToken(tag: string, body: string): string {
    tag + Decimal(|body|) + LENGTH_SEPARATOR + body
  }

  function RenderRowCheckCell(cell: NormalizedCell): string {
    RowCheckToken(TagOf(cell), BodyOf(cell))
  }

  /** The rendered tokens of a row, in column order. */
  function RenderedCells(cells: seq<NormalizedCell>): (tokens: seq<string>)
    ensures |tokens| == |cells|
  {
    if cells == [] then [] else [RenderRowCheckCell(cells[0])] + RenderedCells(cells[1..])
  }

  lemma {:induction false} RenderedSnoc(cells: seq<NormalizedCell>, last: NormalizedCell)
    ensures RenderedCells(cells + [last]) == RenderedCells(cells) + [RenderRowCheckCell(last)]
  {
    if cells == [] {
      assert cells + [last] == [last];
    } else {
      assert (cells + [last])[1..] == cells[1..] + [last];
      RenderedSnoc(cells[1..], last);
    }
  }

  function RowCheckValue(cells: seq<NormalizedCell>): string {
    Join(RenderedCells(cells), DELIMITER)
  }

  /** The expected check string, or none as soon as one column is not derivable. */
  method ComputeRowCheckValue(cells: seq<Option<NormalizedCell>>) returns (value: Option<string>)
    ensures value.None? <==> exists i :: 0 <= i < |cells| && cells[i].None?
    ensures value.Some? ==> value.value == RowCheckValue(seq(|cells|, i requires 0 <= i < |cells| && cells[i].Some? => cells[i].value))
  {
    var parts: seq<string> := [];
    ghost var known: seq<NormalizedCell> := [];
    for k := 0 to |cells|
      invariant |known| == k && parts == RenderedCells(known)
      invariant forall i :: 0 <= i < k ==> cells[i] == Some(known[i])
    {
      if cells[k].None? {
        return None;
      }
      RenderedSnoc(known, cells[k].value);
      known := known + [cells[k].value];
      parts := parts + [RenderRowCheckCell(cells[k].value)];
    }
    assert known == seq(|cells|, i requires 0 <= i < |cells| && cells[i].Some? => cells[i].value);
    return Some(Join(parts, DELIMITER));
  }

  // ---- A decoder that inverts the encoding ----

  /** What one column contributes to the check: its type tag and its text. */
  datatype Token = Token(tag: char, body: string)

  function TokenOf(cell: NormalizedCell): Token {
    Token(TagOf(cell)[0], BodyOf(cell))
  }

  function TokensOf(cells: seq<NormalizedCell>): seq<Token> {
    if cells == [] then [] else [TokenOf(cells[0])] + TokensOf(cells[1..])
  }

  /** Reads one token off the front of `s`. */
  function DecodeToken(s: string): (r: Option<(Token, string)>)
    ensures r.Some? ==> |r.value.1| < |s|
  {
    if s == "" then None
    else
      var n := Run(IsDigit, s[1..]);
      var afterLength := s[1 + n..];
      if n == 0 || afterLength == "" || afterLength[..1] != LENGTH_SEPARATOR then None
      else
        var length := DigitsValue(s[1..][..n]);
        if length > |afterLength| - 1 then None
        else Some((Token(s[0], afterLength[1..1 + length]), afterLength[1 + length..]))
  }

  function Decode(s: string): Option<seq<Token>> {
    match DecodeToken(s)
    case None => None
    case Some((token, rest)) =>
      if rest == "" then Some([token])
      else if rest[..1] != DELIMITER then None
      else match Decode(rest[1..])
        case None => None
        case Some(tokens) => Some([token] + tokens)
  }

  lemma DecodeTokenInverts(tag: string, body: string, rest: string)
    requires |tag| == 1
    ensures DecodeToken(RowCheckToken(tag, body) + rest) == Some((Token(tag[0], body), rest))
  {
    var digits := Decimal(|body|);
    var s := RowCheckToken(tag, body) + rest;
    var tail := LENGTH_SEPARATOR + body + rest;
    assert s[1..] == digits + tail;
    RunOfPrefix(IsDigit, digits, tail);
    assert s[1..][..|digits|] == digits;
    assert s[1 + |digits|..] == tail;
    DecimalDenotes(|body|);
    assert tail[1..1 + |body|] == body;
    assert tail[1 + |body|..] == rest;
  }

  lemma DecodeStep(s: string, token: Token, rest: string, more: string, tokens: seq<Token>)
    requires DecodeToken(s) == Some((token, rest)) && rest == DELIMITER + more
    requires Decode(more) == Some(tokens)
    ensures Decode(s) == Some([token] + tokens)
  {
    assert rest[..1] == DELIMITER && rest[1..] == more;
  }

  lemma RowCheckValueCons(cells: seq<NormalizedCell>)
    requires |cells| > 1
    ensures RowCheckValue(cells) == RenderRowCheckCell(cells[0]) + (DELIMITER + RowCheckValue(cells[1..]))
  {
    assert RenderedCells(cells)[1..] == RenderedCells(cells[1..]);
  }

  /** Decoding a row's check string gives back each column's tag and text, whatever the texts hold. */
  lemma {:induction false} DecodeInverts(cells: seq<NormalizedCell>)
    requires cells != []
    ensures Decode(RowCheckValue(cells)) == Some(TokensOf(cells))
  {
    if |cells| == 1 {
      DecodeLast(cells);
    } else {
      var more := RowCheckValue(cells[1..]);
      RowCheckValueCons(cells);
      DecodeTokenInverts(TagOf(cells[0]), BodyOf(cells[0]), DELIMITER + more);
      DecodeInverts(cells[1..]);
      DecodeStep(RowCheckValue(cells), TokenOf(cells[0]), DELIMITER + more, more, TokensOf(cells[1..]));
    }
  }

  lemma DecodeLast(cells: seq<NormalizedCell>)
    requires |cells| == 1
    ensures Decode(RowCheckValue(cells)) == Some(TokensOf(cells))
  {
    var token := RenderRowCheckCell(cells[0]);
    DecodeTokenInverts(TagOf(cells[0]), BodyOf(cells[0]), "");
    assert token + "" == token;
    assert cells[1..] == [] && RowCheckValue(cells) == token;
    assert TokensOf(cells) == [TokenOf(cells[0])];
  }

  /** Two rows have the same check string exactly when every column shows the same tag and text. */
  lemma RowCheckInjective(a: seq<NormalizedCell>, b: seq<NormalizedCell>)
    ensures RowCheckValue(a) == RowCheckValue(b) <==> TokensOf(a) == TokensOf(b)
  {
    SameTokensSameRendering(a, b);
    if a != [] {
      DecodeInverts(a);
    }
    if b != [] {
      DecodeInverts(b);
    }
  }

  lemma {:induction false} SameTokensSameRendering(a: seq<NormalizedCell>, b: seq<NormalizedCell>)
    ensures TokensOf(a) == TokensOf(b) ==> RenderedCells(a) == RenderedCells(b)
  {
    if TokensOf(a) == TokensOf(b) && a != [] && b != [] {
      assert TokensOf(a)[0] == TokensOf(b)[0] && TokensOf(a)[1..] == TokensOf(b)[1..];
      assert TagOf(a[0]) == TagOf(b[0]);
      SameTokensSameRendering(a[1..], b[1..]);
    }
  }
}
