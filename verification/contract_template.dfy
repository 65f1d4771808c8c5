/** The Solidity source template `MEME_COIN_CONTRACT` and the facts about it
    that rendering relies on. */
module ContractTemplate {
  import opened JsText
  import opened TemplateText

  predicate BraceFree(s: string) {
    forall i | 0 <= i < |s| :: s[i] != '{'
  }

  /** The text of a placeholder after its opening brace. */
  function PatternTail(h: Placeholder): Literal {
    match h
    case TokenName => "TOKEN_NAME}"
    case TokenSymbol => "TOKEN_SYMBOL}"
    case TotalSupply => "TOTAL_SUPPLY}"
  }

  /** The literal text of each placeholder, which the render matches. */
  function Pattern(h: Placeholder): (p: string)
    ensures |p| >= 8 && p[0] == '{' && p[1] == 'T'
  {
    "{" + PatternTail(h)
  }

  function PieceText(p: Piece): string {
    match p
    case Text(s) => s
    case OpenBrace => "{\n"
    case Hole(h) => Pattern(h)
  }

  /** The text a sequence of pieces stands for. */
  function Flat(ps: seq<Piece>): string {
    if ps == [] then "" else PieceText(ps[0]) + Flat(ps[1..])
  }

  /** The value each placeholder is meant to receive. */
  function Value(h: Placeholder, name: string, symbol: string, supply: string): string {
    match h
    case TokenName => name
    case TokenSymbol => symbol
    case TotalSupply => supply
  }

  /** The text with every placeholder filled with its value: the reference the
      render is measured against. */
  function Fill(ps: seq<Piece>, name: string, symbol: string, supply: string): string {
    if ps == [] then "" else Filled(ps[0], name, symbol, supply) + Fill(ps[1..], name, symbol, supply)
  }

  /** One piece with its placeholder, if any, filled. */
  function Filled(p: Piece, name: string, symbol: string, supply: string): string {
    if p.Hole? then Value(p.h, name, symbol, supply) else PieceText(p)
  }

  /** The pieces with every occurrence of one placeholder turned into text. */
  function Substitute(ps: seq<Piece>, target: Placeholder, rep: Literal): (r: seq<Piece>)
    ensures |r| == |ps|
  {
    if ps == [] then []
    else [if ps[0] == Hole(target) then Text(rep) else ps[0]] + Substitute(ps[1..], target, rep)
  }

  /** How many times a placeholder appears among the pieces. */
  function HoleCount(ps: seq<Piece>, h: Placeholder): nat {
    if ps == [] then 0 else (if ps[0] == Hole(h) then 1 else 0) + HoleCount(ps[1..], h)
  }

  lemma {:induction false} HoleCountAppend(a: seq<Piece>, b: seq<Piece>, h: Placeholder)
    ensures HoleCount(a + b, h) == HoleCount(a, h) + HoleCount(b, h)
  {
    if a != [] {
      assert (a + b)[1..] == a[1..] + b;
      HoleCountAppend(a[1..], b, h);
    } else {
      assert a + b == b;
    }
  }

  /** `MEME_COIN_CONTRACT`. */
  function MemeCoinContract(): string {
    Flat(TemplatePieces())
  }

  // ---------------------------------------------------------------------------
  // How the left-to-right scan of a global replace walks over the pieces

  lemma {:induction false} ScanLiteral(a: Literal, b: string, pat: string, rep: string)
    requires |pat| > 0 && pat[0] == '{'
    ensures ReplaceAll(a + b, pat, rep) == a + ReplaceAll(b, pat, rep)
    ensures Occurrences(a + b, pat) == Occurrences(b, pat)
    decreases |a|
  {
    if a != [] {
      var s := a + b;
      assert s[0] == a[0] != '{';
      assert |s| >= |pat| ==> s[..|pat|][0] != pat[0];
      assert s[1..] == a[1..] + b;
      ScanLiteral(a[1..], b, pat, rep);
    } else {
      assert a + b == b;
    }
  }

  lemma ScanOpenBrace(b: string, pat: string, rep: string)
    requires |pat| >= 2 && pat[0] == '{' && pat[1] != '\n'
    ensures ReplaceAll("{\n" + b, pat, rep) == "{\n" + ReplaceAll(b, pat, rep)
    ensures Occurrences("{\n" + b, pat) == Occurrences(b, pat)
  {
    var newline: Literal := "\n";
    assert "{" + newline == "{\n";
    assert |"{" + newline + b| >= |pat| ==> ("{" + newline + b)[..|pat|][1] != pat[1];
    ScanUnmatchedBrace(newline, b, pat, rep);
  }

  /** Two different placeholders differ at index 3 or at index 7. */
  lemma PatternsDiffer(h: Placeholder, target: Placeholder)
    requires h != target
    ensures var k := if h == TotalSupply || target == TotalSupply then 3 else 7;
      Pattern(h)[k] != Pattern(target)[k]
  {
  }

  lemma ScanSamePlaceholder(h: Placeholder, b: string, rep: string)
    ensures ReplaceAll(Pattern(h) + b, Pattern(h), rep) == rep + ReplaceAll(b, Pattern(h), rep)
    ensures Occurrences(Pattern(h) + b, Pattern(h)) == 1 + Occurrences(b, Pattern(h))
  {
    var s, pat := Pattern(h) + b, Pattern(h);
    assert s[..|pat|] == pat;
    assert s[|pat|..] == b;
  }

  /** A placeholder never starts a match of another placeholder. */
  lemma OtherPlaceholderNoMatch(h: Placeholder, b: string, target: Placeholder)
    requires h != target
    ensures var s, pat := Pattern(h) + b, Pattern(target);
      |s| >= |pat| ==> s[..|pat|] != pat
  {
    var s, pat := Pattern(h) + b, Pattern(target);
    PatternsDiffer(h, target);
    if |s| >= |pat| {
      var k := if h == TotalSupply || target == TotalSupply then 3 else 7;
      assert s[..|pat|][k] == Pattern(h)[k];
    }
  }

  lemma ScanOtherPlaceholder(h: Placeholder, b: string, target: Placeholder, rep: string)
    requires h != target
    ensures ReplaceAll(Pattern(h) + b, Pattern(target), rep) == Pattern(h) + ReplaceAll(b, Pattern(target), rep)
    ensures Occurrences(Pattern(h) + b, Pattern(target)) == Occurrences(b, Pattern(target))
  {
    OtherPlaceholderNoMatch(h, b, target);
    ScanUnmatchedBrace(PatternTail(h), b, Pattern(target), rep);
  }

  /** A `{` that does not start a match, followed by text without `{`, is
      passed over by the scan. */
  lemma ScanUnmatchedBrace(tail: Literal, b: string, pat: string, rep: string)
    requires |pat| > 0 && pat[0] == '{'
    requires |"{" + tail + b| >= |pat| ==> ("{" + tail + b)[..|pat|] != pat
    ensures ReplaceAll("{" + tail + b, pat, rep) == "{" + tail + ReplaceAll(b, pat, rep)
    ensures Occurrences("{" + tail + b, pat) == Occurrences(b, pat)
  {
    var s := "{" + tail + b;
    ScanLiteral(tail, b, pat, rep);
    assert s[1..] == tail + b;
    if |s| >= |pat| {
      var r := ReplaceAll(b, pat, rep);
      assert ReplaceAll(s, pat, rep) == [s[0]] + (tail + r);
      assert [s[0]] + (tail + r) == "{" + tail + r;
    } else {
      assert ReplaceAll(b, pat, rep) == b;
    }
  }

  lemma ScanPlaceholder(h: Placeholder, b: string, target: Placeholder, rep: string)
    ensures ReplaceAll(Pattern(h) + b, Pattern(target), rep)
         == (if h == target then rep else Pattern(h)) + ReplaceAll(b, Pattern(target), rep)
    ensures Occurrences(Pattern(h) + b, Pattern(target))
         == (if h == target then 1 else 0) + Occurrences(b, Pattern(target))
  {
    if h == target {
      ScanSamePlaceholder(h, b, rep);
    } else {
      ScanOtherPlaceholder(h, b, target, rep);
    }
  }

  lemma ScanPiece(p: Piece, b: string, target: Placeholder, rep: Literal)
    ensures ReplaceAll(PieceText(p) + b, Pattern(target), rep)
         == PieceText(if p == Hole(target) then Text(rep) else p) + ReplaceAll(b, Pattern(target), rep)
    ensures Occurrences(PieceText(p) + b, Pattern(target))
         == (if p == Hole(target) then 1 else 0) + Occurrences(b, Pattern(target))
  {
    match p
    case Text(s) => ScanLiteral(s, b, Pattern(target), rep);
    case OpenBrace => ScanOpenBrace(b, Pattern(target), rep);
    case Hole(h) => ScanPlaceholder(h, b, target, rep);
  }

  /** A global replace of one placeholder over the text of well-formed pieces
      replaces exactly the pieces that are that placeholder. */
  lemma {:induction false} ReplaceAllFlat(ps: seq<Piece>, target: Placeholder, rep: Literal)
    ensures ReplaceAll(Flat(ps), Pattern(target), rep) == Flat(Substitute(ps, target, rep))
  {
    if ps != [] {
      ScanPiece(ps[0], Flat(ps[1..]), target, rep);
      ReplaceAllFlat(ps[1..], target, rep);
    }
  }

  /** The scan finds a placeholder exactly as often as it appears among the
      pieces. */
  lemma {:induction false} OccurrencesFlat(ps: seq<Piece>, target: Placeholder)
    ensures Occurrences(Flat(ps), Pattern(target)) == HoleCount(ps, target)
  {
    if ps != [] {
      ScanPiece(ps[0], Flat(ps[1..]), target, "");
      OccurrencesFlat(ps[1..], target);
      assert ps == [ps[0]] + ps[1..];
    }
  }

  /** The pieces after all three placeholders are substituted. */
  function SubstituteAll(ps: seq<Piece>, name: Literal, symbol: Literal, supply: Literal): seq<Piece> {
    Substitute(Substitute(Substitute(ps, TokenName, name), TokenSymbol, symbol), TotalSupply, supply)
  }

  lemma SubstituteAllHead(ps: seq<Piece>, name: Literal, symbol: Literal, supply: Literal)
    requires ps != []
    ensures SubstituteAll(ps, name, symbol, supply)
         == [match ps[0] case Hole(h) => Text(Value(h, name, symbol, supply)) case _ => ps[0]]
            + SubstituteAll(ps[1..], name, symbol, supply)
  {
    var s1 := Substitute(ps, TokenName, name);
    var s2 := Substitute(s1, TokenSymbol, symbol);
    assert s1[1..] == Substitute(ps[1..], TokenName, name);
    assert s2[1..] == Substitute(s1[1..], TokenSymbol, symbol);
  }

  /** Substituting the three placeholders one after the other gives the filled
      text. */
  lemma {:induction false} SubstituteAllFills(ps: seq<Piece>, name: Literal, symbol: Literal, supply: Literal)
    ensures Flat(SubstituteAll(ps, name, symbol, supply)) == Fill(ps, name, symbol, supply)
  {
    if ps != [] {
      var r := SubstituteAll(ps, name, symbol, supply);
      SubstituteAllHead(ps, name, symbol, supply);
      SubstituteAllFills(ps[1..], name, symbol, supply);
      assert r[1..] == SubstituteAll(ps[1..], name, symbol, supply);
    }
  }

  /** Substituting the three placeholders leaves no placeholder behind. */
  lemma {:induction false} SubstituteAllNoHoles(ps: seq<Piece>, name: Literal, symbol: Literal, supply: Literal, h: Placeholder)
    ensures HoleCount(SubstituteAll(ps, name, symbol, supply), h) == 0
  {
    if ps != [] {
      var r := SubstituteAll(ps, name, symbol, supply);
      SubstituteAllHead(ps, name, symbol, supply);
      SubstituteAllNoHoles(ps[1..], name, symbol, supply, h);
      assert r == [r[0]] + r[1..];
    }
  }

  lemma {:induction false} FlatAppend(a: seq<Piece>, b: seq<Piece>)
    ensures Flat(a + b) == Flat(a) + Flat(b)
  {
    if a != [] {
      assert (a + b)[1..] == a[1..] + b;
      FlatAppend(a[1..], b);
    } else {
      assert a + b == b;
    }
  }

  lemma {:induction false} FillAppend(a: seq<Piece>, b: seq<Piece>, name: string, symbol: string, supply: string)
    ensures Fill(a + b, name, symbol, supply) == Fill(a, name, symbol, supply) + Fill(b, name, symbol, supply)
  {
    if a != [] {
      assert (a + b)[1..] == a[1..] + b;
      FillAppend(a[1..], b, name, symbol, supply);
      var head := Filled(a[0], name, symbol, supply);
      assert Fill(a + b, name, symbol, supply) == head + Fill(a[1..] + b, name, symbol, supply);
      assert Fill(a, name, symbol, supply) == head + Fill(a[1..], name, symbol, supply);
    } else {
      assert a + b == b;
    }
  }

  /** How often the template uses each placeholder: the token name twice
      (the contract name and the ERC20 name), the symbol and the supply once. */
  function Uses(h: Placeholder): nat {
    if h == TokenName then 2 else 1
  }

  /** The scan finds each placeholder in the template as often as the
      template uses it. */
  lemma TemplatePlaceholders(h: Placeholder)
    ensures Occurrences(MemeCoinContract(), Pattern(h)) == Uses(h)
  {
    OccurrencesFlat(TemplatePieces(), h);
    TemplateHoleCounts(h);
  }

  lemma TemplateHoleCounts(h: Placeholder)
    ensures HoleCount(TemplatePieces(), h) == Uses(h)
  {
    LayoutHoleCount(Template(), h);
  }

  /** Every template of this shape holds each placeholder as often as the
      template uses it. */
  lemma LayoutHoleCount(t: TemplateParts, h: Placeholder)
    ensures HoleCount(Layout(t), h) == Uses(h)
  {
    var line8 := t.contractHead + [Hole(TokenName)] + t.contractTail;
    var line9 := t.supplyHead + [Hole(TotalSupply)] + t.supplyTail;
    var line15 := t.constructorHead + [Hole(TokenName)] + t.separator + [Hole(TokenSymbol)] + t.constructorTail;
    OneHoleLineCount(t.contractHead, TokenName, t.contractTail, h);
    OneHoleLineCount(t.supplyHead, TotalSupply, t.supplyTail, h);
    TwoHoleLineCount(t.constructorHead, TokenName, t.separator, TokenSymbol, t.constructorTail, h);
    FixedHoleFree(t.preamble, h);
    HoleCountAppend(t.preamble, line8, h);
    HoleCountAppend(t.preamble + line8, line9, h);
    AppendFixedCount(t.preamble + line8 + line9, t.limits, h);
    HoleCountAppend(t.preamble + line8 + line9 + t.limits, line15, h);
    AppendFixedCount(t.preamble + line8 + line9 + t.limits + line15, t.constructorBody, h);
    AppendFixedCount(t.preamble + line8 + line9 + t.limits + line15 + t.constructorBody, t.hook, h);
    AppendFixedCount(t.preamble + line8 + line9 + t.limits + line15 + t.constructorBody + t.hook, t.admin, h);
  }

  /** A hole-free tail adds no placeholder. */
  lemma AppendFixedCount(a: seq<Piece>, b: Fixed, h: Placeholder)
    ensures HoleCount(a + b, h) == HoleCount(a, h)
  {
    HoleCountAppend(a, b, h);
    FixedHoleFree(b, h);
  }

  /** A line with one placeholder between hole-free text. */
  lemma OneHoleLineCount(a: Fixed, x: Placeholder, b: Fixed, h: Placeholder)
    ensures HoleCount(a + [Hole(x)] + b, h) == if x == h then 1 else 0
  {
    FixedHoleFree(a, h);
    assert HoleCount([Hole(x)], h) == if x == h then 1 else 0;
    HoleCountAppend(a, [Hole(x)], h);
    AppendFixedCount(a + [Hole(x)], b, h);
  }

  /** A line with two placeholders between hole-free text. */
  lemma TwoHoleLineCount(a: Fixed, x: Placeholder, m: Fixed, y: Placeholder, b: Fixed, h: Placeholder)
    ensures HoleCount(a + [Hole(x)] + m + [Hole(y)] + b, h) == (if x == h then 1 else 0) + (if y == h then 1 else 0)
  {
    OneHoleLineCount(a, x, m, h);
    assert HoleCount([Hole(y)], h) == if y == h then 1 else 0;
    HoleCountAppend(a + [Hole(x)] + m, [Hole(y)], h);
    AppendFixedCount(a + [Hole(x)] + m + [Hole(y)], b, h);
  }

  lemma {:induction false} FixedHoleFree(ps: Fixed, h: Placeholder)
    ensures HoleCount(ps, h) == 0
  {
    if ps != [] {
      var rest: Fixed := ps[1..];
      FixedHoleFree(rest, h);
    }
  }

  /** Hole-free pieces fill to their own text. */
  lemma {:induction false} FillFixed(ps: Fixed, name: string, symbol: string, supply: string)
    ensures Fill(ps, name, symbol, supply) == Flat(ps)
  {
    if ps != [] {
      var rest: Fixed := ps[1..];
      FillFixed(rest, name, symbol, supply);
    }
  }

  /** A hole-free tail fills to its own text. */
  lemma AppendFixedFill(a: seq<Piece>, b: Fixed, name: string, symbol: string, supply: string)
    ensures Fill(a + b, name, symbol, supply) == Fill(a, name, symbol, supply) + Flat(b)
  {
    FillAppend(a, b, name, symbol, supply);
    FillFixed(b, name, symbol, supply);
  }

  /** A line with one placeholder fills to its text with the value in
      place of the placeholder. */
  lemma OneHoleLineFill(a: Fixed, x: Placeholder, b: Fixed, name: string, symbol: string, supply: string)
    ensures Fill(a + [Hole(x)] + b, name, symbol, supply) == Flat(a) + Value(x, name, symbol, supply) + Flat(b)
  {
    FillFixed(a, name, symbol, supply);
    assert Fill([Hole(x)], name, symbol, supply) == Value(x, name, symbol, supply);
    FillAppend(a, [Hole(x)], name, symbol, supply);
    AppendFixedFill(a + [Hole(x)], b, name, symbol, supply);
  }

  /** A line with two placeholders fills to its text with both values in
      place. */
  lemma TwoHoleLineFill(a: Fixed, x: Placeholder, m: Fixed, y: Placeholder, b: Fixed,
                        name: string, symbol: string, supply: string)
    ensures Fill(a + [Hole(x)] + m + [Hole(y)] + b, name, symbol, supply)
         == Flat(a) + Value(x, name, symbol, supply) + Flat(m) + Value(y, name, symbol, supply) + Flat(b)
  {
    OneHoleLineFill(a, x, m, name, symbol, supply);
    assert Fill([Hole(y)], name, symbol, supply) == Value(y, name, symbol, supply);
    FillAppend(a + [Hole(x)] + m, [Hole(y)], name, symbol, supply);
    AppendFixedFill(a + [Hole(x)] + m + [Hole(y)], b, name, symbol, supply);
  }

  /** Filling a template of this shape keeps the text of every part and puts
      the contract name on line 8, the supply on line 9, and the ERC20 name
      and symbol on line 15. */
  lemma FillLayout(t: TemplateParts, name: string, symbol: string, supply: string)
    ensures Fill(Layout(t), name, symbol, supply)
         == Flat(t.preamble)
            + (Flat(t.contractHead) + name + Flat(t.contractTail))
            + (Flat(t.supplyHead) + supply + Flat(t.supplyTail))
            + Flat(t.limits)
            + (Flat(t.constructorHead) + name + Flat(t.separator) + symbol + Flat(t.constructorTail))
            + Flat(t.constructorBody) + Flat(t.hook) + Flat(t.admin)
  {
    var line8 := t.contractHead + [Hole(TokenName)] + t.contractTail;
    var line9 := t.supplyHead + [Hole(TotalSupply)] + t.supplyTail;
    var line15 := t.constructorHead + [Hole(TokenName)] + t.separator + [Hole(TokenSymbol)] + t.constructorTail;
    OneHoleLineFill(t.contractHead, TokenName, t.contractTail, name, symbol, supply);
    OneHoleLineFill(t.supplyHead, TotalSupply, t.supplyTail, name, symbol, supply);
    TwoHoleLineFill(t.constructorHead, TokenName, t.separator, TokenSymbol, t.constructorTail, name, symbol, supply);
    FillFixed(t.preamble, name, symbol, supply);
    FillAppend(t.preamble, line8, name, symbol, supply);
    FillAppend(t.preamble + line8, line9, name, symbol, supply);
    AppendFixedFill(t.preamble + line8 + line9, t.limits, name, symbol, supply);
    FillAppend(t.preamble + line8 + line9 + t.limits, line15, name, symbol, supply);
    AppendFixedFill(t.preamble + line8 + line9 + t.limits + line15, t.constructorBody, name, symbol, supply);
    AppendFixedFill(t.preamble + line8 + line9 + t.limits + line15 + t.constructorBody, t.hook, name, symbol, supply);
    AppendFixedFill(t.preamble + line8 + line9 + t.limits + line15 + t.constructorBody + t.hook, t.admin,
                    name, symbol, supply);
  }
}
