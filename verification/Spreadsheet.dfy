/** `{ColumnName}` template resolution (lib/spreadsheet.js). */
module Spreadsheet {
  import opened Wrappers

  /** One column of a row, in Object.keys order; None is null or undefined. */
  datatype Column = Column(header: string, cell: Option<string>)

  /** What the source does to both sides before comparing headers (trim, lower case); any function will do here. */
  type Fold = string -> string

  predicate IsBrace(c: char) { c == '{' || c == '}' }

  predicate BraceFree(s: string)
  {
    forall k :: 0 <= k < |s| ==> !IsBrace(s[k])
  }

  /** First brace at or after `from`. */
  function NextBrace(t: string, from: nat): (e: nat)
    requires from <= |t|
    ensures from <= e <= |t|
    ensures forall k :: from <= k < e ==> !IsBrace(t[k])
    ensures e < |t| ==> IsBrace(t[e])
    decreases |t| - from
  {
    if from == |t| || IsBrace(t[from]) then from else NextBrace(t, from + 1)
  }

  /** The regular expression matches at the head of `t`. */
  predicate MatchesHead(t: string)
  {
    && t != "" && t[0] == '{'
    && var e := NextBrace(t, 1);
       2 <= e < |t| && t[e] == '}'
  }

  /** First column whose folded header equals the folded key. */
  function FindCell(data: seq<Column>, target: string, fold: Fold): Option<string>
  {
    if data == [] then None
    else if fold(data[0].header) == target then
      Some(match data[0].cell case Some(v) => v case None => "")
    else FindCell(data[1..], target, fold)
  }

  function Image(key: string, data: seq<Column>, fold: Fold): string
  {
    match FindCell(data, fold(key), fold)
    case Some(v) => v
    case None => "{" + key + "}"
  }

  /** The global replace: scan left to right, substitute each match, continue behind it. */
  function ResolveTemplate(t: string, data: seq<Column>, fold: Fold): string
    decreases |t|
  {
    if t == "" then ""
    else if MatchesHead(t) then
      var e := NextBrace(t, 1);
      Image(t[1..e], data, fold) + ResolveTemplate(t[e + 1..], data, fold)
    else [t[0]] + ResolveTemplate(t[1..], data, fold)
  }

  /** A placeholder becomes the cell of the first column whose folded header equals its folded key, null read as
      empty; without such a column it stays as written. */
  lemma {:induction false} ImageIsLeastColumn(key: string, data: seq<Column>, fold: Fold, k: nat)
    ensures (forall m :: 0 <= m < |data| ==> fold(data[m].header) != fold(key)) ==>
              Image(key, data, fold) == "{" + key + "}"
    ensures k < |data| && fold(data[k].header) == fold(key)
            && (forall m :: 0 <= m < k ==> fold(data[m].header) != fold(key)) ==>
              Image(key, data, fold) == if data[k].cell.Some? then data[k].cell.value else ""
  {
    if data != [] {
      var rest := data[1..];
      assert forall m :: 0 <= m < |rest| ==> rest[m] == data[m + 1];
      assert forall m :: 1 <= m < |data| ==> data[m] == rest[m - 1];
      if fold(data[0].header) != fold(key) {
        ImageIsLeastColumn(key, rest, fold, if k > 0 then k - 1 else 0);
      }
    }
  }

  // ---- Declarative reading: a template is a list of pieces ----

  datatype Piece = Literal(c: char) | Hole(key: string)

  function Written(p: Piece): string
  {
    match p case Literal(c) => [c] case Hole(key) => "{" + key + "}"
  }

  function Unparse(ps: seq<Piece>): string
  {
    if ps == [] then "" else Written(ps[0]) + Unparse(ps[1..])
  }

  /** A match starts at the head exactly when some `}` follows with a non-empty brace-free key in between. */
  lemma MatchIsNextBrace(t: string)
    ensures MatchesHead(t) <==>
              t != "" && t[0] == '{' && exists e :: 2 <= e < |t| && t[e] == '}' && BraceFree(t[1..e])
  {
    if MatchesHead(t) {
      var e := NextBrace(t, 1);
      assert BraceFree(t[1..e]) by {
        forall k | 0 <= k < |t[1..e]| ensures !IsBrace(t[1..e][k]) {
          assert t[1..e][k] == t[k + 1];
        }
      }
    } else if t != "" && t[0] == '{' {
      forall e | 2 <= e < |t| && t[e] == '}' ensures !BraceFree(t[1..e]) {
        var n := NextBrace(t, 1);
        if n < e {
          assert t[1..e][n - 1] == t[n];
        }
      }
    }
  }

  /** Holes carry non-empty brace-free keys and no literal piece starts a match of the remaining text. */
  ghost predicate Canonical(ps: seq<Piece>)
  {
    ps != [] ==> PieceFits(ps[0], Unparse(ps[1..])) && Canonical(ps[1..])
  }

  ghost predicate PieceFits(p: Piece, rest: string)
  {
    match p
    case Hole(key) => key != "" && BraceFree(key)
    case Literal(c) => !MatchesHead([c] + rest)
  }

  function Tokenize(t: string): seq<Piece>
    decreases |t|
  {
    if t == "" then []
    else if MatchesHead(t) then
      var e := NextBrace(t, 1);
      [Hole(t[1..e])] + Tokenize(t[e + 1..])
    else [Literal(t[0])] + Tokenize(t[1..])
  }

  lemma HeadSplits(t: string)
    requires MatchesHead(t)
    ensures var e := NextBrace(t, 1);
            && t[1..e] != "" && BraceFree(t[1..e])
            && t == "{" + t[1..e] + "}" + t[e + 1..]
  {
    var e := NextBrace(t, 1);
    forall k | 0 <= k < |t[1..e]| ensures !IsBrace(t[1..e][k]) {
      assert t[1..e][k] == t[k + 1];
    }
  }

  lemma UnparseCons(p: Piece, ps: seq<Piece>)
    ensures Unparse([p] + ps) == Written(p) + Unparse(ps)
    ensures Canonical([p] + ps) <==> PieceFits(p, Unparse(ps)) && Canonical(ps)
  {
    assert ([p] + ps)[1..] == ps;
  }

  /** Segmentation loses nothing and is canonical. */
  lemma {:induction false} TokenizeIsLossless(t: string)
    ensures Unparse(Tokenize(t)) == t && Canonical(Tokenize(t))
    decreases |t|
  {
    if t != "" {
      if MatchesHead(t) {
        var e := NextBrace(t, 1);
        TokenizeIsLossless(t[e + 1..]);
        HeadSplits(t);
        hide MatchesHead, Canonical, Unparse;
        UnparseCons(Hole(t[1..e]), Tokenize(t[e + 1..]));
      } else {
        TokenizeIsLossless(t[1..]);
        assert t == [t[0]] + t[1..];
        hide MatchesHead, Canonical, Unparse;
        UnparseCons(Literal(t[0]), Tokenize(t[1..]));
      }
    }
  }

  lemma HoleAtHead(key: string, rest: string)
    requires key != "" && BraceFree(key)
    ensures var t := "{" + key + "}" + rest;
            MatchesHead(t) && NextBrace(t, 1) == |key| + 1 && t[1..|key| + 1] == key && t[|key| + 2..] == rest
  {
    var t := "{" + key + "}" + rest;
    var e := NextBrace(t, 1);
    assert t[|key| + 1] == '}';
    assert forall k :: 0 <= k < |key| ==> t[k + 1] == key[k];
    assert forall k :: 1 <= k < |key| + 1 ==> !IsBrace(t[k]);
    assert e == |key| + 1;
  }

  lemma TokenizeAtHole(key: string, rest: string)
    requires key != "" && BraceFree(key)
    ensures var t := "{" + key + "}" + rest;
            Tokenize(t) == [Hole(key)] + Tokenize(rest)
  {
    HoleAtHead(key, rest);
    hide MatchesHead, NextBrace, BraceFree;
  }

  lemma TokenizeAtLiteral(c: char, rest: string)
    requires !MatchesHead([c] + rest)
    ensures Tokenize([c] + rest) == [Literal(c)] + Tokenize(rest)
  {
    hide MatchesHead, NextBrace;
    assert ([c] + rest)[1..] == rest;
  }

  /** Segmentation is unique: the canonical pieces that write `t` are the ones the scan finds. */
  lemma {:induction false} TokenizeIsUnique(ps: seq<Piece>)
    requires Canonical(ps)
    ensures Tokenize(Unparse(ps)) == ps
  {
    if ps != [] {
      assert ps == [ps[0]] + ps[1..];
      UnparseCons(ps[0], ps[1..]);
      hide Canonical, Unparse, Tokenize, MatchesHead, BraceFree;
      TokenizeIsUnique(ps[1..]);
      match ps[0]
      case Hole(key) => TokenizeAtHole(key, Unparse(ps[1..]));
      case Literal(c) => TokenizeAtLiteral(c, Unparse(ps[1..]));
    }
  }

  function Render(ps: seq<Piece>, data: seq<Column>, fold: Fold): string
  {
    if ps == [] then ""
    else (match ps[0] case Literal(c) => [c] case Hole(key) => Image(key, data, fold)) + Render(ps[1..], data, fold)
  }

  lemma ResolveAtHole(key: string, rest: string, data: seq<Column>, fold: Fold)
    requires key != "" && BraceFree(key)
    ensures ResolveTemplate("{" + key + "}" + rest, data, fold)
            == Image(key, data, fold) + ResolveTemplate(rest, data, fold)
  {
    HoleAtHead(key, rest);
    hide MatchesHead, NextBrace, BraceFree, Image;
  }

  lemma ResolveAtLiteral(c: char, rest: string, data: seq<Column>, fold: Fold)
    requires !MatchesHead([c] + rest)
    ensures ResolveTemplate([c] + rest, data, fold) == [c] + ResolveTemplate(rest, data, fold)
  {
    hide MatchesHead, NextBrace, Image;
    assert ([c] + rest)[1..] == rest;
  }

  /** Single pass: the output is the concatenation of the images of the template's own pieces, so an
      inserted value is never scanned again. */
  lemma {:induction false} OutputIsConcatenatedImages(ps: seq<Piece>, data: seq<Column>, fold: Fold)
    requires Canonical(ps)
    ensures ResolveTemplate(Unparse(ps), data, fold) == Render(ps, data, fold)
  {
    if ps != [] {
      assert ps == [ps[0]] + ps[1..];
      UnparseCons(ps[0], ps[1..]);
      hide Canonical, Unparse, ResolveTemplate, MatchesHead, BraceFree, Image;
      OutputIsConcatenatedImages(ps[1..], data, fold);
      match ps[0]
      case Hole(key) => ResolveAtHole(key, Unparse(ps[1..]), data, fold);
      case Literal(c) => ResolveAtLiteral(c, Unparse(ps[1..]), data, fold);
    }
  }

  /** A template none of whose placeholders names a column comes back unchanged. */
  lemma UnresolvableTemplateIsUnchanged(t: string, data: seq<Column>, fold: Fold)
    requires forall p :: p in Tokenize(t) && p.Hole? ==> FindCell(data, fold(p.key), fold) == None
    ensures ResolveTemplate(t, data, fold) == t
  {
    TokenizeIsLossless(t);
    OutputIsConcatenatedImages(Tokenize(t), data, fold);
    RenderUnresolved(Tokenize(t), data, fold);
  }

  lemma {:induction false} RenderUnresolved(ps: seq<Piece>, data: seq<Column>, fold: Fold)
    requires forall p :: p in ps && p.Hole? ==> FindCell(data, fold(p.key), fold) == None
    ensures Render(ps, data, fold) == Unparse(ps)
  {
    if ps != [] {
      assert ps[0] in ps;
      RenderUnresolved(ps[1..], data, fold);
    }
  }

  // ---- Resolving twice ----

  /** The first brace of `t` is a closing one. */
  function Closing(t: string): bool
  {
    t != "" && (t[0] == '}' || (t[0] != '{' && Closing(t[1..])))
  }

  lemma {:induction false} ClosingIsNextBrace(t: string, from: nat)
    requires from <= |t|
    ensures Closing(t[from..]) <==> NextBrace(t, from) < |t| && t[NextBrace(t, from)] == '}'
    decreases |t| - from
  {
    if from < |t| {
      assert t[from..][1..] == t[from + 1..];
      ClosingIsNextBrace(t, from + 1);
    }
  }

  /** An opening brace starts a match iff a closing one comes next, but not at once. */
  lemma MatchAfterOpen(t: string)
    ensures MatchesHead("{" + t) <==> Closing(t) && t[0] != '}'
  {
    var u := "{" + t;
    assert u[1..] == t;
    ClosingIsNextBrace(u, 1);
    if t != "" {
      assert u[1] == t[0];
    }
  }

  /** Behind an opening brace: the next literal brace closes it, with some hole in between. */
  predicate ClosesAroundHole(ps: seq<Piece>, sawHole: bool)
  {
    ps != [] &&
    match ps[0]
    case Hole(_) => ClosesAroundHole(ps[1..], true)
    case Literal(c) => if c == '}' then sawHole else c != '{' && ClosesAroundHole(ps[1..], sawHole)
  }

  /** Some literal `{` is closed by the next literal brace around a hole. */
  predicate Sandwich(ps: seq<Piece>)
  {
    ps != [] && ((ps[0] == Literal('{') && ClosesAroundHole(ps[1..], false)) || Sandwich(ps[1..]))
  }

  /** What a piece is in the output: a resolved hole is plain text, an unresolved one a hole still. */
  function Expanded(p: Piece, data: seq<Column>, fold: Fold): seq<Piece>
  {
    match p
    case Literal(_) => [p]
    case Hole(key) => match FindCell(data, fold(key), fold) case Some(v) => Literals(v) case None => [p]
  }

  function Literals(v: string): (ps: seq<Piece>)
    ensures |ps| == |v| && forall k :: 0 <= k < |v| ==> ps[k] == Literal(v[k])
  {
    seq(|v|, k requires 0 <= k < |v| => Literal(v[k]))
  }

  function Expand(ps: seq<Piece>, data: seq<Column>, fold: Fold): seq<Piece>
  {
    if ps == [] then [] else Expanded(ps[0], data, fold) + Expand(ps[1..], data, fold)
  }

  /** The cells of the columns the holes name hold no brace. */
  ghost predicate NamedCellsBraceFree(ps: seq<Piece>, data: seq<Column>, fold: Fold)
  {
    forall p :: p in ps && p.Hole? ==>
      match FindCell(data, fold(p.key), fold) case Some(v) => BraceFree(v) case None => true
  }

  lemma {:induction false} UnparseConcat(a: seq<Piece>, b: seq<Piece>)
    ensures Unparse(a + b) == Unparse(a) + Unparse(b)
  {
    if a == [] {
      assert a + b == b;
    } else {
      assert (a + b)[1..] == a[1..] + b;
      UnparseConcat(a[1..], b);
    }
  }

  lemma {:induction false} UnparseLiterals(v: string)
    ensures Unparse(Literals(v)) == v
  {
    if v != "" {
      assert Literals(v)[1..] == Literals(v[1..]);
      UnparseLiterals(v[1..]);
      assert v == [v[0]] + v[1..];
    }
  }

  /** The output is what the expanded pieces write. */
  lemma {:induction false} RenderIsExpansion(ps: seq<Piece>, data: seq<Column>, fold: Fold)
    ensures Render(ps, data, fold) == Unparse(Expand(ps, data, fold))
  {
    if ps != [] {
      RenderIsExpansion(ps[1..], data, fold);
      UnparseConcat(Expanded(ps[0], data, fold), Expand(ps[1..], data, fold));
      ImageIsExpanded(ps[0], data, fold);
    }
  }

  lemma ImageIsExpanded(p: Piece, data: seq<Column>, fold: Fold)
    ensures Unparse(Expanded(p, data, fold)) ==
              match p case Literal(c) => [c] case Hole(key) => Image(key, data, fold)
  {
    match p
    case Literal(c) => assert Unparse([p]) == [c];
    case Hole(key) =>
      match FindCell(data, fold(key), fold)
      case Some(v) => UnparseLiterals(v);
      case None => assert Unparse([p]) == "{" + key + "}";
  }

  lemma {:induction false} ClosingSkips(v: string, rest: string)
    requires BraceFree(v)
    ensures Closing(v + rest) <==> Closing(rest)
  {
    if v == "" {
      assert v + rest == rest;
    } else {
      assert (v + rest)[1..] == v[1..] + rest;
      ClosingSkips(v[1..], rest);
    }
  }

  /** The output behind some point closes only if the template's literals do. */
  lemma {:induction false} ExpansionCloses(ps: seq<Piece>, data: seq<Column>, fold: Fold)
    requires NamedCellsBraceFree(ps, data, fold)
    ensures Closing(Unparse(Expand(ps, data, fold))) ==> ClosesAroundHole(ps, true)
  {
    if ps != [] {
      assert forall p :: p in ps[1..] ==> p in ps;
      ExpansionCloses(ps[1..], data, fold);
      var rest := Unparse(Expand(ps[1..], data, fold));
      UnparseConcat(Expanded(ps[0], data, fold), Expand(ps[1..], data, fold));
      ImageIsExpanded(ps[0], data, fold);
      match ps[0]
      case Literal(c) => assert ([c] + rest)[1..] == rest;
      case Hole(key) =>
        assert ps[0] in ps;
        match FindCell(data, fold(key), fold)
        case Some(v) => ClosingSkips(v, rest);
        case None =>
    }
  }

  /** Without a hole in between, the output closes as the template does. */
  lemma {:induction false} NoHoleNoChange(ps: seq<Piece>, data: seq<Column>, fold: Fold)
    requires ClosesAroundHole(ps, true) && !ClosesAroundHole(ps, false)
    ensures Closing(Unparse(ps)) && Unparse(Expand(ps, data, fold)) != "" && Unparse(ps) != ""
    ensures Unparse(Expand(ps, data, fold))[0] == Unparse(ps)[0]
  {
    match ps[0]
    case Hole(_) =>
    case Literal(c) =>
      UnparseConcat([ps[0]], Expand(ps[1..], data, fold));
      assert Unparse([ps[0]]) == [c];
      assert Unparse(ps)[1..] == Unparse(ps[1..]);
      if c != '}' {
        NoHoleNoChange(ps[1..], data, fold);
      }
  }

  /** Behind a literal `{` that no sandwich follows, the output does not match either. */
  lemma OpenStaysLiteral(ps: seq<Piece>, data: seq<Column>, fold: Fold)
    requires NamedCellsBraceFree(ps, data, fold) && !ClosesAroundHole(ps, false) && !MatchesHead("{" + Unparse(ps))
    ensures !MatchesHead("{" + Unparse(Expand(ps, data, fold)))
  {
    MatchAfterOpen(Unparse(Expand(ps, data, fold)));
    MatchAfterOpen(Unparse(ps));
    ExpansionCloses(ps, data, fold);
    if ClosesAroundHole(ps, true) {
      NoHoleNoChange(ps, data, fold);
    }
  }

  lemma OtherCharsFit(c: char, rest: string)
    requires c != '{'
    ensures PieceFits(Literal(c), rest)
  {
  }

  lemma LiteralsCons(v: string)
    requires v != ""
    ensures Literals(v) == [Literal(v[0])] + Literals(v[1..])
    ensures BraceFree(v) ==> v[0] != '{' && BraceFree(v[1..])
  {
  }

  lemma {:induction false} BraceFreeIsCanonical(v: string, rest: seq<Piece>)
    requires BraceFree(v) && Canonical(rest)
    ensures Canonical(Literals(v) + rest)
  {
    hide *;
    if v == "" {
      assert Literals(v) + rest == rest;
    } else {
      LiteralsCons(v);
      var tail := Literals(v[1..]) + rest;
      assert Literals(v) + rest == [Literal(v[0])] + tail;
      BraceFreeIsCanonical(v[1..], rest);
      UnparseCons(Literal(v[0]), tail);
      OtherCharsFit(v[0], Unparse(tail));
    }
  }

  /** Without a sandwich the expanded pieces are the output's own pieces. */
  lemma {:induction false} ExpansionIsCanonical(ps: seq<Piece>, data: seq<Column>, fold: Fold)
    requires Canonical(ps) && !Sandwich(ps) && NamedCellsBraceFree(ps, data, fold)
    ensures Canonical(Expand(ps, data, fold))
  {
    if ps != [] {
      assert forall p :: p in ps[1..] ==> p in ps;
      ExpansionIsCanonical(ps[1..], data, fold);
      var rest := Expand(ps[1..], data, fold);
      match ps[0]
      case Literal(c) =>
        UnparseCons(ps[0], rest);
        if c == '{' {
          OpenStaysLiteral(ps[1..], data, fold);
        }
      case Hole(key) =>
        assert ps[0] in ps;
        match FindCell(data, fold(key), fold)
        case Some(v) => BraceFreeIsCanonical(v, rest);
        case None => UnparseCons(ps[0], rest);
    }
  }

  lemma {:induction false} NothingLeftToResolve(ps: seq<Piece>, data: seq<Column>, fold: Fold)
    ensures forall p :: p in Expand(ps, data, fold) && p.Hole? ==> FindCell(data, fold(p.key), fold) == None
  {
    if ps != [] {
      NothingLeftToResolve(ps[1..], data, fold);
      forall p | p in Expanded(ps[0], data, fold) && p.Hole? ensures FindCell(data, fold(p.key), fold) == None {
      }
    }
  }

  /** A template without a sandwich, over cells without a brace: the second pass changes nothing. */
  lemma SecondPassIsHarmless(t: string, data: seq<Column>, fold: Fold)
    requires !Sandwich(Tokenize(t)) && NamedCellsBraceFree(Tokenize(t), data, fold)
    ensures ResolveTemplate(ResolveTemplate(t, data, fold), data, fold) == ResolveTemplate(t, data, fold)
  {
    hide *;
    var ps := Tokenize(t);
    TokenizeIsLossless(t);
    OutputIsConcatenatedImages(ps, data, fold);
    RenderIsExpansion(ps, data, fold);
    ExpansionIsCanonical(ps, data, fold);
    NothingLeftToResolve(ps, data, fold);
    TokenizeIsUnique(Expand(ps, data, fold));
    UnresolvableTemplateIsUnchanged(Unparse(Expand(ps, data, fold)), data, fold);
  }

  /** A template whose literal text holds no brace has no sandwich. */
  lemma {:induction false} PlainTextHasNoSandwich(ps: seq<Piece>)
    requires forall p :: p in ps && p.Literal? ==> !IsBrace(p.c)
    ensures !Sandwich(ps)
  {
    if ps != [] {
      assert ps[0] in ps && forall p :: p in ps[1..] ==> p in ps;
      PlainTextHasNoSandwich(ps[1..]);
    }
  }

  // ---- The other half: a sandwich is harmful over some sheet ----

  /** A sheet whose every cell is "y". */
  function Columns(keys: seq<string>): seq<Column>
  {
    seq(|keys|, k requires 0 <= k < |keys| => Column(keys[k], Some("y")))
  }

  lemma {:induction false} ColumnsAreFound(keys: seq<string>, key: string, fold: Fold)
    ensures var found := FindCell(Columns(keys), fold(key), fold);
            (found == None || found == Some("y")) && (key in keys ==> found == Some("y"))
  {
    if keys != [] {
      assert Columns(keys)[1..] == Columns(keys[1..]);
      ColumnsAreFound(keys[1..], key, fold);
    }
  }

  function KeysOf(ps: seq<Piece>): (keys: seq<string>)
    ensures forall p :: p in ps && p.Hole? ==> p.key in keys
  {
    if ps == [] then [] else (match ps[0] case Hole(key) => [key] case Literal(_) => []) + KeysOf(ps[1..])
  }

  /** Every hole filled with "y". */
  function Filled(ps: seq<Piece>): seq<Piece>
  {
    if ps == [] then [] else [match ps[0] case Hole(_) => Literal('y') case Literal(_) => ps[0]] + Filled(ps[1..])
  }

  lemma {:induction false} FilledIsExpanded(ps: seq<Piece>, data: seq<Column>, fold: Fold)
    requires forall p :: p in ps && p.Hole? ==> FindCell(data, fold(p.key), fold) == Some("y")
    ensures Expand(ps, data, fold) == Filled(ps)
  {
    if ps != [] {
      assert ps[0] in ps && forall p :: p in ps[1..] ==> p in ps;
      FilledIsExpanded(ps[1..], data, fold);
      assert Literals("y") == [Literal('y')];
    }
  }

  lemma UnparseLiteralHead(c: char, ps: seq<Piece>)
    ensures Unparse([Literal(c)] + ps) == [c] + Unparse(ps)
  {
    UnparseCons(Literal(c), ps);
  }

  lemma {:induction false} FilledCloses(ps: seq<Piece>, sawHole: bool)
    requires ClosesAroundHole(ps, sawHole)
    ensures var u := Unparse(Filled(ps)); Closing(u) && (!sawHole ==> u[0] != '}')
  {
    var rest := Filled(ps[1..]);
    match ps[0]
    case Hole(_) =>
      FilledCloses(ps[1..], true);
      UnparseLiteralHead('y', rest);
      assert (['y'] + Unparse(rest))[1..] == Unparse(rest);
    case Literal(c) =>
      UnparseLiteralHead(c, rest);
      assert ([c] + Unparse(rest))[1..] == Unparse(rest);
      if c != '}' {
        FilledCloses(ps[1..], sawHole);
      }
  }

  /** The scan would find a match somewhere. */
  predicate HasMatch(t: string)
  {
    t != "" && (MatchesHead(t) || HasMatch(t[1..]))
  }

  lemma {:induction false} FilledSandwichMatches(ps: seq<Piece>)
    requires Sandwich(ps)
    ensures HasMatch(Unparse(Filled(ps)))
  {
    var rest := Filled(ps[1..]);
    UnparseLiteralHead(if ps[0].Hole? then 'y' else ps[0].c, rest);
    if ps[0] == Literal('{') && ClosesAroundHole(ps[1..], false) {
      FilledCloses(ps[1..], false);
      MatchAfterOpen(Unparse(rest));
    } else {
      FilledSandwichMatches(ps[1..]);
      assert Unparse(Filled(ps))[1..] == Unparse(rest);
    }
  }

  lemma {:induction false} LiteralsDoNotMatch(ps: seq<Piece>)
    requires Canonical(ps) && forall p :: p in ps ==> p.Literal?
    ensures !HasMatch(Unparse(ps))
  {
    if ps != [] {
      assert ps[0] in ps && forall p :: p in ps[1..] ==> p in ps;
      LiteralsDoNotMatch(ps[1..]);
      assert ps == [ps[0]] + ps[1..];
      UnparseLiteralHead(ps[0].c, ps[1..]);
      assert Unparse(ps)[1..] == Unparse(ps[1..]);
    }
  }

  /** Filling holes with "y" only shortens, and does where there is one to fill. */
  lemma {:induction false} FillingShortens(ps: seq<Piece>, keys: seq<string>, fold: Fold)
    ensures |Render(ps, Columns(keys), fold)| <= |Unparse(ps)|
    ensures (exists p :: p in ps && p.Hole? && p.key in keys) ==> |Render(ps, Columns(keys), fold)| < |Unparse(ps)|
  {
    if ps != [] {
      FillingShortens(ps[1..], keys, fold);
      if ps[0].Hole? {
        ColumnsAreFound(keys, ps[0].key, fold);
      }
      if p :| p in ps && p.Hole? && p.key in keys && p != ps[0] {
        assert p in ps[1..];
      }
    }
  }

  lemma SandwichIsHarmful(t: string, fold: Fold) returns (data: seq<Column>)
    requires Sandwich(Tokenize(t))
    ensures NamedCellsBraceFree(Tokenize(t), data, fold)
    ensures ResolveTemplate(ResolveTemplate(t, data, fold), data, fold) != ResolveTemplate(t, data, fold)
  {
    hide Sandwich, Canonical, HasMatch, Render, Unparse, Filled, Expand, FindCell, ResolveTemplate, Tokenize, Columns;
    var ps := Tokenize(t);
    var out := Unparse(Filled(ps));
    var qs := Tokenize(out);
    TokenizeIsLossless(out);
    FilledSandwichMatches(ps);
    if forall p :: p in qs ==> p.Literal? {
      LiteralsDoNotMatch(qs);
    }
    var hole :| hole in qs && hole.Hole?;
    var keys := KeysOf(ps) + [hole.key];
    data := Columns(keys);
    forall p | p in ps && p.Hole? ensures FindCell(data, fold(p.key), fold) == Some("y") {
      ColumnsAreFound(keys, p.key, fold);
    }
    TokenizeIsLossless(t);
    OutputIsConcatenatedImages(ps, data, fold);
    RenderIsExpansion(ps, data, fold);
    FilledIsExpanded(ps, data, fold);
    OutputIsConcatenatedImages(qs, data, fold);
    FillingShortens(qs, keys, fold);
  }

  /** Exactly the templates without a sandwich can be resolved again without harm over all sheets whose cells, as far
      as the template names them, hold no brace. */
  lemma SecondPassIsHarmlessIff(t: string, fold: Fold)
    ensures (forall data :: NamedCellsBraceFree(Tokenize(t), data, fold) ==>
               ResolveTemplate(ResolveTemplate(t, data, fold), data, fold) == ResolveTemplate(t, data, fold))
            <==> !Sandwich(Tokenize(t))
  {
    hide *;
    if Sandwich(Tokenize(t)) {
      var data := SandwichIsHarmful(t, fold);
    } else {
      forall data | NamedCellsBraceFree(Tokenize(t), data, fold)
        ensures ResolveTemplate(ResolveTemplate(t, data, fold), data, fold) == ResolveTemplate(t, data, fold)
      {
        SecondPassIsHarmless(t, data, fold);
      }
    }
  }

  lemma TwoColumns(a: string, b: string, fold: Fold)
    requires fold("x") != fold("y")
    ensures var data := [Column("x", Some(a)), Column("y", Some(b))];
            Image("x", data, fold) == a && Image("y", data, fold) == b
  {
    var data := [Column("x", Some(a)), Column("y", Some(b))];
    assert data[1..] == [Column("y", Some(b))];
    assert FindCell(data[1..], fold("y"), fold) == Some(b);
    assert FindCell(data, fold("y"), fold) == Some(b);
  }

  lemma OneHole(key: string, data: seq<Column>, fold: Fold)
    requires key != "" && BraceFree(key)
    ensures ResolveTemplate("{" + key + "}", data, fold) == Image(key, data, fold)
    ensures Tokenize("{" + key + "}") == [Hole(key)] && !Sandwich([Hole(key)])
  {
    var ps := [Hole(key)];
    assert ps[1..] == [];
    assert Unparse(ps) == "{" + key + "}";
    assert Canonical(ps);
    hide ResolveTemplate, Tokenize, Canonical, Unparse;
    TokenizeIsUnique(ps);
    OutputIsConcatenatedImages(ps, data, fold);
  }

  /** The cells matter too: without a sandwich, a cell with braces is a placeholder for the second pass. */
  lemma BracesInCellsAreHarmful(fold: Fold)
    requires fold("x") != fold("y")
    ensures var data := [Column("x", Some("{y}")), Column("y", Some("z"))];
            && !Sandwich(Tokenize("{x}"))
            && ResolveTemplate("{x}", data, fold) == "{y}" && ResolveTemplate("{y}", data, fold) == "z"
  {
    hide *;
    assert "{" + "x" + "}" == "{x}" && "{" + "y" + "}" == "{y}";
    NoBraceIn("x");
    NoBraceIn("y");
    TwoColumns("{y}", "z", fold);
    OneHole("x", [Column("x", Some("{y}")), Column("y", Some("z"))], fold);
    OneHole("y", [Column("x", Some("{y}")), Column("y", Some("z"))], fold);
  }

  lemma NoBraceIn(key: string)
    requires key == "x" || key == "y"
    ensures BraceFree(key)
  {
  }

  lemma BracedHole(key: string, data: seq<Column>, fold: Fold)
    requires key != "" && BraceFree(key)
    ensures ResolveTemplate("{" + ("{" + key + "}") + "}", data, fold) == "{" + Image(key, data, fold) + "}"
  {
    var tail := [Literal('}')];
    assert tail == tail + [] && Canonical([]);
    UnparseCons(Literal('}'), []);
    OtherCharsFit('}', "");
    assert Unparse(tail) == "}" && Render(tail, data, fold) == "}" && Canonical(tail);
    var inner := [Hole(key)] + tail;
    assert inner[1..] == tail;
    UnparseCons(Hole(key), tail);
    var ps := [Literal('{')] + inner;
    assert ps[1..] == inner;
    UnparseCons(Literal('{'), inner);
    MatchAfterOpen(Unparse(inner));
    hide MatchesHead, BraceFree, ResolveTemplate, Image;
    OutputIsConcatenatedImages(ps, data, fold);
    assert Unparse(ps) == "{" + ("{" + key + "}") + "}";
    assert Render(ps, data, fold) == "{" + Image(key, data, fold) + "}";
  }

  /** And so do the braces of the template: a value can complete a placeholder around it. */
  lemma ResolvingTwiceDiffers(fold: Fold)
    requires fold("x") != fold("y")
    ensures var data := [Column("x", Some("y")), Column("y", Some("z"))];
            var once := ResolveTemplate("{{x}}", data, fold);
            once == "{y}" && ResolveTemplate(once, data, fold) == "z"
  {
    hide *;
    var data := [Column("x", Some("y")), Column("y", Some("z"))];
    assert "{" + ("{" + "x" + "}") + "}" == "{{x}}" && "{" + "y" + "}" == "{y}";
    NoBraceIn("x");
    NoBraceIn("y");
    TwoColumns("y", "z", fold);
    BracedHole("x", data, fold);
    OneHole("y", data, fold);
  }
}
