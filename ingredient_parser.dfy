/** The Smart Chef parser: the ingredient names the recipe text lists between braces. */
module IngredientParser {
  import opened PyText

  /** Position in `t` of its first brace of either kind, or |t|. */
  function FirstBrace(t: string): (j: nat)
    ensures j <= |t|
    ensures j < |t| ==> t[j] == '{' || t[j] == '}'
    ensures forall k :: 0 <= k < j ==> t[k] != '{' && t[k] != '}'
  {
    if t == [] then 0 else if t[0] == '{' || t[0] == '}' then 0 else 1 + FirstBrace(t[1..])
  }

  lemma FirstBraceIsFirstOfEither(t: string)
    ensures FirstBrace(t) == if Find(t, '{') < Find(t, '}') then Find(t, '{') else Find(t, '}')
  {
    var j := FirstBrace(t);
    if j < |t| {
      assert t[j] == '{' ==> Find(t, '{') == j;
      assert t[j] == '}' ==> Find(t, '}') == j;
    }
  }

  /** `res.split("{")[1].split("}")[0]`. */
  function BraceSpan(res: string): (span: string)
    requires '{' in res
    ensures '{' !in span && '}' !in span
  {
    SplitSecond(res, '{');
    var u := Split(res, '{')[1];
    PiecesAvoid(res, '{', '{');
    PiecesAvoid(u, '}', '{');
    PiecesAvoid(u, '}', '}');
    Split(u, '}')[0]
  }

  /** The brace span is the text after the first `{`, cut at the next brace
      of either kind, or at the end of the text. */
  lemma BraceSpanIsSlice(res: string)
    requires '{' in res
    ensures Find(res, '{') < |res|
    ensures var t := res[Find(res, '{') + 1..]; BraceSpan(res) == t[..FirstBrace(t)]
  {
    SplitSecond(res, '{');
    var t := res[Find(res, '{') + 1..];
    var u := Split(res, '{')[1];
    assert u == t[..Find(t, '{')];
    SplitFirst(u, '}');
    CutAtFirstBrace(t);
  }

  /** Cutting at the first `{` and then at the first `}` is cutting at the first brace. */
  lemma CutAtFirstBrace(t: string)
    ensures var u := t[..Find(t, '{')]; u[..Find(u, '}')] == t[..FirstBrace(t)]
  {
    FindInPrefix(t, '}', Find(t, '{'));
    FirstBraceIsFirstOfEither(t);
  }

  /** `[itm.strip() for itm in raw.split(",")]` for the brace span `raw`:
      one name per comma-separated piece. */
  function Ingredients(res: string): (names: seq<string>)
    requires '{' in res
    ensures |names| == Count(BraceSpan(res), ',') + 1
  {
    SplitCount(BraceSpan(res), ',');
    StripEach(Split(BraceSpan(res), ','))
  }

  /** No name holds a comma or a brace, or starts or ends with whitespace. */
  lemma IngredientNamesClean(res: string, k: nat)
    requires '{' in res && k < |Ingredients(res)|
    ensures var name := Ingredients(res)[k];
      ',' !in name && '{' !in name && '}' !in name &&
      (name != [] ==> !IsSpace(name[0]) && !IsSpace(name[|name| - 1]))
  {
    var span := BraceSpan(res);
    var pieces := Split(span, ',');
    var name := Ingredients(res)[k];
    assert name == Strip(pieces[k]);
    StripEnds(pieces[k]);
    StripChars(pieces[k]);
    PiecesAvoid(span, ',', ',');
    PiecesAvoid(span, ',', '{');
    PiecesAvoid(span, ',', '}');
  }

  /** Each name is its piece of the span, stripped; joined back with commas the pieces are the span. */
  lemma IngredientsArePieces(res: string)
    requires '{' in res
    ensures var pieces := Split(BraceSpan(res), ',');
            Ingredients(res) == StripEach(pieces) && Join(pieces, ',') == BraceSpan(res)
  {
    JoinSplit(BraceSpan(res), ',');
  }

  /** Blank pieces are not discarded: a piece of whitespace becomes an empty name in its place. */
  lemma BlankPiecesKept(res: string, k: nat)
    requires '{' in res
    requires k < |Split(BraceSpan(res), ',')| && AllSpace(Split(BraceSpan(res), ',')[k])
    ensures k < |Ingredients(res)| && Ingredients(res)[k] == ""
  {
    IngredientsArePieces(res);
    StripAllSpace(Split(BraceSpan(res), ',')[k]);
  }
}
