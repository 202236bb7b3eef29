/** The shopping list: records keyed item, qty, user_price, ai_price, bought,
    kept in one worksheet and changed in place by the shopping and Smart Chef tabs. */
module Shopping {
  import opened SheetCells
  import opened PyText
  import opened IngredientParser

  /** One shopping record. `aiPrice` is None on the records the app creates,
      which have no "ai_price" key. */
  datatype Item = Item(name: Cell, qty: Cell, userPrice: Cell, aiPrice: Option<Cell>, bought: Cell)

  /** The header row `save_shopping` writes; records are read back keyed by it. */
  const SHOPPING_HEADER: seq<string> := ["item", "qty", "user_price", "ai_price", "bought"]

  /** The record the "Add" button appends: named as typed, not bought, so the
      next "Clear Bought Items" keeps it. */
  function NewItem(name: string, qty: string): (r: Item)
    ensures r.name == Text(name) && r.qty == Text(qty) && r.aiPrice == None
    ensures !Truthy(r.bought) && Unbought([r]) == [r]
  {
    Item(Text(name), Text(qty), Number(0), None, Flag(false))
  }

  /** The records the Smart Chef parser appends for the names `names`. */
  function IngredientItems(names: seq<string>): (r: seq<Item>)
    ensures |r| == |names|
    ensures forall k :: 0 <= k < |r| ==> r[k] == NewItem(names[k], "1")
  {
    seq(|names|, k requires 0 <= k < |names| => NewItem(names[k], "1"))
  }

  /** One more name adds one more record at the end. */
  lemma IngredientItemsSnoc(names: seq<string>, i: nat)
    requires i < |names|
    ensures IngredientItems(names[..i + 1]) == IngredientItems(names[..i]) + [NewItem(names[i], "1")]
  {
    assert names[..i + 1][i] == names[i];
  }

  /** The records the Smart Chef parser appends for a recipe text `res`:
      none without a `{`, otherwise one per comma-separated piece of the brace span. */
  function RecipeItems(res: string): (r: seq<Item>)
    ensures '{' !in res ==> r == []
    ensures '{' in res ==> |r| == Count(BraceSpan(res), ',') + 1
    ensures forall k :: 0 <= k < |r| ==>
      r[k].qty == Text("1") && r[k].userPrice == Number(0) && r[k].aiPrice == None && r[k].bought == Flag(false)
  {
    if '{' in res then IngredientItems(Ingredients(res)) else []
  }

  /** The k-th record Smart Chef appends is named by the k-th comma-separated piece, stripped. */
  lemma RecipeItemNames(res: string, k: nat)
    requires '{' in res && k < |RecipeItems(res)|
    ensures k < |Split(BraceSpan(res), ',')|
    ensures RecipeItems(res)[k].name == Text(Strip(Split(BraceSpan(res), ',')[k]))
  {
    IngredientsArePieces(res);
  }

  /** The load step's `bought` rule: a string becomes True exactly when it
      upper-cases to "TRUE", and any other value is kept. */
  function NormalisedBought(v: Cell): (r: Cell)
    ensures r.Flag? || r.Number?
    ensures IsString(v) ==> r.Flag?
    ensures r == Flag(true) <==> v == Flag(true) || IsTrueString(v)
    ensures !IsString(v) ==> r == v
  {
    if IsString(v) then Flag(IsTrueString(v)) else v
  }

  lemma NormaliseIdempotent(v: Cell)
    ensures NormalisedBought(NormalisedBought(v)) == NormalisedBought(v)
  {
  }

  /** A bool the sheet shows as "TRUE" or "FALSE" is read back as that bool. */
  lemma StoredFlagRestored(b: bool)
    ensures NormalisedBought(Text(if b then "TRUE" else "FALSE")) == Flag(b)
  {
    SpellsTrueExactly(if b then "TRUE" else "FALSE");
  }

  /** The loop of `load_data` that normalises `bought` on every loaded record. */
  method NormaliseLoaded(records: seq<Item>) returns (out: seq<Item>)
    ensures |out| == |records|
    ensures forall k :: 0 <= k < |records| ==>
      out[k] == records[k].(bought := NormalisedBought(records[k].bought))
  {
    out := records;
    var i := 0;
    while i < |out|
      invariant 0 <= i <= |out| == |records|
      invariant forall k :: 0 <= k < i ==> out[k] == records[k].(bought := NormalisedBought(records[k].bought))
      invariant forall k :: i <= k < |out| ==> out[k] == records[k]
    {
      if IsString(out[i].bought) {
        out := out[i := out[i].(bought := Flag(IsTrueString(out[i].bought)))];
      }
      i := i + 1;
    }
  }

  /** The `ai_price` cell written for a record: its own, or 0. */
  function AiPriceOrZero(x: Item): Cell {
    match x.aiPrice
    case Some(p) => p
    case None => Number(0)
  }

  /** The row `save_shopping` writes for one record, in header order; a
      record without `ai_price` gets 0 in that column. */
  function RowOf(x: Item): (r: seq<Cell>)
    ensures |r| == |SHOPPING_HEADER|
    ensures x.aiPrice.None? ==> r[3] == Number(0)
  {
    [x.name, x.qty, x.userPrice, AiPriceOrZero(x), x.bought]
  }

  /** A row read back as a record keyed by the header. */
  function RecordOf(row: seq<Cell>): Item
    requires |row| == |SHOPPING_HEADER|
  {
    Item(row[0], row[1], row[2], Some(row[3]), row[4])
  }

  /** The row layout loses nothing but the absence of `ai_price`, which comes back as 0. */
  lemma RowRoundTrip(x: Item)
    ensures |RowOf(x)| == |SHOPPING_HEADER|
    ensures RecordOf(RowOf(x)) == x.(aiPrice := Some(AiPriceOrZero(x)))
    ensures x.aiPrice.Some? ==> RecordOf(RowOf(x)) == x
  {
  }

  /** The loop of `save_shopping` that builds one row per record, in list order. */
  method BuildRows(list: seq<Item>) returns (rows: seq<seq<Cell>>)
    ensures |rows| == |list|
    ensures forall k :: 0 <= k < |list| ==> rows[k] == RowOf(list[k])
  {
    rows := [];
    var i := 0;
    while i < |list|
      invariant 0 <= i <= |list| && |rows| == i
      invariant forall k :: 0 <= k < i ==> rows[k] == RowOf(list[k])
    {
      rows := rows + [[list[i].name, list[i].qty, list[i].userPrice, AiPriceOrZero(list[i]), list[i].bought]];
      i := i + 1;
    }
  }

  /** `[x for x in s if not x["bought"]]`. */
  function Unbought(s: seq<Item>): (r: seq<Item>)
    ensures |r| <= |s|
    decreases |s|
  {
    if s == [] then []
    else (if Truthy(s[0].bought) then [] else [s[0]]) + Unbought(s[1..])
  }

  /** Clearing keeps exactly the records that are not bought. */
  lemma {:induction false} UnboughtMembers(s: seq<Item>)
    ensures forall x :: x in Unbought(s) <==> x in s && !Truthy(x.bought)
    decreases |s|
  {
    if s != [] {
      UnboughtMembers(s[1..]);
      assert s == [s[0]] + s[1..];
    }
  }

  /** Clearing keeps the original order: it distributes over concatenation. */
  lemma {:induction false} UnboughtAppend(a: seq<Item>, b: seq<Item>)
    ensures Unbought(a + b) == Unbought(a) + Unbought(b)
    decreases |a|
  {
    if a == [] {
      assert a + b == b;
    } else {
      assert (a + b)[1..] == a[1..] + b;
      UnboughtAppend(a[1..], b);
    }
  }

  /** Clearing changes nothing exactly when nothing is bought. */
  lemma {:induction false} UnboughtIdentity(s: seq<Item>)
    ensures Unbought(s) == s <==> forall k :: 0 <= k < |s| ==> !Truthy(s[k].bought)
    decreases |s|
  {
    if s != [] {
      UnboughtIdentity(s[1..]);
      if Truthy(s[0].bought) {
        assert |Unbought(s)| < |s|;
      } else {
        assert forall k :: 1 <= k < |s| ==> s[1..][k - 1] == s[k];
      }
    }
  }

  /** Clearing twice is clearing once. */
  lemma UnboughtIdempotent(s: seq<Item>)
    ensures Unbought(Unbought(s)) == Unbought(s)
  {
    var r := Unbought(s);
    UnboughtMembers(s);
    assert forall k :: 0 <= k < |r| ==> r[k] in r;
    UnboughtIdentity(r);
  }

  /** After clearing, no record is bought. */
  lemma ClearedHasNothingBought(s: seq<Item>)
    ensures forall k :: 0 <= k < |Unbought(s)| ==> !Truthy(Unbought(s)[k].bought)
  {
    var r := Unbought(s);
    UnboughtMembers(s);
    assert forall k :: 0 <= k < |r| ==> r[k] in r;
  }

  /** Records just added from a recipe survive the next clear, after the unbought records already there. */
  lemma ClearKeepsRecipeItems(s: seq<Item>, res: string)
    ensures Unbought(s + RecipeItems(res)) == Unbought(s) + RecipeItems(res)
  {
    var added := RecipeItems(res);
    UnboughtAppend(s, added);
    UnboughtIdentity(added);
  }

  /** A row whose checkbox was ticked is gone after the next clear; the rest are cleared as before. */
  lemma ClearRemovesTicked(s: seq<Item>, i: nat)
    requires i < |s|
    ensures Unbought(s[i := s[i].(bought := Flag(true))]) == Unbought(s[..i]) + Unbought(s[i + 1..])
  {
    var x := s[i].(bought := Flag(true));
    var t := s[i := x];
    assert t == (s[..i] + [x]) + s[i + 1..];
    UnboughtAppend(s[..i] + [x], s[i + 1..]);
    UnboughtAppend(s[..i], [x]);
    assert Unbought([x]) == [] + Unbought([x][1..]);
    assert [x][1..] == [];
  }

  /** Once every checkbox matches its row, "Clear Bought Items" keeps exactly
      the rows whose checkbox is not ticked. */
  lemma ClearMatchesCheckboxes(s: seq<Item>, checks: seq<bool>)
    requires |checks| == |s|
    requires forall k :: 0 <= k < |s| ==> EqualsBool(s[k].bought, checks[k])
    ensures forall x :: x in Unbought(s) <==> exists k :: 0 <= k < |s| && s[k] == x && !checks[k]
  {
    UnboughtMembers(s);
    forall k | 0 <= k < |s| ensures Truthy(s[k].bought) == checks[k] {
      EqualsBoolIsTruthy(s[k].bought, checks[k]);
    }
  }

  /** The button, if any, whose click started this run of the Smart Chef tab.
      A Streamlit button reads True only in the run its own click starts, so
      at most one button is True in a run. */
  datatype ChefClick = NoClick | ClickGenerate | ClickAddToList

  /** The Smart Chef tab as written, for the reply `res` that "Generate" fetches:
      "Add to List" is only drawn inside the "Generate" branch, so adding needs
      both buttons to be True in the same run. */
  function ChefRunAsWritten(items: seq<Item>, res: string, click: ChefClick): (r: seq<Item>)
    ensures |items| <= |r| && r[..|items|] == items
    ensures '{' !in res ==> r == items
  {
    var generate := click == ClickGenerate;
    var addToList := click == ClickAddToList;
    if generate && '{' in res && addToList then items + RecipeItems(res) else items
  }

  /** As written, the parsed ingredients never reach the list, although the
      reply names at least one. */
  lemma AddToListNeverAdds(items: seq<Item>, res: string, click: ChefClick)
    requires '{' in res
    ensures RecipeItems(res) != []
    ensures ChefRunAsWritten(items, res, click) == items
    ensures ChefRunAsWritten(items, res, click) != items + RecipeItems(res)
  {
    assert |items + RecipeItems(res)| > |items|;
  }

  /** The tab's state across runs when the reply is kept (in session state). */
  datatype Chef = Chef(items: seq<Item>, reply: Option<string>)

  /** The Smart Chef tab as evidently intended: "Generate" keeps its reply, and
      "Add to List" is drawn on later runs and appends that reply's ingredients. */
  function ChefRun(c: Chef, res: string, click: ChefClick): (r: Chef)
    ensures click == ClickGenerate ==> r == c.(reply := Some(res))
    ensures click != ClickAddToList ==> r.items == c.items
    ensures click == ClickAddToList ==> r.reply == c.reply
  {
    match click
    case NoClick => c
    case ClickGenerate => c.(reply := Some(res))
    case ClickAddToList =>
      if c.reply.Some? then c.(items := c.items + RecipeItems(c.reply.value)) else c
  }

  /** Clicking "Generate" and then "Add to List" appends exactly the reply's
      ingredient records, after the list as it was. */
  lemma GenerateThenAdd(c: Chef, res: string, later: string)
    requires '{' in res
    ensures var r := ChefRun(ChefRun(c, res, ClickGenerate), later, ClickAddToList);
      r.items == c.items + RecipeItems(res) && |r.items| > |c.items|
  {
  }

  /** `app_data["shopping_list"]`, changed in place by the shopping and Smart Chef tabs. */
  class ShoppingList {
    var items: seq<Item>

    /** The list `load_data` produces: the worksheet's records with `bought`
        normalised, or the empty list when the read fails. */
    constructor Load(fetch: Fetch<Item>)
      ensures fetch.Failed? ==> items == []
      ensures fetch.Fetched? ==> |items| == |fetch.records|
      ensures fetch.Fetched? ==> forall k :: 0 <= k < |items| ==>
        items[k] == fetch.records[k].(bought := NormalisedBought(fetch.records[k].bought))
    {
      var loaded: seq<Item> := [];
      if fetch.Fetched? {
        loaded := NormaliseLoaded(fetch.records);
      }
      items := loaded;
    }

    /** The "Add" button. */
    method Add(name: string, qty: string)
      modifies this
      ensures items == old(items) + [NewItem(name, qty)]
    {
      items := items + [NewItem(name, qty)];
    }

    /** The checkbox of row `i` read `checked`: the row is rewritten (and the
        list saved) only when that differs from its `bought` value. */
    method SetBought(i: nat, checked: bool) returns (changed: bool)
      requires i < |items|
      modifies this
      ensures changed <==> !EqualsBool(old(items)[i].bought, checked)
      ensures changed ==> items == old(items)[i := old(items)[i].(bought := Flag(checked))]
      ensures !changed ==> items == old(items)
    {
      changed := !EqualsBool(items[i].bought, checked);
      if changed {
        items := items[i := items[i].(bought := Flag(checked))];
      }
    }

    /** The loop over the rows' checkboxes: the first row whose checkbox differs
        is updated and the script reruns, so at most one row changes. */
    method SyncCheckboxes(checks: seq<bool>) returns (toggled: Option<nat>)
      requires |checks| == |items|
      modifies this
      ensures toggled.None? ==> items == old(items)
      ensures toggled.None? ==> forall k :: 0 <= k < |checks| ==> EqualsBool(items[k].bought, checks[k])
      ensures toggled.Some? ==> toggled.value < |checks|
      ensures toggled.Some? ==> (var i := toggled.value;
        (forall k :: 0 <= k < i ==> EqualsBool(old(items)[k].bought, checks[k])) &&
        !EqualsBool(old(items)[i].bought, checks[i]) &&
        items == old(items)[i := old(items)[i].(bought := Flag(checks[i]))])
    {
      var i := 0;
      while i < |checks|
        invariant 0 <= i <= |checks| && items == old(items)
        invariant forall k :: 0 <= k < i ==> EqualsBool(items[k].bought, checks[k])
      {
        var changed := SetBought(i, checks[i]);
        if changed {
          return Some(i);
        }
        i := i + 1;
      }
      return None;
    }

    /** "Clear Bought Items". */
    method ClearBought()
      modifies this
      ensures items == Unbought(old(items))
    {
      items := Unbought(items);
    }

    /** The Smart Chef "Add to List" branch for the recipe text `res`. */
    method AddFromRecipe(res: string)
      modifies this
      ensures items == old(items) + RecipeItems(res)
    {
      if '{' in res {
        var pieces := Split(BraceSpan(res), ',');
        AddStripped(pieces);
      }
    }

    /** The loop of that branch: one record per piece, named by the piece stripped. */
    method AddStripped(pieces: seq<string>)
      modifies this
      ensures items == old(items) + IngredientItems(StripEach(pieces))
    {
      ghost var names := StripEach(pieces);
      var acc := items;
      var i := 0;
      while i < |pieces|
        invariant 0 <= i <= |pieces| == |names|
        invariant acc == old(items) + IngredientItems(names[..i])
      {
        var name := Strip(pieces[i]);
        assert name == names[i];
        IngredientItemsSnoc(names, i);
        assert acc + [NewItem(name, "1")] == old(items) + (IngredientItems(names[..i]) + [NewItem(name, "1")]);
        acc := acc + [NewItem(name, "1")];
        i := i + 1;
      }
      assert names[..i] == names;
      items := acc;
    }
  }
}
