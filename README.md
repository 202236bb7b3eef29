# FitChef: hydration record, shopping list and recipe ingredient parser

FitChef (`Calorie_Recipe_App.py`) is a Streamlit app. It keeps its data in two
Google Sheets worksheets. This project models the deterministic logic inside the app:

- **Logical date** (`TimeCycle`). `get_logical_date` puts a moment before the
  configured start hour on the previous calendar day. A moment is a day number
  and a clock hour, so the clock is an input.
- **Hydration record** (`Hydration`). The record has four fields: the last logged
  logical date, the millilitres drunk, the daily goal and the day-start hour.
  - The pure side is values: `Hydro`, `ResetDay`, `Run` (one run of the tab), and
    `Replay` (a sequence of runs).
  - The in-place side is class `HydrationRecord`. Its methods change the fields
    the way the tab changes the dict: day reset, the two drink buttons, and "Save Settings".
  - The default record is used when the worksheet is empty or cannot be read.
  - The row `save_hydration` writes is modelled too.
- **Shopping list** (`Shopping`). The list is class `ShoppingList`, with:
  - "Add";
  - the per-row checkbox update;
  - "Clear Bought Items";
  - the Smart Chef "Add to List" loop;
  - the loaded list.

  The `bought` normalisation loop of `load_data` and the row-building loop of
  `save_shopping` are methods with loop invariants. Each is proved against a
  function that states its result.
- **Ingredient parser** (`IngredientParser`, on top of `PyText`). The span is
  `res.split("{")[1].split("}")[0]`. It is split on `,` and each piece is stripped.
  `PyText` models Python's `str.split` for one separator character, with empty
  pieces kept, `str.join`, and `str.strip` over Python's whitespace set.

`SheetCells` models the values a record holds: text, a formatted date, an
integer or a bool. It also models the bits of Python these values go through:
- truthiness, which "Clear Bought Items" uses;
- `==` against a bool, where `True == 1` and `False == 0`, which the checkbox check uses;
- `isinstance(v, str)` and `upper()`, which the load step uses.

Dates are day numbers. The date text `strftime` writes is a `DateText` cell,
and it never reads as "TRUE".

The model covers `Calorie_Recipe_App.py` as written: hydration is one record
with a running total, and the ingredients are the comma-separated text between braces.

## Model

| member | source | states |
|---|---|---|
| TimeCycle.LogicalDate | Calorie_Recipe_App.py:87-91 | The logical date is the calendar day or the day before. It is the day before exactly when the hour is below the start hour. |
| TimeCycle.MidnightStartNeverRollsBack | Calorie_Recipe_App.py:87-91 | With start hour 0 the logical date is always the calendar date. |
| TimeCycle.LateStartRollsBackAllButLastHour | Calorie_Recipe_App.py:87-91 | With start hour 23 a moment keeps its calendar date only in hour 23. |
| TimeCycle.Monotone | Calorie_Recipe_App.py:87-91 | A later moment never has an earlier logical date. |
| TimeCycle.NextDay | Calorie_Recipe_App.py:87-91 | The same hour a day later has a logical date exactly one day later. |
| TimeCycle.LogicalDayWindow | Calorie_Recipe_App.py:87-91 | Logical day d is hours startHour..23 of day d plus hours 0..startHour-1 of day d+1, in both directions. |
| Hydration.ResetDay | Calorie_Recipe_App.py:132-135 | Afterwards the date is the current logical date. Goal and start hour are unchanged. If the date was already current nothing changes. Otherwise the total is 0. |
| Hydration.ResetIdempotent | Calorie_Recipe_App.py:132-135 | A second reset at the same moment changes nothing. |
| Hydration.Remaining | Calorie_Recipe_App.py:140-142 | The "remaining" figure is negative exactly when the total exceeds the goal. It is zero exactly when they are equal. It is not clamped. |
| Hydration.RowRoundTrip | Calorie_Recipe_App.py:60-66 | Reading back the data row `save_hydration` writes gives the record. A blank date becomes the empty string and back. |
| Hydration.Run | Calorie_Recipe_App.py:132-161 | One tab run resets the day for the current start hour, then applies at most one button. A drink adds exactly 250 or 500 to the reset total, but only when the progress bar accepts `curr/goal` (goal not 0, fraction not negative); otherwise line 143 raises and only the reset stands. "Save Settings" changes only the start hour, and only when the stored start hour is within 0..23, as the number input at line 157 demands. The goal never changes. A sane record (goal above 0, total not negative, start hour within 0..23) stays sane. |
| Hydration.DefaultRecord | Calorie_Recipe_App.py:40-42 | The default record is sane, with a blank date and a total of 0. |
| Hydration.HydrationRow | Calorie_Recipe_App.py:65-66 | The data row has one cell per header column: the date as a string, then the total, the goal and the start hour as numbers. |
| Hydration.Replay | Calorie_Recipe_App.py:132-161 | Over any sequence of reruns the goal never changes, and a record that starts sane stays sane. |
| Hydration.ProgressDrawn | Calorie_Recipe_App.py:143 | A sane record passes the progress bar. A goal of 0 never does. |
| Hydration.SettingsDrawn | Calorie_Recipe_App.py:157 | Every sane record passes the number input. A rejected start hour above 23 also puts every moment on the previous logical day. |
| Hydration.ZeroGoalFreezes | Calorie_Recipe_App.py:139-143 | With a goal of 0 every run raises at the progress bar: the start hour never changes and the total is only ever its old value or the 0 of a day reset. |
| Hydration.SameDayAccumulates | Calorie_Recipe_App.py:132-154 | For a record with a positive goal and a non-negative total, runs within the record's own logical day, with no settings change, add exactly the glasses drunk and change nothing else. |
| Hydration.NewDayStartsFromZero | Calorie_Recipe_App.py:132-154 | For a record with a positive goal, runs on a new logical day leave that day as the date and the glasses drunk in those runs as the total. |
| Hydration.RaisingStartHourResetsTotal | Calorie_Recipe_App.py:132-161 | For a sane record logged on today's calendar date, raising the start hour past the current hour keeps the total in that run. The next run moves the date back a day and resets the total to 0, with the new start hour kept. |
| Hydration.HydrationRecord.Load | Calorie_Recipe_App.py:33-42 | The record is the first record read. With no records, or a failed read, it is the default: blank date, 0 ml, goal 3000, start hour 6. A failed connection (lines 56-58) falls back to the same default (lines 83-84). |
| Hydration.HydrationRecord.ResetIfNewDay | Calorie_Recipe_App.py:132-136 | The new state is `ResetDay` of the old one. The result says whether the record was rewritten, which is exactly when the stored date differs from the current logical date. |
| Hydration.HydrationRecord.Drink | Calorie_Recipe_App.py:147-154 | The total grows by exactly 250 or 500. The other three fields are unchanged. |
| Hydration.HydrationRecord.SaveSettings | Calorie_Recipe_App.py:156-161 | Only the start hour changes, to the chosen hour. |
| Hydration.HydrationRecord.RunTab | Calorie_Recipe_App.py:128-161 | The fields after one run of the tab are `Run` of the fields before it, including the runs that end when the progress bar or the number input raises. |
| SheetCells.EqualsBoolIsTruthy | Calorie_Recipe_App.py:183-192 | A value equal to a bool under Python `==` has that bool's truthiness. |
| SheetCells.SpellsTrueExactly | Calorie_Recipe_App.py:51 | A string upper-cases to "TRUE" exactly when it is four letters t, r, u, e in any mix of cases. |
| PyText.Find | Calorie_Recipe_App.py:212 | The index of the first occurrence of the character, or the length when it does not occur. |
| PyText.Split | Calorie_Recipe_App.py:212-213 | `str.split` on one separator character always gives at least one piece. |
| PyText.SplitCount | Calorie_Recipe_App.py:212-213 | `split` gives one piece more than there are separators. |
| PyText.SplitFirst | Calorie_Recipe_App.py:212 | The first piece is the text before the first separator, or all of it. |
| PyText.SplitSecond | Calorie_Recipe_App.py:212 | When the separator occurs, the second piece is the text after the first separator, up to the next one. |
| PyText.PiecesAvoid | Calorie_Recipe_App.py:212-213 | No piece holds the separator. No piece holds a character the string lacks. |
| PyText.JoinSplit | Calorie_Recipe_App.py:212-213 | Joining the pieces with the separator gives back the string. |
| PyText.SplitJoin | Calorie_Recipe_App.py:212-213 | Splitting a join of separator-free pieces gives back the pieces. |
| PyText.Strip | Calorie_Recipe_App.py:216 | `str.strip` never lengthens the string. |
| PyText.StripShape | Calorie_Recipe_App.py:216 | `strip` removes exactly the leading and trailing whitespace. The result is the slice between them, and both removed ends are all whitespace. |
| PyText.StripEnds | Calorie_Recipe_App.py:216 | A non-empty stripped string starts and ends with a non-whitespace character. |
| PyText.StripChars | Calorie_Recipe_App.py:216 | Stripping adds no character. |
| PyText.StripEach | Calorie_Recipe_App.py:215-216 | One stripped string per piece, in order. |
| PyText.StripIdempotent | Calorie_Recipe_App.py:216 | Stripping twice is stripping once. |
| PyText.StripAllSpace | Calorie_Recipe_App.py:216 | A string of whitespace strips to the empty string. |
| IngredientParser.BraceSpan | Calorie_Recipe_App.py:210-212 | The span holds neither `{` nor `}`. |
| IngredientParser.BraceSpanIsSlice | Calorie_Recipe_App.py:210-212 | The span is the text after the first `{`, cut at the next brace of either kind, or at the end. |
| IngredientParser.FirstBraceIsFirstOfEither | Calorie_Recipe_App.py:212 | The first brace of either kind is the earlier of the first `{` and the first `}`. |
| IngredientParser.CutAtFirstBrace | Calorie_Recipe_App.py:212 | Cutting at the first `{` and then at the first `}` is cutting at the first brace. |
| IngredientParser.Ingredients | Calorie_Recipe_App.py:212-216 | The number of names is the number of commas in the span plus one. |
| IngredientParser.IngredientNamesClean | Calorie_Recipe_App.py:212-216 | No name holds a comma or a brace. A non-empty name has no whitespace at either end. |
| IngredientParser.IngredientsArePieces | Calorie_Recipe_App.py:212-216 | The names are the comma pieces of the span, stripped. The pieces joined with commas are the span. |
| IngredientParser.BlankPiecesKept | Calorie_Recipe_App.py:213-216 | A piece of whitespace gives an empty name in its place. Empty names are not dropped. |
| Shopping.IngredientItems | Calorie_Recipe_App.py:215-216 | One new record per name, in order. Each has qty "1", price 0, no ai_price and bought false. |
| Shopping.RecipeItems | Calorie_Recipe_App.py:210-216 | Nothing is added without a `{`. Otherwise one record per comma-separated piece, each with qty "1", price 0, no ai_price and bought false. |
| Shopping.RecipeItemNames | Calorie_Recipe_App.py:212-216 | The k-th record added is named by the k-th piece of the span, stripped. |
| Shopping.NormalisedBought | Calorie_Recipe_App.py:49-51 | A string `bought` becomes a bool, true exactly when it upper-cases to "TRUE". A non-string value is kept as it is. |
| Shopping.RowOf | Calorie_Recipe_App.py:76-77 | A row has one cell per header column, and a record without `ai_price` gets 0 there. |
| Shopping.NormaliseIdempotent | Calorie_Recipe_App.py:49-51 | Normalising twice is normalising once. |
| Shopping.StoredFlagRestored | Calorie_Recipe_App.py:49-51 | A bool the sheet stores as "TRUE" or "FALSE" is read back as that bool. |
| Shopping.NormaliseLoaded | Calorie_Recipe_App.py:49-51 | Same length. Each record has only `bought` changed, to its normalised value. |
| Shopping.RowRoundTrip | Calorie_Recipe_App.py:73-77 | A row has the header's five cells. Read back by the header it gives the record, except that a missing ai_price comes back as 0. |
| Shopping.BuildRows | Calorie_Recipe_App.py:75-77 | One row per record, in list order. Each row is item, qty, user_price, ai_price or 0, and bought. |
| Shopping.Unbought | Calorie_Recipe_App.py:192 | Clearing never lengthens the list. |
| Shopping.UnboughtMembers | Calorie_Recipe_App.py:192 | A record survives clearing exactly when it is in the list and not bought. |
| Shopping.UnboughtAppend | Calorie_Recipe_App.py:192 | Clearing keeps the original order: clearing a concatenation is concatenating the clears. |
| Shopping.UnboughtIdentity | Calorie_Recipe_App.py:192 | Clearing changes nothing exactly when no record is bought. |
| Shopping.UnboughtIdempotent | Calorie_Recipe_App.py:192 | Clearing twice is clearing once. |
| Shopping.ClearedHasNothingBought | Calorie_Recipe_App.py:192 | After clearing no record is bought. |
| Shopping.ClearKeepsRecipeItems | Calorie_Recipe_App.py:191-192 | Records just added from a recipe all survive the next clear. They come after the unbought records already there. |
| Shopping.ClearRemovesTicked | Calorie_Recipe_App.py:183-192 | A row whose checkbox was ticked is gone after the next clear. The rest clear as before. |
| Shopping.ClearMatchesCheckboxes | Calorie_Recipe_App.py:178-192 | Once every checkbox equals its row's `bought` under Python `==`, clearing keeps exactly the rows whose checkbox is not ticked. |
| Shopping.ShoppingList.Load | Calorie_Recipe_App.py:45-53 | The list is the records read, in order, with only `bought` normalised. After a failed read it is empty, as it is after a failed connection (lines 56-58). |
| Shopping.NewItem | Calorie_Recipe_App.py:172 | The new record has the typed name and qty and no `ai_price`. It is not bought, so the next clear keeps it. |
| Shopping.ShoppingList.Add | Calorie_Recipe_App.py:171-172 | Exactly one record is appended at the end: the item, the qty, price 0, bought false. Earlier records are unchanged. |
| Shopping.ShoppingList.SetBought | Calorie_Recipe_App.py:180-184 | The row is rewritten only when the checkbox value differs from its `bought` under Python `==`. Then only that row's `bought` changes. |
| Shopping.ShoppingList.SyncCheckboxes | Calorie_Recipe_App.py:178-186 | The first row whose checkbox differs is updated and reported, and no other row changes. When none differs, nothing changes and every row matches its checkbox. |
| Shopping.ShoppingList.ClearBought | Calorie_Recipe_App.py:191-192 | The list becomes the unbought records, in order. |
| Shopping.ShoppingList.AddFromRecipe | Calorie_Recipe_App.py:210-216 | The list grows by exactly `RecipeItems` of the text, at the end. |
| Shopping.ChefRunAsWritten | Calorie_Recipe_App.py:203-219 | The tab as written never removes or reorders records, and without a `{` in the reply it changes nothing. |
| Shopping.AddToListNeverAdds | Calorie_Recipe_App.py:203-216 | As written, no run appends the reply's ingredients, although a reply with a `{` names at least one. |
| Shopping.ChefRun | Calorie_Recipe_App.py:203-216 | Corrected tab: "Generate" keeps its reply, other clicks keep the list, and "Add to List" keeps the reply. |
| Shopping.GenerateThenAdd | Calorie_Recipe_App.py:203-216 | Corrected tab: "Generate" and then "Add to List" appends exactly the reply's ingredient records, after the existing list. |
| Shopping.ShoppingList.AddStripped | Calorie_Recipe_App.py:215-216 | The loop appends one record per piece, named by the piece stripped, in order. |

## Left out

- Google Sheets access is not modelled: the connection, `worksheet`, `clear`,
  `append_row(s)` and `get_all_records`. A read is an input that holds the
  records or a failure (`Fetch`). A save is described by the rows it would write.
- The cell conversions Sheets applies are not modelled. Loaded values arrive
  already typed, and the hydration record's fields arrive as integers. Only
  `StoredFlagRestored` assumes that a bool comes back as the text "TRUE" or "FALSE".
- `int(start_hour)` parsing and non-integer numbers are not modelled. A start
  hour that is not a whole number is outside the model.
- The Streamlit UI is not modelled: widgets, layout, `st.rerun`, toasts, CSS,
  session state and the sidebar API-key check. At most one button fires per
  run. The number input limits the start hour to 0..23 (`Hour`).
- Shopping.ShoppingList.AddFromRecipe: the "Add to List" button is nested
  inside the "Generate" branch. A Streamlit button is True only in the run its
  own click starts, and in that run "Generate" is False, so the branch is never
  reached (see "## Findings"). The method describes what the branch does when it
  runs. It is what "Add to List" does in the corrected tab `ChefRun`.
- The Gemini calls and the camera image are not modelled, since they are
  foreign calls. The recipe text is an input.
- `datetime.now()` and `strftime` are not modelled. Dates are day numbers, and
  a formatted date is the `DateText` cell of its number.
- The progress bar's drawing and its floating-point value are not modelled. Only
  whether `st.progress` accepts `curr/goal` is modelled (`ProgressDrawn`), and so is
  whether `st.number_input` accepts the stored start hour (`SettingsDrawn`). A run in
  which either raises ends there.
- Hydration.Run: line 143 raises when the goal is 0, or when the total is not 0 and its
  sign differs from the goal's (`ProgressDrawn`). Then the day reset stands and no button
  counts. Line 157 raises when the stored start hour is outside 0..23 (`SettingsDrawn`).
  Then "Save Settings" does not count, but a drink still does. A record outside `Sane` can
  pass both, for example a negative goal with a total of 0, and then its drinks count as
  usual. The app never leaves `Sane` by itself: `DefaultRecord` is sane, and `Run` and
  `Replay` preserve it. Only a record edited in the sheet can be outside it.
- Hydration.SameDayAccumulates and Hydration.NewDayStartsFromZero: stated only for records
  with a positive goal, and for the first also a non-negative total. Such records pass the
  progress bar on every run. Records that fail it gain nothing from a drink, as
  `ZeroGoalFreezes` shows for a goal of 0. Records outside `Sane` that still pass it are not
  covered by these two lemmas.
- The bare `except:` clauses are modelled only as their fallbacks: the default
  record and the empty list. A connection failure and a worksheet failure give
  the same loaded state.
- SheetCells.UpperChar upper-cases only ASCII letters. No other character's
  upper-case form is made only of the letters of "TRUE". So `upper() == 'TRUE'`
  holds for the same strings as in Python.
- The Cheat Negotiator tab is not modelled. Streaks, segments, price merging and
  cart value do not occur in this file.

## Findings

| source | as written | input that shows it | evidently intended | confidence | as-written member | corrected member |
|---|---|---|---|---|---|---|
| Calorie_Recipe_App.py:203-218 | "Add to List" is drawn only inside `if st.button("Generate")`, so its click starts a run in which "Generate" is False and lines 215-218 never run | click "Generate" with a reply such as "... {rice, dal}", then click "Add to List": the list is unchanged | keep the reply across reruns and draw "Add to List" whenever a kept reply has a `{`, so that the click appends the parsed records | not executed | Shopping.AddToListNeverAdds | Shopping.GenerateThenAdd |
