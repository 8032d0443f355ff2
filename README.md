# Document-to-spreadsheet pipeline, modelled in Dafny

This project models the decision logic of the five processors that turn a
converted PDF report into a filled Excel template:

- **Basic Docling processor** (`docling_processor.py`):
  - cuts the converted document's item stream into header-led sections;
  - groups items by page in ascending page order;
  - classifies extracted table columns.
- **Full Docling processor** (`docling_full_processor.py`):
  - finds the CoStar section of each page (headers first, then the first five text items);
  - assigns sections to pages "sticky", so a page with nothing detected keeps the section before it;
  - groups pages and tables per section with the page range each section covers.
- **Transformer** (`docling_transformer.py`):
  - classifies tables into disjoint buckets;
  - parses the property-info key/value table with its manager-then-owner state;
  - fills only the missing keys from pattern searches;
  - builds the de-duplicated amenity list;
  - camelCases headers, maps state names to abbreviations, and passes error outputs through unchanged.
- **Template analyzer** (`xlsx_template_analyzer.py`):
  - types every cell of a template sheet (formula, input, label, header, empty) with a fixed precedence;
  - drops covered cells of merged ranges;
  - detects header rows;
  - associates each input with a label (left, then above, then the column header);
  - sums the per-sheet counts.
- **Template filler** (`xlsx_template_filler.py`):
  - navigates JSON paths to fill single cells, never overwriting formulas;
  - fills array ranges bounded by a "Total" row: it clears them, writes the data rows, passes over summary rows and deletes leftover rows;
  - records every result in a report partitioned by status.

Files and modules:

| file | module | models |
|---|---|---|
| `wrappers.dfy` | `Wrappers` | `Option` |
| `strings.dfy` | `Strings` | ASCII case mapping, stripping, splitting, digits, ordered de-duplication |
| `ordering.dfy` | `Ordering` | sorting the integer keys of a dictionary (`sorted(pages.keys())`) |
| `json_path.dfy` | `JsonPath` | JSON values and `_navigate_json_path` |
| `sheets.dfy` | `Sheets` | a worksheet as a class over a map from cell to value, cell references, `delete_rows`, the fill report |
| `filler.dfy` | `Filler` | `_fill_cell`, `_fill_array_data`, `_apply_transform` and the per-sheet fill |
| `template_cells.dfy` | `TemplateCells` | cell typing, data types, formula descriptions, column letters |
| `template_analyzer.dfy` | `TemplateAnalyzer` | merged ranges, header rows, the sheet scan, label association, the summary |
| `column_types.dfy` | `ColumnTypes` | `_is_numeric` and `_detect_column_types`, which the two Docling processors share |
| `docling_processor.dfy` | `DoclingProcessor` | `_extract_sections` and `_extract_pages` |
| `full_processor.dfy` | `FullProcessor` | section detection, sticky assignment and grouping |
| `transformer.dfy` | `Transformer` | the transformer rules |

Modelling choices:

- **Abstract inputs.**
  - The converted document is the sequence of items that `iterate_items()` yields. An item is its kind, label, text, level and optional page.
  - A template cell is its value, boldness, number format, `is_date` flag and fill colour.
  - A worksheet is a `Sheets.Sheet` object whose `cells` map the filler updates in place.
- **Regular expressions become hand-written matchers over `seq<char>`.**
  - The filler: the path split `\.(?![^\[]*\])`, the index pattern `(\w+)\[(\d+)\]` and the state pattern `,\s*([A-Za-z\s]+?)(?:\s*-|$)`.
  - The transformer: the phone, price and date patterns.
  - The analyzer: the label patterns.
  - The `_extract_key_values` pattern table and the `TABLE_PATTERNS` search are function parameters: `Search` for the key patterns and `HeaderPattern` matchers for the tables.
- **Lookup tables passed as parameters.**
  - The state-abbreviation table is passed as a map.
  - The CoStar section table is passed as a parameter `table`. `FullProcessor.CostarSlugsKnown` shows that the table of the source meets the condition the grouping needs.
- **Numeric transforms as a parameter.** The filler's numeric transforms (`divide_by_100`, `to_number`, `years_since_purchase`, `extract_property_name`) are an `OtherTransform` function parameter. On the other transform names the model states only that they go to that parameter.
- **Python exceptions.**
  - An exception in a single-cell fill becomes an `error` result, as in the source.
  - An exception that escapes `_fill_array_data` (from `int()` of a non-number in `calc_occupied`, or from a bad setting) is modelled as `raised`. `Filler.FillSheet` returns it, and `fill` then returns an error in place of the report.
- **Loops stay loops.** They are `while` loops over the modelled state, each proved against a specification function:
  - `_fill_array_data`'s clear, write and delete passes;
  - `_add_to_report`;
  - `_detect_header_rows`, `_analyze_sheet`, `_associate_labels` and `_generate_summary`;
  - `_extract_sections` and `_extract_pages`;
  - `_assign_page_sections` and `_group_by_section`;
  - `_classify_tables`, `_parse_property_info_table`, `_extract_key_values` and `_parse_amenities_from_text`.
- **Row placement (`Filler.Placement`).** `_fill_array_data` as written puts data row `i` at `row_start + i`, counting summary rows (`AsWritten`). The corrected placement `Contiguous` puts it at `row_start + rows_to_fill`; the "## Findings" section below explains why. The per-sheet fill `Filler.SheetFill` and `Filler.FillSheet` take the placement as a parameter: with `AsWritten` they are the program's per-sheet step, with `Contiguous` the corrected one.

## Model

| member | source | states |
|---|---|---|
| JsonPath.Navigate | src/services/processors/xlsx_template_filler.py:409-414 | `None` data or an empty path gives `None`. A key present verbatim in an object is returned before any dotted splitting. |
| JsonPath.NavigateJsonPath | src/services/processors/xlsx_template_filler.py:399-453 | The loop over the path parts returns exactly the navigation the `Navigate` specification defines. |
| JsonPath.SplitPath | src/services/processors/xlsx_template_filler.py:419-420 | Splitting a path at the dots outside brackets always gives at least one part. |
| JsonPath.SplitPathJoin | src/services/processors/xlsx_template_filler.py:419-420 | Joining the parts with "." gives the path back: the split loses nothing. |
| JsonPath.SplitWithoutDots | src/services/processors/xlsx_template_filler.py:419-420 | A path without dots is a single part. |
| JsonPath.SplitOneDot | src/services/processors/xlsx_template_filler.py:419-420 | `a.b` with no dots in `a` or `b` and no `]` in `b` splits into `[a, b]`. |
| JsonPath.NavigateKey | src/services/processors/xlsx_template_filler.py:446-449 | A plain key (no dot, no index) on an object is a dictionary `get`: the value, or `None` when the key is missing. |
| JsonPath.NavigateKeyOfNonObject | src/services/processors/xlsx_template_filler.py:446-451 | A plain key on anything but an object gives `None`; navigation never fails. |
| JsonPath.NavigateDotted | src/services/processors/xlsx_template_filler.py:419-451 | `a.b`, when not a verbatim key, is `b` looked up in the value at `a`, and `None` when `a` is missing or not an object. |
| JsonPath.NavigateIndexed | src/services/processors/xlsx_template_filler.py:426-441 | `key[n]` is element `n` of the list at `key`. It is `None` when the key is missing, the value is not a list, or `n` ≥ the list's length. |
| JsonPath.IndexedPartOf | src/services/processors/xlsx_template_filler.py:427-431 | The `(\w+)\[(\d+)\]` matcher reads back the key and index of `key[n]`. |
| JsonPath.Get | src/services/processors/xlsx_template_filler.py:446-447 | A dictionary `get`: `None` when the key is absent, else a value stored under that key. |
| JsonPath.DecimalOfNatToString | src/services/processors/xlsx_template_filler.py:429 | `int()` of the decimal digits of `n` is `n`. |
| Sheets.ParseCellRef | src/services/processors/xlsx_template_filler.py:225 | A parsed reference names a letter column and a row ≥ 1. |
| Sheets.CellRefOf | src/services/processors/xlsx_template_filler.py:298 | The reference `f"{column}{row}"` reads back as the (upper-cased) column and the row. |
| Sheets.ToCell | src/services/processors/xlsx_template_filler.py:236 | A cell stores a scalar; `None` clears it; a list or an object cannot be stored. |
| Sheets.Sheet.constructor | src/services/processors/xlsx_template_filler.py:137 | A sheet starts with the given title and cells. |
| Sheets.Sheet.SetValue | src/services/processors/xlsx_template_filler.py:236 | Assigning `cell.value` changes that one cell and nothing else. |
| Sheets.Sheet.DeleteRows | src/services/processors/xlsx_template_filler.py:397 | `delete_rows(first, amount)` moves every row from `first + amount` on up by `amount`. |
| Sheets.RowsDeletedAt | src/services/processors/xlsx_template_filler.py:397 | After `delete_rows(first, amount)`, rows above `first` keep their cells and row `r ≥ first` holds what row `r + amount` held. |
| Sheets.Added | src/services/processors/xlsx_template_filler.py:534-553 | Adding a result to the report grows it by exactly one entry. |
| Sheets.SummaryOf | src/services/processors/xlsx_template_filler.py:154-159 | The four summary totals add up to the number of entries in the report. |
| Sheets.AddedAllPartition | src/services/processors/xlsx_template_filler.py:534-553 | Adding results keeps every entry in the list of its own status. Each list grows by the number of results with that status. |
| Sheets.FillReport.constructor | src/services/processors/xlsx_template_filler.py:116-123 | The report starts with four empty lists. |
| Sheets.FillReport.AddToReport | src/services/processors/xlsx_template_filler.py:534-553 | The result is appended, with its sheet name, to the list of its status and to no other list. |
| Filler.ExtractCity | src/services/processors/xlsx_template_filler.py:498-505 | `extract_city` gives the stripped text before the first comma (the whole text without a comma). A non-string is unchanged. |
| Filler.LazyEnd | src/services/processors/xlsx_template_filler.py:516 | The lazy group of the state pattern ends at the first position where the tail `\s*-` or the end of the text matches. |
| Filler.CommaSearchFound | src/services/processors/xlsx_template_filler.py:516 | The state search finds the group after the first comma where the pattern matches. Without a match, no comma is followed by a match. |
| Filler.CommaSearchKeeps | src/services/processors/xlsx_template_filler.py:516 | Whatever the search returns is a group the pattern accepted. |
| Filler.GroupAfterCommaNameChars | src/services/processors/xlsx_template_filler.py:516 | A matched state group holds only letters and whitespace (`[A-Za-z\s]`). |
| Filler.GroupsAreNames | src/services/processors/xlsx_template_filler.py:516 | Every group the pattern can match is letters and whitespace only. |
| Filler.StateAbbrevUnchanged | src/services/processors/xlsx_template_filler.py:514-530 | A non-string, or a string the state pattern does not match, is returned unchanged. |
| Filler.AbbrevShort | src/services/processors/xlsx_template_filler.py:519 | A known state gives its two-letter code. An unknown one gives at most its first two letters, upper-cased. |
| Filler.StateAbbrevShort | src/services/processors/xlsx_template_filler.py:514-530 | When the pattern matches, `extract_state_abbrev` gives at most two characters; for an unknown state they are letters. |
| Filler.BedBathLabelRoundTrip | src/services/processors/xlsx_template_filler.py:341-346 | The `"{bed}B/{bath}Ba"` label reads back as the bed and bath counts. |
| Filler.ParseBedBathOf | src/services/processors/xlsx_template_filler.py:346 | The reader of bed/bath labels recovers both digit groups. |
| Filler.ApplyTransform | src/services/processors/xlsx_template_filler.py:455-532 | The transform names dispatch to `extract_city` and `extract_state_abbrev`. An unknown name returns the value unchanged. |
| Filler.CellFill | src/services/processors/xlsx_template_filler.py:170-252 | A single-cell fill writes exactly when its status is "filled", and only at the mapping's parsed cell, never a formula cell. The status is "external" exactly for an external source or a missing `json_path`. |
| Filler.NothingFoundSkips | src/services/processors/xlsx_template_filler.py:204-216 | When neither the primary nor the fallback path gives a value, the status is "skipped" and nothing is written. |
| Filler.FallbackTransformOnlyOnFallback | src/services/processors/xlsx_template_filler.py:198-208 | A value found on the primary path is the one the lookup returns: the fallback and its transform play no part. |
| Filler.FormulaNeverOverwritten | src/services/processors/xlsx_template_filler.py:228-234 | A formula cell keeps its value whatever the mapping. |
| Filler.LookUp | src/services/processors/xlsx_template_filler.py:196-208 | The lookup computes the primary path, then the fallback with its transform, as the `LookedUp` specification defines. |
| Filler.FillCell | src/services/processors/xlsx_template_filler.py:170-252 | The sheet changes by the one assignment `CellFill` allows and no more; the result is `CellFill`'s. |
| Filler.TotalWordIff | src/services/processors/xlsx_template_filler.py:278-279 | The Total marker is exactly "total" or "totals". |
| Filler.TotalRowFirst | src/services/processors/xlsx_template_filler.py:273-283 | The Total row found is the first marker row in column B in the search window. With none found, no row of the window is a marker. |
| Filler.FindTotalRow | src/services/processors/xlsx_template_filler.py:273-283 | The search loop over `row_start .. row_start + 50` returns the first Total row, as `TotalRowIn` defines. |
| Filler.ClearColumnRows | src/services/processors/xlsx_template_filler.py:296-305 | Clearing one column runs over `max_rows` rows, clearing every row that is not a formula. |
| Filler.ClearOne | src/services/processors/xlsx_template_filler.py:298-305 | One cell is cleared unless it holds a formula or its reference does not parse. |
| Filler.ClearRange | src/services/processors/xlsx_template_filler.py:294-305 | The clearing pass over all clear columns gives the sheet `ClearColumns` defines. |
| Filler.ClearColumnAt | src/services/processors/xlsx_template_filler.py:294-305 | A cell is emptied by clearing one column exactly when it is in that column, in `[row_start, row_start + max_rows)`, and not a formula. |
| Filler.ClearColumnIsCoords | src/services/processors/xlsx_template_filler.py:296-303 | Clearing by textual references is clearing the parsed coordinates of that column. |
| Filler.ClearCoordsAt | src/services/processors/xlsx_template_filler.py:296-303 | Clearing by coordinates empties exactly the non-formula cells of the range. |
| Filler.ClearCellOf | src/services/processors/xlsx_template_filler.py:298-303 | Clearing the reference `f"{column}{row}"` clears that coordinate. |
| Filler.ClearColumnsAt | src/services/processors/xlsx_template_filler.py:294-305 | After clearing, a cell is empty exactly when it lies in a cleared column within the range and is not a formula; every other cell is unchanged. |
| Filler.ColumnsSnoc | src/services/processors/xlsx_template_filler.py:294-295 | A column is cleared by the list exactly when it is cleared by its first part or is the last column named. |
| Filler.ClearSparesFormulas | src/services/processors/xlsx_template_filler.py:302-303 | Clearing never touches a formula cell, whatever the configured columns and `row_start`. |
| Filler.TotalRowNeverCleared | src/services/processors/xlsx_template_filler.py:286-305 | With a Total row found, that row and everything below it keep their values through the clearing. |
| Filler.TotalAtFrontIff | src/services/processors/xlsx_template_filler.py:326-327 | The character-wise test agrees with "starts with `total`" of the lower-cased text. |
| Filler.AllAtFrontIff | src/services/processors/xlsx_template_filler.py:326-327 | The character-wise test agrees with "starts with `all`" of the lower-cased text. |
| Filler.SummaryLabelIff | src/services/processors/xlsx_template_filler.py:324-328 | A row is a summary row exactly when its lower-cased `bed` text contains "total" or "all". |
| Filler.IterItems | src/services/processors/xlsx_template_filler.py:313-320 | The rows iterated are the list's elements. Iteration is possible exactly for a list, a string or an object. |
| Filler.ObjectsOf | src/services/processors/xlsx_template_filler.py:324 | `row_data.get` works exactly when every row is an object, which gives the rows' fields. |
| Filler.ColumnsRaisedStays | src/services/processors/xlsx_template_filler.py:332-389 | Once a column write raises, later columns change nothing. |
| Filler.RowsRaisedStays | src/services/processors/xlsx_template_filler.py:320-389 | Once a row raises, later rows change nothing. |
| Filler.WriteValue | src/services/processors/xlsx_template_filler.py:366-389 | Writing one value keeps the sheet and the filled/error lists equal to the specification state. The skipped and external lists are untouched. |
| Filler.WriteRow | src/services/processors/xlsx_template_filler.py:332-389 | The column loop of one data row gives the state `ColumnsFold` defines, raising exactly when it does. |
| Filler.ColumnsKeepCount | src/services/processors/xlsx_template_filler.py:330-389 | Writing a row's columns does not change `rows_to_fill`. |
| Filler.RowStepOfData | src/services/processors/xlsx_template_filler.py:320-332 | A data row counts one more row, then writes its columns at its target row. |
| Filler.WriteDataRow | src/services/processors/xlsx_template_filler.py:330-389 | One data row is counted and then written as the specification says. |
| Filler.WriteRows | src/services/processors/xlsx_template_filler.py:320-389 | The row loop, summary rows included, gives the state `RowsFold` defines. |
| Filler.ArrayWrittenOf | src/services/processors/xlsx_template_filler.py:320-397 | The write-and-delete outcome is the deletion applied to the written rows. |
| Filler.DeleteLeftoverRows | src/services/processors/xlsx_template_filler.py:391-397 | Leftover rows are deleted as `LeftoverDeleted` defines. |
| Filler.LeftoverDeletedAt | src/services/processors/xlsx_template_filler.py:392-397 | With `delete_empty_rows` and `rows_to_fill < max_rows`, exactly `max_rows - rows_to_fill` rows go, from `row_start + rows_to_fill`. Otherwise nothing moves. |
| Filler.FinishedAt | src/services/processors/xlsx_template_filler.py:392-397 | The same deletion, stated for the finished array state. |
| Filler.FinishedDeletes | src/services/processors/xlsx_template_filler.py:392-397 | When rows are deleted, rows above `row_start + rows_to_fill` stay and the rows below move up. |
| Filler.WriteAndDelete | src/services/processors/xlsx_template_filler.py:320-397 | The write and delete phases give the outcome `ArrayWritten` defines. |
| Filler.ArrayFillWithOf | src/services/processors/xlsx_template_filler.py:271-397 | With rows to fill, the array fill is the clearing, then the writes, then the deletion. |
| Filler.PrepareRows | src/services/processors/xlsx_template_filler.py:271-305 | The number of table rows is the distance to the Total row, else `max_rows`. With a row count the range is cleared; without one (no Total row and a non-integer `max_rows`) the sheet is unchanged. |
| Filler.FillUncounted | src/services/processors/xlsx_template_filler.py:294-397 | With no Total row and a non-integer `max_rows`: a raise at the first truthy clear column, before anything is cleared; else the rows are written and the deletion test raises when `delete_empty_rows` is set (for a real `max_rows`, only when a deletion is due). |
| Filler.LookUpItems | src/services/processors/xlsx_template_filler.py:311-315 | The array is the value at `array_source`, when it is a non-empty list. Nothing is found for null data or a falsy `array_source`, and a truthy `array_source` that is not a string raises. |
| Filler.FillArrayWith | src/services/processors/xlsx_template_filler.py:262-397 | The array fill changes the sheet and the report as `ArrayFillWith` defines; the skipped and external lists are untouched. |
| Filler.FillArrayData | src/services/processors/xlsx_template_filler.py:254-397 | Reading the settings and filling as `ArrayFill` defines; a bad setting raises. |
| Filler.JsonFieldNotTextRaises | src/services/processors/xlsx_template_filler.py:357-361 | A falsy `json_field` skips the column, and a truthy `json_field` that is not a string raises in the navigator. |
| Filler.NonTextColumnUnreadable | src/services/processors/xlsx_template_filler.py:366-389 | A `column` that is not a string never forms a readable reference, so writing to it becomes an error entry. |
| Filler.ColumnsChangeOneRow | src/services/processors/xlsx_template_filler.py:332-389 | Writing a row's columns changes only non-formula cells of that row. |
| Filler.RowsChangeRange | src/services/processors/xlsx_template_filler.py:320-389 | The row writes change only non-formula cells, in `[row_start, row_start + len(array))` as written and in `[row_start, row_start + rows_to_fill)` contiguously. Without a raise, `rows_to_fill` is the number of data rows. |
| Filler.RowsCount | src/services/processors/xlsx_template_filler.py:320-330 | Without a raise, `rows_to_fill` grows by the number of non-summary rows. |
| Filler.RowsWrittenCount | src/services/processors/xlsx_template_filler.py:308-330 | Writing from the cleared sheet counts exactly the data rows, when nothing raises. |
| Filler.WritesSpareFormulas | src/services/processors/xlsx_template_filler.py:371-373 | The array writes never overwrite a formula cell, whatever the configured columns and `row_start`. |
| Filler.ColumnsTagged | src/services/processors/xlsx_template_filler.py:377-389 | Every report entry a row adds carries the sheet's name and the status of its list. |
| Filler.RowsTagged | src/services/processors/xlsx_template_filler.py:377-389 | The same holds for the whole row loop. |
| Filler.ArrayFillTagged | src/services/processors/xlsx_template_filler.py:254-397 | The same holds for the whole array fill. |
| Filler.ContiguousKeepsWrittenCells | src/services/processors/xlsx_template_filler.py:320-397 | With contiguous placement, every cell the writes changed survives the deletion of leftover rows. |
| Filler.ContiguousDeletesLeftover | src/services/processors/xlsx_template_filler.py:392-397 | With contiguous placement, the rows deleted are the `max_rows - rows_to_fill` rows that follow the data rows. |
| Filler.SummaryRowDropsDataRow | src/services/processors/xlsx_template_filler.py:320-330 | As written, the array `[All, 10 units]` writes A3 and reports it filled, then deletes row 3. |
| Filler.SummaryRowPassedOver | src/services/processors/xlsx_template_filler.py:324-328 | Any summary row, in any state and with either placement, writes nothing and is not counted. |
| Filler.AsWrittenTargetIsIndex | src/services/processors/xlsx_template_filler.py:320-330 | As written, the data row after `k` array elements is written at `row_start + k`, while `rows_to_fill` counts only the data rows before it. That count is below `k` once a summary row precedes it. |
| Filler.ArrayResultsPartitioned | src/services/processors/xlsx_template_filler.py:377-389 | Appending the array fill's filled and error entries keeps every report entry in the list of its status. |
| Filler.FillCells | src/services/processors/xlsx_template_filler.py:140-143 | The single-cell mappings of a sheet are filled and reported in order, as `CellsFold` defines. |
| Filler.FillSheet | src/services/processors/xlsx_template_filler.py:137-147 | A sheet's single-cell mappings are filled, then its array, as `SheetFill` defines for the given placement (`AsWritten` is the program's step). |
| Filler.AddedKeepsPartition | src/services/processors/xlsx_template_filler.py:544-553 | `_add_to_report` keeps every entry in the list of its own status. |
| Filler.CellsFoldPartition | src/services/processors/xlsx_template_filler.py:140-143 | The single-cell phase keeps the partition and adds exactly one entry per mapping. |
| Filler.CellPhasePartitioned | src/services/processors/xlsx_template_filler.py:140-143 | The same holds for the mappings read from the sheet configuration. |
| Filler.SheetFillPartitioned | src/services/processors/xlsx_template_filler.py:137-147 | Filling a sheet with either placement, when it does not raise, keeps every report entry in the list of its status. |
| TemplateCells.EmptyIff | src/services/processors/xlsx_template_analyzer.py:239-241 | A cell is EMPTY exactly when its value is `None` or a whitespace-only string. |
| TemplateCells.FormulaIff | src/services/processors/xlsx_template_analyzer.py:243-245 | A cell is FORMULA exactly when it holds a string starting with "=", in header rows too. |
| TemplateCells.NonTextIsInput | src/services/processors/xlsx_template_analyzer.py:247-265 | A non-empty value that is not a string is always INPUT. |
| TemplateCells.HeaderIff | src/services/processors/xlsx_template_analyzer.py:247-249 | A cell is HEADER exactly when it is a non-blank, non-formula string in a header row. |
| TemplateCells.LabelIff | src/services/processors/xlsx_template_analyzer.py:251-265 | A cell is LABEL exactly when it is a non-blank, non-formula string outside header rows and it ends in ":", looks like a label, or does not look like an input. |
| TemplateCells.TextInputIff | src/services/processors/xlsx_template_analyzer.py:251-262 | A string is INPUT exactly when nothing marks it as a label and its cell looks like an input. |
| TemplateCells.ShortOrBoldIsLabel | src/services/processors/xlsx_template_analyzer.py:290-297 | Short text in columns A–B and any bold text count as labels. |
| TemplateCells.ColonFormIsLabel | src/services/processors/xlsx_template_analyzer.py:280-287 | Word characters and spaces followed by ":" and trailing whitespace count as a label. |
| TemplateCells.LabelWordIsLabel | src/services/processors/xlsx_template_analyzer.py:281-287 | A label word such as "Total" or "Notes", with an optional colon, counts as a label whatever its case. |
| TemplateCells.GetDataType | src/services/processors/xlsx_template_analyzer.py:406-429 | The type is "currency" exactly when the format has "$" or "Currency", and "percentage" exactly when it has neither but has a "%". |
| TemplateCells.FormatBeforeValue | src/services/processors/xlsx_template_analyzer.py:410-416 | When the number format decides, the value and `is_date` play no part. |
| TemplateCells.GeneralFormatByValue | src/services/processors/xlsx_template_analyzer.py:419-429 | Under the General format, bool comes before int: bool, int, float, then date, else text. |
| TemplateCells.RedFormatIsDate | src/services/processors/xlsx_template_analyzer.py:415-416 | As written, the integer format "0;[Red]-0" is typed "date", because "[Red]" contains a "d". |
| TemplateCells.DateByLetter | src/services/processors/xlsx_template_analyzer.py:415-416 | Any format holding a lower-case "d", "m" or "y", and no "$", "Currency" or "%", is typed "date" whatever the value. |
| TemplateCells.PrefixBeforeOperators | src/services/processors/xlsx_template_analyzer.py:433-441 | A known prefix (SUM, AVERAGE, IF, VLOOKUP/XLOOKUP, any case) decides before any operator. |
| TemplateCells.OperatorsInOrder | src/services/processors/xlsx_template_analyzer.py:442-451 | Without a known prefix, the description is the first of `*`, `/`, `+`, `-` the formula contains, else "Formula calculation". |
| TemplateCells.DescriptionIgnoresCase | src/services/processors/xlsx_template_analyzer.py:431-451 | Formulas equal up to case, with the same operators, get the same description. |
| TemplateCells.ColumnLetter | src/services/processors/xlsx_template_analyzer.py:180 | `get_column_letter` gives a non-empty run of capital letters. |
| TemplateCells.ColumnNumberOfLetter | src/services/processors/xlsx_template_analyzer.py:180 | The column letters read back as the column number. |
| TemplateCells.ColumnLetterOfNumber | src/services/processors/xlsx_template_analyzer.py:180 | Every run of capital letters is the letters of its column number: the conversion is a bijection. |
| TemplateCells.ColumnNumberPositive | src/services/processors/xlsx_template_analyzer.py:180 | Every column name of capital letters has a column number of at least 1. |
| TemplateCells.ColumnLetterShort | src/services/processors/xlsx_template_analyzer.py:180 | Excel's 16384 columns need at most three letters. |
| TemplateCells.CellRefReadable | src/services/processors/xlsx_template_analyzer.py:180 | The analyzer's cell reference is a reference the filler parses back to the same column and row. |
| TemplateAnalyzer.BoldCount | src/services/processors/xlsx_template_analyzer.py:338-347 | The bold count never exceeds the text count. |
| TemplateAnalyzer.DetectHeaderRows | src/services/processors/xlsx_template_analyzer.py:327-352 | The loops give the set of rows `IsHeaderRow` describes: row 1 by its first nine cells, rows 1–9 by bold majority over columns 1–19. |
| TemplateAnalyzer.HeaderRowsBounded | src/services/processors/xlsx_template_analyzer.py:331-350 | Only rows 1–9 within the sheet can be header rows. |
| TemplateAnalyzer.FirstRowQualifies | src/services/processors/xlsx_template_analyzer.py:331-334 | Row 1 is a header row when any of its first nine cells is a non-empty string. |
| TemplateAnalyzer.BoldRowQualifies | src/services/processors/xlsx_template_analyzer.py:337-350 | A row with text whose text cells in columns 1–19 are all bold is a header row. |
| TemplateAnalyzer.NoBoldNoHeader | src/services/processors/xlsx_template_analyzer.py:337-350 | A row other than row 1 with no bold cells in columns 1–19 is not a header row. |
| TemplateAnalyzer.MergeIndex | src/services/processors/xlsx_template_analyzer.py:183-192 | The merged range found is the first one containing the cell; none earlier contains it. |
| TemplateAnalyzer.MasterRefIsCorner | src/services/processors/xlsx_template_analyzer.py:188 | A range's master (`coord.split(":")[0]`) is its top-left cell. |
| TemplateAnalyzer.AnalyzeCellNoneIff | src/services/processors/xlsx_template_analyzer.py:170-233 | A cell is dropped exactly when it is in a merged range other than at its master, or it is EMPTY. A kept cell carries its own reference, position and type. |
| TemplateAnalyzer.AnalyzeCellDetails | src/services/processors/xlsx_template_analyzer.py:212-231 | A kept cell records its type's details: a formula with its description, a text, or an input with its data type and no label yet. It also records boldness and fill. |
| TemplateAnalyzer.CoveredCellDropped | src/services/processors/xlsx_template_analyzer.py:183-192 | With disjoint ranges, every covered cell other than the master is dropped. |
| TemplateAnalyzer.MasterCellKept | src/services/processors/xlsx_template_analyzer.py:183-211 | A non-empty master cell is kept, marked merged, and names itself as master. |
| TemplateAnalyzer.OfKindIn | src/services/processors/xlsx_template_analyzer.py:151-159 | Each type list holds only cells of that type from the scan. |
| TemplateAnalyzer.KindsPartition | src/services/processors/xlsx_template_analyzer.py:151-159 | The four type lists together are as long as the list of kept cells. |
| TemplateAnalyzer.Categorize | src/services/processors/xlsx_template_analyzer.py:150-159 | Appending one analyzed cell extends the list of its type, as filtering the scan does. |
| TemplateAnalyzer.MergedRegions | src/services/processors/xlsx_template_analyzer.py:121-126 | The merged-region list has one entry per range, in order. |
| TemplateAnalyzer.ScanRow | src/services/processors/xlsx_template_analyzer.py:146-159 | Scanning one row extends each type list with that row's cells of that type. |
| TemplateAnalyzer.ScanCells | src/services/processors/xlsx_template_analyzer.py:145-159 | The double loop gives the four type lists of the row-major cell scan. |
| TemplateAnalyzer.FindLabelAt | src/services/processors/xlsx_template_analyzer.py:394-404 | The label found is the first one at the given row and column; none earlier is there. |
| TemplateAnalyzer.FirstInColumn | src/services/processors/xlsx_template_analyzer.py:383-386 | The header found is the first one in the column. |
| TemplateAnalyzer.Associated | src/services/processors/xlsx_template_analyzer.py:365-390 | Association changes only an input's label and label cell. |
| TemplateAnalyzer.LeftLabelFirst | src/services/processors/xlsx_template_analyzer.py:369-374 | A label directly to the left wins: the first such label gives the text and cell. |
| TemplateAnalyzer.AboveLabelSecond | src/services/processors/xlsx_template_analyzer.py:376-381 | Without a left label, the first label directly above wins. |
| TemplateAnalyzer.ColumnHeaderThird | src/services/processors/xlsx_template_analyzer.py:383-390 | Without either, the first header of the same column wins. |
| TemplateAnalyzer.NoLabelUnchanged | src/services/processors/xlsx_template_analyzer.py:365-392 | With none of the three, the field is unchanged. |
| TemplateAnalyzer.LabelHasSource | src/services/processors/xlsx_template_analyzer.py:365-392 | Any label set comes from a label to the left, a label above, or a header of the column. |
| TemplateAnalyzer.AssociatedAll | src/services/processors/xlsx_template_analyzer.py:354-392 | Association keeps one field per input field. |
| TemplateAnalyzer.AssociateLabels | src/services/processors/xlsx_template_analyzer.py:354-392 | The loop gives each field its association, in order. |
| TemplateAnalyzer.AnalyzeSheet | src/services/processors/xlsx_template_analyzer.py:108-168 | The sheet analysis gives the schema `SheetSchemaOf` defines. |
| TemplateAnalyzer.ListsOfPlaced | src/services/processors/xlsx_template_analyzer.py:150-166 | From in-sheet cells, the type lists hold in-sheet cells of their own type, with headers only in header rows. The four lists together cover every kept cell. |
| TemplateAnalyzer.SchemaListsCells | src/services/processors/xlsx_template_analyzer.py:108-168 | Every listed cell lies in the sheet, under its own type, with headers only in header rows. The four lists together hold every kept cell. |
| TemplateAnalyzer.RegionsStartAtMaster | src/services/processors/xlsx_template_analyzer.py:121-126 | Every merged region's `start_cell` is the top-left cell of its range. |
| TemplateAnalyzer.TotalIsFlattenLength | src/services/processors/xlsx_template_analyzer.py:459-471 | A summed total is the length of all the sheets' lists put together. |
| TemplateAnalyzer.TotalSplits | src/services/processors/xlsx_template_analyzer.py:459-471 | Totals add over a split of the sheet list. |
| TemplateAnalyzer.GenerateSummary | src/services/processors/xlsx_template_analyzer.py:453-481 | There is one summary entry per sheet, with its counts, and the totals are the sums of the per-sheet list lengths. |
| TemplateAnalyzer.Analyze | src/services/processors/xlsx_template_analyzer.py:60-98 | There is one schema per sheet, in order, with the sheet count and the summary over those schemas. |
| ColumnTypes.AllPassIff | src/services/processors/docling_processor.py:309-318 | `all(test(v) for v in values)` holds exactly when every value passes. |
| ColumnTypes.TypeOfColumnMeaning | src/services/processors/docling_processor.py:295-322 | A column is empty exactly without values. Otherwise it is currency exactly when every value passes the currency test; percentage exactly when that fails and every value passes the percent test; numeric exactly when both fail and every value is numeric; text exactly when all three fail. |
| ColumnTypes.NonNull | src/services/processors/docling_processor.py:304 | `dropna()` keeps exactly the present values. |
| ColumnTypes.DetectColumnTypes | src/services/processors/docling_full_processor.py:470-497 | No result (a raise) exactly when two columns share a name, since `df[col]` is then a DataFrame without `tolist`. Otherwise every column name gets a type, no other name does, and each type is the one `TypesOf` defines. |
| ColumnTypes.TypesOfKeys | src/services/processors/docling_processor.py:302-320 | The type map has exactly the column names as keys. |
| ColumnTypes.EachColumnTyped | src/services/processors/docling_processor.py:302-320 | With distinct names, each column's entry is the type of its own non-null cells. |
| ColumnTypes.PlaceholdersAreNumeric | src/services/processors/docling_full_processor.py:499-508 | "", "-", "n/a" and "N/A" are numeric. |
| ColumnTypes.PlaceholderIsNumeric | src/services/processors/docling_processor.py:324-334 | A placeholder in any case of "n/a" is numeric. |
| ColumnTypes.NatStringIsNumeric | src/services/processors/docling_processor.py:324-334 | Decimal integers, positive and negative, are numeric. |
| ColumnTypes.DigitStringIsNumeric | src/services/processors/docling_processor.py:324-334 | A run of decimal digits, with or without a leading "-", is numeric. |
| ColumnTypes.FloatIsNumeric | src/services/processors/docling_processor.py:324-334 | An optionally signed float literal as `float()` reads it is numeric. |
| ColumnTypes.BlankColumnIsCurrency | src/services/processors/docling_processor.py:309-311 | A column of blank strings is typed currency: the currency test comes first and accepts blanks. |
| DoclingProcessor.PageOf | src/services/processors/docling_processor.py:207-211 | An item without provenance is on page 1. |
| DoclingProcessor.LastHeader | src/services/processors/docling_processor.py:342 | The header found last is a header, and none exists without it. |
| DoclingProcessor.FirstHeader | src/services/processors/docling_processor.py:342 | The header found first is a header, and none exists without it. |
| DoclingProcessor.ExtractSections | src/services/processors/docling_processor.py:336-365 | The section loop gives the sections `SectionsOf` defines. |
| DoclingProcessor.ScanHeader | src/services/processors/docling_processor.py:342-356 | A header closes the current section and opens a new one with its text, level and page. |
| DoclingProcessor.ScanBody | src/services/processors/docling_processor.py:357-359 | A text item after a header joins the current section's content. Before any header it is dropped. |
| DoclingProcessor.StepHeader | src/services/processors/docling_processor.py:342-356 | After a header, the newest section is that header's, with empty content. |
| DoclingProcessor.StepBody | src/services/processors/docling_processor.py:357-359 | A non-header keeps the newest header. |
| DoclingProcessor.ScanDone | src/services/processors/docling_processor.py:361-365 | Closing the last section gives every section. |
| DoclingProcessor.SectionCount | src/services/processors/docling_processor.py:342-363 | The number of sections is the number of header items. |
| DoclingProcessor.ContentIsTextAfterFirstHeader | src/services/processors/docling_processor.py:357-359 | The sections' contents together are exactly the non-header text items after the first header, in order: nothing before it and no header text. |
| DoclingProcessor.ContentOfLastSection | src/services/processors/docling_processor.py:357-363 | The last section's content is the text items after the last header. |
| DoclingProcessor.AfterFirstHeaderStep | src/services/processors/docling_processor.py:357-359 | The text after the first header splits at the last header. |
| DoclingProcessor.SplitAtHeader | src/services/processors/docling_processor.py:357-359 | A header contributes no content text. |
| DoclingProcessor.PageNumbers | src/services/processors/docling_processor.py:207-220 | The page numbers are distinct and are exactly the pages of the items. |
| DoclingProcessor.ExtractPages | src/services/processors/docling_processor.py:202-243 | There is one page per distinct page number, in ascending order, every item's page is among them, and each page holds what `PageOn` files there. |
| DoclingProcessor.FilePages | src/services/processors/docling_processor.py:205-240 | The filing loop files every item under its page, creating a page at its first item. |
| DoclingProcessor.PagesInOrder | src/services/processors/docling_processor.py:243 | Listing the pages by sorted key gives ascending, distinct page numbers covering every item. |
| DoclingProcessor.PageNumberKept | src/services/processors/docling_processor.py:213-219 | A page entry carries its own page number. |
| DoclingProcessor.HeaderFiledOnItsPage | src/services/processors/docling_processor.py:222-227 | A section header is listed under "headers" of its page, which is page 1 without provenance. |
| DoclingProcessor.HeadersGrow | src/services/processors/docling_processor.py:222-240 | Later items only append: a page's headers stay in place. |
| FullProcessor.CostarSlugsKnown | src/services/processors/docling_full_processor.py:42-100 | Every slug of the CoStar table is a grouping key other than "unknown". |
| FullProcessor.DetectSectionFromText | src/services/processors/docling_full_processor.py:178-199 | Empty text gives `None`. A result is a slug of the table. `None` means no pattern of any slug occurs in the text, ignoring case. |
| FullProcessor.FirstSlugFrom | src/services/processors/docling_full_processor.py:194-197 | The slug found is the first in table order with a pattern in the text. |
| FullProcessor.FirstDetecting | src/services/processors/docling_full_processor.py:214-223 | The text chosen is the first with a detection; none earlier has one. |
| FullProcessor.FirstDetected | src/services/processors/docling_full_processor.py:214-223 | A section detected from a list of texts is a known slug other than "unknown". |
| FullProcessor.GetPageSection | src/services/processors/docling_full_processor.py:201-227 | Headers decide before text items, and only the first five text items count. The result is "unknown" exactly when nothing is detected. |
| FullProcessor.OnlyFirstFiveTextItems | src/services/processors/docling_full_processor.py:220-223 | Text items after the fifth never change the page's section. |
| FullProcessor.HeadersBeforeText | src/services/processors/docling_full_processor.py:214-218 | When any header detects a section, the first such header decides it. |
| FullProcessor.StickyUnique | src/services/processors/docling_full_processor.py:523-542 | The sticky section of a page is unique. |
| FullProcessor.AssignPageSections | src/services/processors/docling_full_processor.py:510-542 | Every page is assigned, and each gets the latest detection at or before it in ascending order, or "unknown". |
| FullProcessor.StickyNext | src/services/processors/docling_full_processor.py:526-540 | One step of the loop keeps the sticky section. |
| FullProcessor.StickyFresh | src/services/processors/docling_full_processor.py:536-537 | A page with its own detection gets it. |
| FullProcessor.StickyFirst | src/services/processors/docling_full_processor.py:524-540 | A first page without a detection is "unknown". |
| FullProcessor.StickyCarried | src/services/processors/docling_full_processor.py:536-540 | A page without a detection inherits the previous page's section. |
| FullProcessor.AllStickyStep | src/services/processors/docling_full_processor.py:540 | Recording one page's sticky section keeps every recorded page sticky. |
| FullProcessor.SectionOf | src/services/processors/docling_full_processor.py:575 | A page without an assignment is in "unknown". |
| FullProcessor.AddPage | src/services/processors/docling_full_processor.py:578-595 | Placing a page appends it, its text and its table count. It sets the start page only the first time and the end page every time. |
| FullProcessor.PagesOn | src/services/processors/docling_full_processor.py:574-576 | A section's pages are exactly the pages assigned to it. |
| FullProcessor.TablesIn | src/services/processors/docling_full_processor.py:598-601 | A section's tables are exactly the tables whose page is assigned to it. |
| FullProcessor.PlacePages | src/services/processors/docling_full_processor.py:573-595 | The page loop gives every section the pages `PagesPlaced` defines. |
| FullProcessor.PageStep | src/services/processors/docling_full_processor.py:573-595 | Placing one page keeps every section equal to its accumulated pages. |
| FullProcessor.PagesWithoutTables | src/services/processors/docling_full_processor.py:573-598 | Before the tables are placed, every section is its pages alone. |
| FullProcessor.AccumulatedHasNoTables | src/services/processors/docling_full_processor.py:573-595 | The page loop places no tables. |
| FullProcessor.PlaceTables | src/services/processors/docling_full_processor.py:598-601 | The table loop gives every section the tables `TablesPlaced` defines. |
| FullProcessor.TableStep | src/services/processors/docling_full_processor.py:598-601 | Placing one table keeps every section equal to its specification. |
| FullProcessor.GroupBySection | src/services/processors/docling_full_processor.py:544-609 | The result has only keys from the section table plus "unknown", and only sections with a page or a table. Each section is its pages, tables and range. |
| FullProcessor.AccumulatedPages | src/services/processors/docling_full_processor.py:573-595 | A section's page list is exactly its pages in ascending order. Its start and end pages are the first and last of them. |
| FullProcessor.PagesOnIncreasing | src/services/processors/docling_full_processor.py:573-576 | Pages placed in ascending key order stay ascending in each section. |
| FullProcessor.EveryPageInOneSection | src/services/processors/docling_full_processor.py:573-607 | Every page is in exactly one section's page list, that section is kept, and every page list is ascending. |
| Transformer.SearchFromMeaning | src/services/processors/docling_transformer.py:385-392 | The header pattern search finds a match exactly when one exists at some position. |
| Transformer.FirstKindFrom | src/services/processors/docling_transformer.py:386-394 | The table type found is the first in `TABLE_PATTERNS` order with a matching pattern. |
| Transformer.IsPropertyInfoTable | src/services/processors/docling_transformer.py:400-425 | True exactly when headers and rows are non-empty, the joined lower-case headers contain "property", and at least 3 of the first 5 rows start with a cell ending in ":". |
| Transformer.KeyValueCountIsSize | src/services/processors/docling_transformer.py:418-423 | The key/value counter counts the rows whose first cell ends in ":". |
| Transformer.BucketIn | src/services/processors/docling_transformer.py:372-396 | A table with an error has no bucket. A property-info table goes to property_info, else the first matching type, else other. |
| Transformer.InBucketMembers | src/services/processors/docling_transformer.py:372-396 | A table is in a bucket exactly when it is among the input and that is its bucket. |
| Transformer.ClassifyTables | src/services/processors/docling_transformer.py:362-398 | The loop fills each bucket with exactly its tables, in input order. |
| Transformer.KindOf | src/services/processors/docling_transformer.py:379-396 | The bucket chosen for a usable table is its bucket. |
| Transformer.BucketsPartition | src/services/processors/docling_transformer.py:372-396 | The bucket sizes add up to the number of tables without an error: every other table lands in exactly one bucket. |
| Transformer.NormalizeValue | src/services/processors/docling_transformer.py:1132-1164 | "-" and "n/a" give `None`. Otherwise the value is a number literal or the stripped text. |
| Transformer.DecimalIsFloat | src/services/processors/docling_transformer.py:1148-1160 | A digit run with an optional fractional digit run is a literal `float()` accepts. |
| Transformer.PercentLiteral | src/services/processors/docling_transformer.py:1155-1160 | A percent literal found is a non-empty prefix of the text, directly followed by "%". |
| Transformer.CurrencyLiteralIsFloat | src/services/processors/docling_transformer.py:1148-1152 | The currency matcher returns only what `float()` accepts. |
| Transformer.NormalizePropertyKey | src/services/processors/docling_transformer.py:493-507 | A known key maps to its name. Any other key has its spaces replaced and its dots dropped, and never gets longer. |
| Transformer.PriceMatch | src/services/processors/docling_transformer.py:526 | The price matcher accepts only text starting with "$" and a digit/comma run, with an optional per-unit group without ")". |
| Transformer.ParseManagerValue | src/services/processors/docling_transformer.py:509-519 | A phone number sets "phone". Otherwise the first value sets "name", which is never overwritten. No other key changes. |
| Transformer.ParseOwnerValue | src/services/processors/docling_transformer.py:521-542 | An existing "name" is never overwritten. A new "name" comes only from a value that is neither a price text nor a date, and such a value always sets it. A "$" text the price pattern rejects changes nothing. Only the owner fields can change. |
| Transformer.PropertyEntry | src/services/processors/docling_transformer.py:470-474 | A property entry is taken only from a key ending in ":" with a non-empty normalised name, and a value that is neither empty nor "-". |
| Transformer.ParseRowEffect | src/services/processors/docling_transformer.py:462-489 | A row of fewer than two cells changes nothing. An owner marker switches to the owner block and changes neither the manager nor the owner data. No other row switches blocks. A row writes only the fields of the block it is in. |
| Transformer.ParsePropertyInfoTable | src/services/processors/docling_transformer.py:427-491 | The parse loop gives the data `ParseRows` defines. |
| Transformer.ReadRow | src/services/processors/docling_transformer.py:462-489 | One row updates the state as `ParseRow` defines. |
| Transformer.ParseRowBlock | src/services/processors/docling_transformer.py:462-482 | A row of fewer than two cells changes nothing. An owner marker switches to the owner block without changing either block's data. No other row switches blocks. |
| Transformer.ParseRowFields | src/services/processors/docling_transformer.py:484-489 | A row in the manager block never changes the owner data, and one in the owner block never changes the manager data. |
| Transformer.OwnerBlockIffMarker | src/services/processors/docling_transformer.py:478-482 | The parser ends in the owner block exactly when some row is an owner marker. |
| Transformer.OwnerBlockPermanent | src/services/processors/docling_transformer.py:478-482 | Once in the owner block, the parser stays there. |
| Transformer.NamesNeverOverwritten | src/services/processors/docling_transformer.py:518-519 | Once the manager's or the owner's "name" is set, later rows never change it. |
| Transformer.BlocksSeparate | src/services/processors/docling_transformer.py:484-489 | After the owner marker, no row changes the manager's data. |
| Transformer.FirstFound | src/services/processors/docling_transformer.py:1112-1117 | The first matching pattern, in order, gives the value. `None` means no pattern matches. |
| Transformer.FillKey | src/services/processors/docling_transformer.py:1111-1117 | Filling one key adds no key and changes only that key while it is `None`. |
| Transformer.FillFrom | src/services/processors/docling_transformer.py:1111-1117 | Extraction adds no keys, never overwrites a non-`None` value, and leaves keys without patterns alone. |
| Transformer.FilledFromItsPatterns | src/services/processors/docling_transformer.py:1111-1117 | A value that changed was `None` and has patterns of its own. |
| Transformer.ExtractKeyValues | src/services/processors/docling_transformer.py:1065-1117 | The loop over the pattern table fills the target as `FillFrom` defines. |
| Transformer.FillEntry | src/services/processors/docling_transformer.py:1112-1117 | One key is filled as `FillKey` defines. |
| Transformer.FindFirst | src/services/processors/docling_transformer.py:1113-1117 | The pattern loop stops at the first match. |
| Transformer.CellCandidates | src/services/processors/docling_transformer.py:893-899 | A table cell qualifies exactly when, stripped, it is longer than two characters and does not start with "-". |
| Transformer.LineCandidatesShape | src/services/processors/docling_transformer.py:886-905 | Every candidate is longer than two characters. Table cells never start with "-" and plain lines never start with "#". |
| Transformer.ParseAmenitiesFromText | src/services/processors/docling_transformer.py:882-907 | The loop builds the ordered, de-duplicated list of all line candidates. |
| Transformer.AmenitiesProperties | src/services/processors/docling_transformer.py:882-907 | The list has no duplicates, every item is longer than two characters, and every candidate of every line is in it. |
| Transformer.NormalizeHeaderNoSeparators | src/services/processors/docling_transformer.py:1119-1130 | A camelCased header has no whitespace, "_" or "-" left. |
| Transformer.NormalizeHeaderLetters | src/services/processors/docling_transformer.py:1119-1130 | Up to case, the camelCased header is the stripped header with its separators removed. |
| Transformer.SplitWordsConcat | src/services/processors/docling_transformer.py:1122 | The words of the split, put together, are the text without separators. |
| Transformer.LowerIdempotent | src/services/processors/docling_transformer.py:1126-1128 | Lower-casing is idempotent and undoes capitalising. |
| Transformer.StateToAbbrev | src/services/processors/docling_transformer.py:343-360 | A known state name, in any case, gives its abbreviation. An unknown name is returned unchanged. |
| Transformer.Transform | src/services/processors/docling_transformer.py:124-183 | An output with status "error" is returned unchanged, and only such an output. Otherwise the status is carried over ("success" by default) and the raw tables, their count and the raw text are kept. |
| Ordering.Insert | src/services/processors/docling_full_processor.py:526 | Inserting into an ascending list keeps it ascending with the element added once. |
| Ordering.Sort | src/services/processors/docling_full_processor.py:526 | `sorted(keys)` is ascending and has exactly the keys' elements. |
| Ordering.IncreasingUnique | src/services/processors/docling_full_processor.py:526 | Two ascending lists with the same elements are equal: the sorted order is unique. |
| Ordering.SortDistinctLength | src/services/processors/docling_full_processor.py:526 | Sorting distinct keys keeps their number. |

## Left out

- Docling itself is not part of this model. That covers the `DocumentConverter` setup, `convert`, `iterate_items`, the markdown/dict/dataframe/html exports, `_create_converter`, `_extract_metadata`, `process` and `main` of both processors. The converter's output is given as abstract item and table sequences.
- `_extract_tables` of both processors: it calls into pandas and Docling exports. Only its column typing (`ColumnTypes`) is modelled.
- `_extract_pages` of the full processor: it reads Docling provenance in the same way as the basic processor's `_extract_pages`, which is modelled. The grouping takes its page map as input.
- `process` of the full processor: directory creation and section JSON files are file I/O.
- The CLI `main` functions, `sys.exit`, logging, `load_workbook`, `workbook.save` and `load_mappings` are I/O.
- The outer `fill` loop (`xlsx_template_filler.py:63-168`) is not itself modelled. That covers the template copy (`shutil.copy2`), the sheet-not-found error entry, the timestamp and the save. One sheet's fill (`Filler.FillSheet`) and the report summary are modelled.
- `Filler.ApplyTransform`: `divide_by_100`, `to_number`, `years_since_purchase` and `extract_property_name` are floating-point, clock and generic-regex code. They are an uninterpreted parameter, and the contract says only that those names go to it.
- `Filler.FillArrayData`: a `row_start` that `range` refuses raises, and so does a `mappings` value that cannot be iterated or that yields a non-object. An empty string or empty object iterates to nothing and does not raise. A non-integer `max_rows` matters only when no Total row is found (`Filler.FillUncounted`). For a real `max_rows`, openpyxl's `delete_rows` is taken to raise whenever a deletion is due, because it hands the count to `range`. openpyxl is not part of this model. The sheet's state after a raise inside the row loop is taken as the state when the raise happened.
- `Filler.ColumnText`: in the error entry of a real, list or object `column`, the reference text is a stand-in (`<real>`, `[...]`, `{...}`), not Python's `str()`. Like Python's text, it is no cell reference, so the entry and its status are modelled.
- `Filler.CellFill`: a mapping field that is present but not a string (a numeric `json_path`, say) is treated like a missing one.
- `Filler.CellFill`: openpyxl's `IllegalCharacterError` on control characters in a string is not modelled. The only failed assignments are list and object values and unparsable references.
- `Sheets.ParseCellRef`: absolute references with `$` and multi-cell ranges are not parsed; they count as invalid.
- `Sheets.ParseCellRef`: any row from 1 up is accepted. openpyxl refuses rows above 1048576 when it fetches a cell; openpyxl is not part of this model. So a mapping to such a row is written here where `_fill_cell` would record an error, and `_fill_array_data`'s Total-row scan near that row does not raise.
- The JSON model keeps numbers as integers and reals. Float formatting, NaN and infinity are not modelled.
- Case mapping is ASCII only, `\w` is `[A-Za-z0-9_]` and `\d` is `[0-9]`. Python's Unicode rules for `lower()`, `upper()`, `\w` and `\d` are wider, and `int()` also reads non-ASCII decimal digits. Whitespace follows Python's `str.isspace()` exactly.
- `ColumnTypes.IsNumeric`: `float()` is modelled by its grammar for ASCII decimal literals, with underscores and exponents. It also accepts "inf", "infinity" and "nan", in any case. Non-ASCII digits are not; whitespace is stripped with Python's full `isspace()` set.
- `Transformer.NormalizeValue`: the `float()` conversions give the matched literal, not a floating-point number.
- `_get_data_type` and `_is_likely_input` take `is_date` as a cell field. The analyzer's font and fill objects are the fields `bold` and `fillColor`.
- The analyzer's `data_validations` and `dimensions` are openpyxl objects and not modelled. `json_path` is always `None` at this stage and is not modelled.
- `analyze`'s `template_name`, `file_path` and `analysis_date`, and its load-error result, are I/O and clock values.
- `_analyze_cell`'s `cell.coordinate in merged_range` test is `InRange` over the range's bounds.
- `_extract_sections`' `hasattr(item, 'label')` is modelled as every item having a label.
- `_parse_property_info_table` reads a row's values in dictionary order. Rows are given as value sequences in that order.
- The transformer's metric, expense, amenity-section and address extraction (`_build_structured_data`, `_extract_metrics_from_raw_text`, `_extract_amenities`, `_extract_all_amenities`, `_extract_address_from_sections`, `_find_sections_by_type`) and `_parse_currency`, `_parse_percentage` and `_parse_units` are floating-point or generic-regex code.
- `Transformer.Transform`: `processing_status` is taken to be a string or absent. A present `null` status, which `.get` returns as `None`, is not modelled.
- `Transformer.Transform`: the structured data, metadata, sections and pages of the transformed document are not modelled, and neither is the `except` branch that wraps a transformation error. The contract covers the status passthrough and the preserved raw fields.
- Dictionary iteration order in `_detect_column_types`, `_classify_tables`, `COSTAR_SECTIONS` and the key-pattern table is insertion order. The dictionaries these read are modelled as sequences. The dictionaries `_detect_column_types` and `_group_by_section` return are modelled as maps, so their key order is not modelled.

## Findings

| source | as written | input that shows it | evidently intended | confidence | as-written member | corrected member |
|---|---|---|---|---|---|---|
| src/services/processors/xlsx_template_filler.py:320-330, 392-397 | A summary row (its `bed` contains "total" or "all") is skipped but still advances `current_row`. The deletion starts at `row_start + rows_to_fill`, which counts only the data rows. A data row after a summary row is written below that point and then deleted, yet the report lists it as filled. | `row_start = 2`, `max_rows = 25`, `delete_empty_rows = True`, array `[{"bed": "All"}, {"units": 10}]`: A3 is written and reported, then row 3 is deleted. | Data rows are written contiguously from `row_start`, so that every written row survives the deletion. | not executed | Filler.SummaryRowDropsDataRow | Filler.ContiguousKeepsWrittenCells |
