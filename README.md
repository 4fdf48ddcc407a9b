# django-outputs, modelled in Dafny

django-outputs is a Django app that exports querysets to spreadsheets and
other formats. It mails the result to the chosen recipients, keeps a
status log of every export, and restricts which fields a user may export.
This project models the parts of it that have logic of their own and
proves what they promise:

- **Export-field permissions** (`permissions.dfy`, module `ExportPermissions`).
  Stored permissions are loaded into maps from an exporter key
  (`app.Model.Format`) to field names. Several maps are combined key by key
  as unions, and one map is subtracted from another. The module also looks
  up the fields permitted to a user for one exporter.
- **The permission widget** (`widgets.dfy`, module `PermissionWidget`).
  - `load_all_exportable_fields` collects every exporter's field groups and the largest group count.
  - `load_table_and_width` builds the checkbox table, every row padded to that count.
  - `load_choices` flattens that table.
  - `decompress` turns a permission map into `/`-separated checkbox keys, and `format_output` turns the keys back into a map. The round trip between the two is proved.
  - The module also covers the form field's `validate` and `clean`.
- **Exporters** (`exporters.dfy`, module `Exporters`).
  - ASCII-only filenames (`get_filename`).
  - Field selection for plain fields and iterative related sets (`get_selected_fields`).
  - Header and content layout on a worksheet (`write_header`, `write_content`, `write_data`), with each worksheet call recorded in a log.
  - The dotted attribute paths of `write_row`.
- **Export and scheduler models** (`models.dfy`, module `OutputsModels`).
  - The exporter class path and the filtering of the exporter's constructor arguments.
  - Field labels and the app label of an export.
  - The crontab line and description of a routine.
  - The scheduler's `job_id` bookkeeping against a registry of RQ jobs.
- **The field-choice form** (`forms.dfy`, module `ExportForms`).
  `ChooseExportFieldsForm` builds one multiple-choice field and one group
  checkbox per selectable group, enabled or disabled by permission. It lays
  the groups out in blocks and validates that at least one field is chosen.
- **Running and mailing exports** (`usecases.dfy`, module `Usecases`, and
  `jobs.dfy`, module `Jobs`). An export's status moves through PENDING,
  PROCESSING, FINISHED and FAILED; the exported items are marked; the file
  is stored; messages go one per recipient or one to all; a mailing job is
  queued. The exporter, storage backend and mail backend are parameters,
  and their effects are recorded in order in a `Log` (`effects.dfy`,
  module `Effects`).
- `common.dfy` (module `Common`) holds Option/Result and the exceptions the
  code raises. It also models the Python and Django string functions the
  code relies on (`split`, `rsplit`, `strip`, `capitalize`, Django's `title`,
  `str(int)`), and ordered dictionaries as sequences of pairs.

Where the code works step by step, the model does too: the loops of
`load`, `combine`, `substract`, `load_all_exportable_fields`, `load_table_and_width`, `decompress`,
`format_output`, `write_header`, `write_content`, `prepare_fields`,
`build_layouts` and `clean` are methods with loop invariants. Each is
proved against a function that defines its result. The objects whose
fields the code updates are classes: `Exporter`, `Worksheet`, `Export`,
`Scheduler`, the widget and the form.

Where the tests and the code disagree, the model follows the code:

- A bare dict given to `load_export_fields_permissions` raises TypeError (outputs/mixins.py:25-28), although a test expects it to be accepted.
- The crontab lines run at 05:00 (outputs/models.py:374-381), not at the hour the tests use.
- `export_items` imports `ExportItem` and calls `Export.update_export_items_result` (outputs/usecases.py:45, 68 and 77). Neither is defined in outputs/models.py. The model takes them as the update of the items' result that the tests describe, an `ItemsMarked` event.

## Model

| member | source | states |
|---|---|---|
| ExportPermissions.JsonLoads | outputs/mixins.py:34-37 | `json.loads` gives a value exactly for a parseable string; it raises ValueError exactly for the empty string and other text that is not JSON, and TypeError for anything that is not a string |
| ExportPermissions.LoadOne | outputs/mixins.py:33-42 | one stored permission loads to the map it encodes (a dict, its JSON text, or that text encoded once more) and to nothing else; otherwise TypeError, or ValueError exactly when one of the texts is empty or not JSON |
| ExportPermissions.Load | outputs/mixins.py:22-44 | a bare dict and any value that is not a string, list, tuple or queryset raise TypeError; a string becomes one element; otherwise the result succeeds exactly when every element loads, has one map per element, each the map that element encodes, and an error is that of the first element that fails |
| ExportPermissions.UnionOfCharacterised | outputs/mixins.py:55-61 | after the nested loops a key is present exactly when some input has it, and a field is in its set exactly when some input lists it under that key |
| ExportPermissions.Combine | outputs/mixins.py:46-66 | a value that is not a list, tuple or queryset raises TypeError; a single map is returned unchanged, duplicates included; otherwise the keys are the union of the inputs' keys, each key's fields are the union of its fields across the inputs, and no list repeats a field |
| ExportPermissions.UniteFieldSets | outputs/mixins.py:55-61 | the outer loop leaves the per-key union of all the maps' field sets |
| ExportPermissions.MergeKeys | outputs/mixins.py:57-61 | the inner loop adds every key's fields of one map to that key's set, creating missing keys with an empty set |
| ExportPermissions.ListValues | outputs/mixins.py:63-64 | every set becomes a list with the same keys, the same elements and no repeats |
| ExportPermissions.SetToList | outputs/mixins.py:64 | `list(s)` holds exactly the elements of `s`, each once |
| ExportPermissions.Subtract | outputs/mixins.py:68-85 | a non-dict argument raises TypeError; otherwise the result's keys are among first's; a key missing from second keeps its list; a key whose fields second covers is dropped; any other key maps to exactly the set difference, without repeats |
| ExportPermissions.SubtractThenCombineCovers | outputs/mixins.py:68-85 | nothing is lost: every field of first is in the union of the difference and second |
| ExportPermissions.SubtractedDisjoint | outputs/mixins.py:83 | what a key keeps after subtraction shares no field with second's list for that key |
| ExportPermissions.ExporterKeySplits | outputs/mixins.py:197-200 | the exporter key "app.Model.Format" splits back on "." into its three parts when none contains a dot |
| ExportPermissions.PermittedFields | outputs/mixins.py:176-205 | [] when the exporter has no selectable fields; a load error is that of some collected value; [] when the combined permissions are empty; ValueError when the model label is not "app.Model"; otherwise the list under "app.Model." + capitalised format ([] when the key is missing), or for several maps exactly the fields any of them grants under that key, without repeats |
| ExportPermissions.FormPermittedFields | outputs/mixins.py:218-225 | an active superuser gets True (all fields); anyone else gets the outcome of `get_permitted_fields` as a list: [] without selectable fields, the load error of some collected value, or else the fields granted for the exporter key, or ValueError for a bad model label |
| ExportPermissions.FalsyUserSkipped | outputs/mixins.py:180-182 | a falsy user value (None, "", {}, [], 0, False) is not collected: only the groups' values are |
| ExportPermissions.TruthyUserFirst | outputs/mixins.py:180-188 | a truthy user value is collected first, ahead of the groups' values |
| ExportPermissions.FalsyUserGroupOnly | outputs/mixins.py:180-205 | with a falsy user value and one group granting a non-empty map, the result is exactly that group's list under the exporter key ([] when missing) |
| PermissionWidget.FieldKeySplits | outputs/widgets.py:95 | a field key "exporter/attr" splits on "/" back into its exporter key and attribute |
| PermissionWidget.GroupKeySplits | outputs/widgets.py:88 | a group key "exporter/group/i" splits on "/" into exactly three parts |
| PermissionWidget.ExporterKeySingle | outputs/widgets.py:81 | a bare exporter key is a single "/"-part |
| PermissionWidget.Paddings | outputs/widgets.py:102-104 | the padding of a short row is exactly the requested number of empty groups |
| PermissionWidget.BuildGroup | outputs/widgets.py:86-98 | a group's cell has its label, the key "exporter/group/index" and one checkbox per field, labelled and keyed "exporter/attr", in field order |
| PermissionWidget.BuildRow | outputs/widgets.py:80-106 | the row of one exporter holds its groups' cells numbered from 0, then empty groups up to `max_field_groups` |
| PermissionWidget.LoadTableAndWidth | outputs/widgets.py:65-109 | the table is the rows of every app, model and format in order, each built as one exporter's row, and the width is `max_field_groups + 1` |
| PermissionWidget.AppendModelRows | outputs/widgets.py:76-106 | one app's models append their rows in order |
| PermissionWidget.AppendFormatRows | outputs/widgets.py:79-106 | one model's formats append one row each, in order, the format shown only when the model has several |
| PermissionWidget.FormatRowWellFormed | outputs/widgets.py:80-104 | one exporter's row is well formed (group i keyed "exporter/group/i", checkboxes keyed under "exporter/", padding only after the groups, at least `max_field_groups` cells) and shows its format exactly when the model has several formats |
| PermissionWidget.FormatRowsWellFormed | outputs/widgets.py:79-106 | every row of a model's formats is well formed, and the format is None exactly when the model has a single format |
| PermissionWidget.ModelRowsWellFormed | outputs/widgets.py:76-106 | every row of an app's models is well formed |
| PermissionWidget.TableWellFormed | outputs/widgets.py:73-106 | every row of the table is well formed |
| PermissionWidget.PaddedToWidth | outputs/widgets.py:101-104 | a well-formed row whose groups all fit within `max_field_groups` has exactly `max_field_groups` cells |
| PermissionWidget.FormatRowsRectangular | outputs/widgets.py:80-106 | the rows of a model's formats have exactly `max_field_groups` cells when no format has more groups |
| PermissionWidget.ModelRowsRectangular | outputs/widgets.py:76-106 | the rows of an app's models have exactly `max_field_groups` cells when no format has more groups |
| PermissionWidget.TableRectangular | outputs/widgets.py:73-107 | when no exporter has more groups than `max_field_groups`, every row of the table has exactly `max_field_groups` cells |
| PermissionWidget.AddExporterGet | outputs/widgets.py:143-150 | after an exporter is added, its groups are found under its app, model and format, and every other app keeps its entry |
| PermissionWidget.AddListed | outputs/widgets.py:122-150 | one pass: a listed exporter that does not override `selectable_fields` raises NotImplementedError (the mixin's own definition, mixins.py:376-377, is not caught), one with a model label that is not "app.Model" raises ValueError, an exporter that does not take part changes nothing |
| PermissionWidget.ExportableOfFails | outputs/widgets.py:122-150 | collecting fails exactly when some exporter that takes part raises (NotImplementedError from a `selectable_fields` it does not override, or ValueError from a bad model label), and the error is that of the first such exporter |
| PermissionWidget.ExportableOfErrPersists | outputs/widgets.py:122-150 | once an exporter has raised, the exporters after it change nothing, since the exception ends the loop |
| PermissionWidget.MaxFieldGroupsIsMax | outputs/widgets.py:120-154 | `max_field_groups` is at least the group count of every exporter that takes part, and is 0 or the count of one of them |
| PermissionWidget.PutFormatFits | outputs/widgets.py:148-150 | setting a format whose groups fit keeps every format of the model within `max_field_groups` groups |
| PermissionWidget.PutModelFits | outputs/widgets.py:144-146 | setting a model whose formats fit keeps every model within `max_field_groups` groups |
| PermissionWidget.PutAppFits | outputs/widgets.py:143-144 | setting an app whose models fit keeps every exporter within `max_field_groups` groups |
| PermissionWidget.AddExporterFits | outputs/widgets.py:143-150 | adding an exporter whose groups fit keeps every exporter within `max_field_groups` groups |
| PermissionWidget.ExportableOfFits | outputs/widgets.py:119-157 | no exporter in `all_exportable_fields` has more groups than `max_field_groups`, including one whose entry a later exporter replaced |
| PermissionWidget.LoadedTableRectangular | outputs/widgets.py:65-157 | the table built from what `load_all_exportable_fields` collects has exactly `max_field_groups` cells in every row |
| PermissionWidget.MergeIterativeSets | outputs/widgets.py:132-136 | the iterative sets update the selectable fields one after another, as `dict.update` does |
| PermissionWidget.LoadAllExportableFields | outputs/widgets.py:111-157 | fails exactly when some exporter that takes part raises, with the first such exporter's NotImplementedError or ValueError; otherwise the collected exportable fields with each exporter under app, model and capitalised format, and the largest group count |
| PermissionWidget.PermissionKeys | outputs/widgets.py:60-61 | the keys of a group's checkboxes, one per checkbox, in order |
| PermissionWidget.GroupChoices | outputs/widgets.py:57-61 | a group contributes its key followed by its checkboxes' keys |
| PermissionWidget.LoadChoices | outputs/widgets.py:46-63 | the choices are, row by row, the exporter key and then each non-empty group's key and checkbox keys |
| PermissionWidget.RowChoicesOf | outputs/widgets.py:53-61 | one row gives its exporter key and then each non-empty group's key and checkbox keys |
| PermissionWidget.AppendCellChoices | outputs/widgets.py:55-61 | a group adds its key and checkbox keys; padding adds nothing |
| PermissionWidget.PaddingAddsNoChoices | outputs/widgets.py:56-57 | empty groups add no choice |
| PermissionWidget.FormatRowChoices | outputs/widgets.py:56-57 | an exporter's row has the same choices whatever `max_field_groups` pads it to |
| PermissionWidget.ChoicesPointwise | outputs/widgets.py:52-61 | tables whose rows have pairwise the same choices have the same choices |
| PermissionWidget.SameChoicesAppend | outputs/widgets.py:52-61 | row-by-row agreement of choices is kept when tables are concatenated |
| PermissionWidget.FormatRowsCorrespond | outputs/widgets.py:79-106 | a model's rows for two padding widths agree in choices row by row |
| PermissionWidget.ModelRowsCorrespond | outputs/widgets.py:76-106 | an app's rows for two padding widths agree in choices row by row |
| PermissionWidget.TableCorrespond | outputs/widgets.py:73-106 | the tables for two padding widths agree in choices row by row |
| PermissionWidget.ChoicesIgnorePadding | outputs/widgets.py:46-63 | the choices do not depend on the padding width |
| PermissionWidget.RowKeysAreChoices | outputs/widgets.py:52-53 | every row's exporter key is a choice |
| PermissionWidget.PermissionsWidget.constructor | outputs/widgets.py:20-44 | a new widget over exportable fields in which no exporter has more than `max_field_groups` groups has nothing cached |
| PermissionWidget.PermissionsWidget.EnsureTable | outputs/widgets.py:37-38 | the table and width are loaded once and then kept |
| PermissionWidget.PermissionsWidget.GetTable | outputs/widgets.py:36-39 | `get_table` gives the table of the exportable fields, and every row of it has exactly `max_field_groups` cells |
| PermissionWidget.PermissionsWidget.GetTableWidth | outputs/widgets.py:41-44 | `get_table_width` gives `max_field_groups + 1` |
| PermissionWidget.PermissionsWidget.GetChoices | outputs/widgets.py:21-24 | `get_choices` gives the flattened table and caches it |
| PermissionWidget.FormatOutput | outputs/widgets.py:214-241 | an empty value gives {}; ValueError exactly when some key has more than three "/"-parts; otherwise the dict groups the fields of the two-part keys per exporter, and it is compressed exactly when `compress` is set and the dict is non-empty |
| PermissionWidget.FieldsForMembers | outputs/widgets.py:228-235 | a field is listed under an exporter exactly when some value is the two-part key "exporter/field" |
| PermissionWidget.GroupedGet | outputs/widgets.py:228-235 | an exporter is in the dict exactly when one of its two-part keys was given, and then it holds all its fields in input order |
| PermissionWidget.GroupedUnique | outputs/widgets.py:232-233 | each exporter appears once in the dict |
| PermissionWidget.DecodePayload | outputs/widgets.py:173-183 | an element decodes to the map it encodes; JSON null (and a text of it) is {}; ValueError exactly for a text that is empty or not JSON, otherwise TypeError |
| PermissionWidget.ResolveExporter | outputs/widgets.py:190-194 | ValueError exactly when the exporter key does not split into three dotted parts; a missing app, model or format is a KeyError; otherwise the groups stored for that app, model and format |
| PermissionWidget.CountPermittedPrefix | outputs/widgets.py:197-202 | the count stops at the first field that is not permitted and equals the group's size exactly when every field of the group is permitted |
| PermissionWidget.ExporterEntries | outputs/widgets.py:185-210 | one exporter contributes its field keys, the keys of its fully permitted groups and, when the counts match, its own key; a key that does not resolve raises the error resolving it gives |
| PermissionWidget.FieldKeysOf | outputs/widgets.py:186-187 | the field loop adds `exporter/field` for every permitted field |
| PermissionWidget.GroupEntries | outputs/widgets.py:191-206 | the group loop adds the key of every fully permitted group and counts all the exporter's fields |
| PermissionWidget.ItemEntries | outputs/widgets.py:172-210 | one element contributes the keys of all its exporters, or raises an error of decoding it or of one of its exporter keys |
| PermissionWidget.MapEntries | outputs/widgets.py:185-210 | when every exporter key resolves, all their keys; otherwise the error of an exporter key that does not resolve |
| PermissionWidget.AddExporterKeys | outputs/widgets.py:185-210 | one exporter key adds its keys to those collected, or raises its resolution error |
| PermissionWidget.KeysOverAdd | outputs/widgets.py:185-210 | one more exporter adds exactly its own keys to the collected set |
| PermissionWidget.Decompress | outputs/widgets.py:159-212 | a value that is not a string, dict, list, tuple or queryset raises TypeError; otherwise it succeeds exactly when every element does, with the union of their keys, and an error is that of some element |
| PermissionWidget.DecompressItems | outputs/widgets.py:172-210 | the element loop succeeds exactly when every element decodes and all its exporter keys resolve, giving the union of the elements' keys; an error is that of some element |
| PermissionWidget.DecompressedSnoc | outputs/widgets.py:172-210 | one more element adds exactly its keys to those collected |
| PermissionWidget.FieldKeyNotGroupKey | outputs/widgets.py:187-206 | a field key is never a group key when the field has no "/" |
| PermissionWidget.GroupKeyInjective | outputs/widgets.py:206 | distinct group indices give distinct group keys |
| PermissionWidget.FieldKeyInjective | outputs/widgets.py:187 | distinct fields give distinct field keys |
| PermissionWidget.GroupKeyExactly | outputs/widgets.py:192-206 | "exporter/group/i" is included exactly when every field of the i-th group is permitted |
| PermissionWidget.ExporterKeyExactly | outputs/widgets.py:209-210 | the bare exporter key is included exactly when the number of permitted fields equals the exporter's total field count |
| PermissionWidget.FieldKeyExactly | outputs/widgets.py:185-187 | "exporter/f" is included exactly when f is permitted |
| PermissionWidget.DecompressedSingle | outputs/widgets.py:164-165 | a single dict is decompressed as its one element |
| PermissionWidget.DecompressedKeyShape | outputs/widgets.py:185-210 | every decompressed key has at most three "/"-parts, and a two-part one is a permitted exporter and field |
| PermissionWidget.EntryKeyShape | outputs/widgets.py:185-210 | every key one exporter contributes has at most three "/"-parts, and a two-part one is that exporter and a permitted field |
| PermissionWidget.FieldKeyDecompressed | outputs/widgets.py:185-187 | every permitted field's key is decompressed and splits back into its exporter and field |
| PermissionWidget.RoundTrip | outputs/widgets.py:159-241 | `format_output(decompress(p), compress=False)` raises nothing, has exactly the keys of p with a non-empty list, and for each of them exactly p's fields |
| PermissionWidget.Validate | outputs/widgets.py:281-296 | a required empty value fails as required; a value that is not a list or tuple raises TypeError; otherwise it passes exactly when every element is a choice, and fails as an invalid choice otherwise |
| PermissionWidget.ToPython | outputs/widgets.py:303 | a falsy value is [], a list or tuple is kept, anything else is rejected |
| PermissionWidget.Clean | outputs/widgets.py:281-306 | a value `to_python` rejects gives its error; otherwise the result is an invalid_choice ValidationError exactly when some element is not a choice of the widget's table; with every element a choice it is `format_output` of the value compressed: ValueError exactly for a key of more than three parts, else the JSON text of the grouped fields, or {} when no field key was given |
| Exporters.AsciiOnlyCharacterised | outputs/mixins.py:289-290 | the sanitised name has only ASCII characters, exactly the ASCII characters of the input, and is no longer than it |
| Exporters.AsciiOnlyAppend | outputs/mixins.py:289-290 | sanitising a concatenation sanitises each part |
| Exporters.AsciiOnlyKeeps | outputs/mixins.py:289-290 | an all-ASCII name is left unchanged |
| Exporters.AsciiOnlyIdempotent | outputs/mixins.py:289-290 | sanitising twice is sanitising once |
| Exporters.Exporter.constructor | outputs/mixins.py:275-277 | the filename and `send_separately` are those given |
| Exporters.Exporter.GetFilename | outputs/mixins.py:284-292 | a missing or empty filename raises ValueError and changes nothing; otherwise the filename is replaced by its ASCII-only form, which is returned |
| Exporters.SecondFilenameCall | outputs/mixins.py:284-292 | a second call returns what the first returned, unless the name had no ASCII character at all, in which case the second call raises |
| Exporters.FilterMembers | outputs/mixins.py:546-549 | a field is selected exactly when it is declared and there is no selection or its attribute is selected |
| Exporters.FilterNone | outputs/mixins.py:548 | without a selection every declared field is selected |
| Exporters.FilterAppend | outputs/mixins.py:545-549 | selection keeps declaration order, group after group |
| Exporters.SelectFields | outputs/mixins.py:543-549 | the selected plain fields, in declaration order |
| Exporters.SelectFromSet | outputs/mixins.py:546-549 | the inner loop appends the chosen fields of one field set, in order |
| Exporters.MaxRelatives | outputs/mixins.py:558-561 | the iteration count is the greatest number of relatives any object has in the set, reached by some object |
| Exporters.IterativeSelectionRaises | outputs/mixins.py:566 | as written, with no selection a plain field is written but the same field in a related set raises TypeError |
| Exporters.IterativeAsWrittenAgrees | outputs/mixins.py:563-567 | as written and corrected agree whenever there is a selection |
| Exporters.IterativeAllWhenUnselected | outputs/mixins.py:563-567 | corrected: without a selection every field of a related set is selected, as for plain fields |
| Exporters.SelectedSets | outputs/mixins.py:553-576 | one report per declared related set, in order, each with its set attribute and an iteration count no object's relatives exceed |
| Exporters.GetSelectedFields | outputs/mixins.py:542-578 | with the corrected related-set filter (see ## Findings), which keeps every field when nothing is selected: the selected plain fields and, per related set, its selected fields, iteration count and verbose name; IndexError when there are sets and no objects; AttributeError exactly when some set has no relatives at all |
| Exporters.Worksheet.constructor | outputs/mixins.py:402 | a new worksheet has no calls |
| Exporters.Worksheet.Write | outputs/mixins.py:497 | a label write is appended to the calls |
| Exporters.Worksheet.SetColumn | outputs/mixins.py:498 | a column width is appended to the calls |
| Exporters.Worksheet.WriteRow | outputs/mixins.py:528 | one cell write is appended to the calls |
| Exporters.Worksheet.Autofilter | outputs/mixins.py:540 | the autofilter is appended to the calls |
| Exporters.PlainColumns | outputs/mixins.py:487-499 | one header column per plain field |
| Exporters.IterationColumns | outputs/mixins.py:503-515 | one header column per field of the set in each iteration |
| Exporters.HeaderCalls | outputs/mixins.py:497-498 | two calls per column: its label, then its width |
| Exporters.HeaderCallsSnoc | outputs/mixins.py:497-499 | one more column adds its label in row 0 and its width at the next column index |
| Exporters.HeaderCallsAt | outputs/mixins.py:488-499 | column k is labelled in row 0 at index k and its width set at k: columns are contiguous from 0 |
| Exporters.SetColumnsLength | outputs/mixins.py:502-503 | n iterations of a set give n times its fields columns |
| Exporters.IterativeColumnsLength | outputs/mixins.py:501-515 | the related sets give the sum of their iterations times their fields columns |
| Exporters.HeaderWidth | outputs/mixins.py:484-515 | the header has n + the sum of iteration_number times the number of set fields columns |
| Exporters.SetColumnsPrefix | outputs/mixins.py:502 | fewer iterations give a prefix of the columns |
| Exporters.IterativeColumnsPrefix | outputs/mixins.py:501 | fewer sets give a prefix of the columns |
| Exporters.SetColumnsAt | outputs/mixins.py:502-511 | in iteration i (from 1) the f-th field is at offset (i - 1) times the number of fields plus f, labelled "{verbose} #{i}: {label}" |
| Exporters.PlainColumnsAt | outputs/mixins.py:487-496 | plain field c is on column c with its own label, or the `header_update` override, and its width |
| Exporters.SetColumnsPlaced | outputs/mixins.py:501-515 | each set's columns directly follow those of the earlier sets |
| Exporters.IterativeColumnsAt | outputs/mixins.py:501-515 | the f-th field of the s-th set in iteration i is labelled "{verbose} #{i}: {label}" on the column after the plain fields, the earlier sets and the earlier iterations |
| Exporters.SetHeaderPlaced | outputs/mixins.py:501-515 | the s-th set's columns follow the plain fields and the columns of the sets before it |
| Exporters.WriteIterationHeader | outputs/mixins.py:503-515 | one iteration labels its fields on the next columns and advances `last_col` by their number |
| Exporters.WriteSetHeader | outputs/mixins.py:502-515 | a set's iterations 1..iteration_number label their columns in turn |
| Exporters.WritePlainHeader | outputs/mixins.py:485-499 | the plain fields are labelled on columns 0..n-1 |
| Exporters.WriteHeader | outputs/mixins.py:484-515 | the worksheet receives exactly the header calls of all columns, plain fields first |
| Exporters.RowCalls | outputs/mixins.py:523-535 | a row's cells are written on that row at columns 0, 1, ... |
| Exporters.RowCallsSnoc | outputs/mixins.py:529-535 | one more cell is written at the next column |
| Exporters.WritePlainCells | outputs/mixins.py:525-529 | the object's plain fields are written in order from column 0, and `col` ends at their number |
| Exporters.WriteRelativeCells | outputs/mixins.py:533-535 | one relative's fields are written in order from the current column on, advancing it by one per field |
| Exporters.WriteSetCells | outputs/mixins.py:531-535 | every relative of one set has its fields written in turn, from the current column on |
| Exporters.WriteObjectRow | outputs/mixins.py:523-535 | one object's plain fields and then its relatives' set fields are written along its row from column 0, and `col` ends at the row's width |
| Exporters.WriteContent | outputs/mixins.py:517-540 | object k (from 0) is written on row k + 1, and the autofilter covers rows 0..k and the widest row |
| Exporters.WriteRows | outputs/mixins.py:522-538 | object k (from 0) is written on row k + 1 and the widest row's width is kept |
| Exporters.ContentLayout | outputs/mixins.py:519-538 | every cell written for the k-th object is on row k + 1 and left of the widest row's end |
| Exporters.RowCellsSource | outputs/mixins.py:528-534 | every cell of an object's row holds that object or one of its relatives |
| Exporters.SetsCellsSource | outputs/mixins.py:531-535 | every related-set cell of a row belongs to that row's object |
| Exporters.RelativesCellsSource | outputs/mixins.py:532-535 | every relative's cell belongs to the row's object |
| Exporters.RelativesCellsLength | outputs/mixins.py:532-535 | n relatives give n times the set's fields cells |
| Exporters.RowCellsLength | outputs/mixins.py:523-535 | a row has one cell per plain field plus, per set, its relatives times the set's fields |
| Exporters.RelativesWithinIterations | outputs/mixins.py:531-535 | an object with no more relatives than a set's iterations has no more set cells than the header has set columns |
| Exporters.ContentFitsHeader | outputs/mixins.py:484-540 | with the iteration counts `get_selected_fields` reports, no row is wider than the header |
| Exporters.WriteData | outputs/mixins.py:580-594 | built on the corrected `get_selected_fields` (see ## Findings): an empty queryset writes nothing; it fails with AttributeError, writing nothing, exactly when a related set has no relatives; otherwise exactly the header of the selected fields and then their content |
| Exporters.ParseAttribute | outputs/mixins.py:427-431 | without both brackets the attribute is used as it is; otherwise the name is what precedes the last "[" |
| Exporters.ParseAttributeInverse | outputs/mixins.py:427-431 | "name[key]" parses back to name and key |
| OutputsModels.ExporterModule | outputs/models.py:73-81 | the mapped module when the mapping gives a non-empty string; the context's entry when the mapping is per context and names a non-empty one; for no entry, None, "" or no module for the context, the model's module without its last component, plus ".exporters" |
| OutputsModels.FallbackModule | outputs/models.py:78-81 | without a mapping, the exporters of "pkg.models" live in "pkg.exporters" |
| OutputsModels.ExporterPathSplits | outputs/models.py:83-89 | the exporter path splits at its last dot into the chosen module and the class name: model name, titled format without "_", titled context, then "Exporter" |
| OutputsModels.FilterParams | outputs/models.py:101-107 | the kept params are a sub-map of the exporter params, and a key is kept exactly when the constructor names it or accepts `kwargs` |
| OutputsModels.LastLabelCharacterised | outputs/models.py:158-162 | the lookup finds nothing exactly when no field definition has the attribute; otherwise it finds the label of the last definition with that attribute |
| OutputsModels.LabelMapLast | outputs/models.py:158-162 | the label dict holds an attribute exactly when some definition has it, with the label of the last one |
| OutputsModels.LaterDefinitionWins | outputs/models.py:160-162 | a definition made later overrides every earlier one of the same attribute |
| OutputsModels.GetFieldsLabels | outputs/models.py:143-167 | raises NotImplementedError exactly when the exporter does not override `selectable_fields`; otherwise one label per exported field, in order: the label of the field's last definition among the merged selectable fields (none when `selectable_fields()` raises AttributeError), or the field name itself |
| OutputsModels.MergeIterative | outputs/models.py:151-155 | the selectable fields become the result of updating them with every related set's field groups, in order |
| OutputsModels.AddGroupLabels | outputs/models.py:159-160 | one group's fields each map their attribute to their label, a later definition overriding an earlier one |
| OutputsModels.BuildLabelMap | outputs/models.py:157-160 | the label map holds, for every attribute in the groups, the label of its last definition |
| OutputsModels.GetAppLabel | outputs/models.py:214-227 | in the list and detail contexts the content type's app label, with `invoicing` read as `billing` and `exports` as `outputs`; otherwise a missing mapping entry or context is a KeyError, a string or None entry a TypeError, a None module an AttributeError, and a found label has no dot |
| OutputsModels.AppLabelOfModule | outputs/models.py:224-225 | in another context, a mapped module "project.app.tail" gives the label "app" |
| OutputsModels.Cron | outputs/models.py:357-383 | only the daily, weekly and monthly routines have a crontab line; any other routine raises NotImplementedError |
| OutputsModels.CronSchedules | outputs/models.py:374-381 | the lines are five-field crontab entries at minute 0 of hour 5: every day, every Monday ("0 5 * * 1"), or on the first of every month ("0 5 1 * *") |
| OutputsModels.CronDistinct | outputs/models.py:374-381 | different routines get different crontab lines |
| OutputsModels.RoutineDescription | outputs/models.py:263-268 | None exactly for a routine without a description |
| OutputsModels.DescribedIffSchedulable | outputs/models.py:263-383 | a routine has a description exactly when it has a crontab line |
| OutputsModels.JobStore.constructor | outputs/models.py:296-301 | the registry holds the given jobs |
| OutputsModels.JobStore.Delete | outputs/models.py:331 | deleting a job removes just that job |
| OutputsModels.JobStore.Register | outputs/models.py:343-348 | registering a cron job adds it under its new ID |
| OutputsModels.Scheduler.constructor | outputs/models.py:270-273 | a new scheduler has no job ID and no executions |
| OutputsModels.Scheduler.IsScheduled | outputs/models.py:291-323 | a scheduler without a job ID is never scheduled |
| OutputsModels.Scheduler.CancelSchedule | outputs/models.py:329-331 | the scheduled job, if there is one, is deleted; nothing else changes |
| OutputsModels.Scheduler.Schedule | outputs/models.py:333-355 | the old job is cancelled; then an active scheduler registers its routine's crontab line under the new ID and keeps exactly that ID as its job ID, and an inactive one clears its job ID, so the job ID is empty exactly when the scheduler is inactive; an active scheduler with an unknown routine raises NotImplementedError |
| OutputsModels.Scheduler.RecordExecution | outputs/cron.py:14-16 | the run's time is appended to the executions; nothing else changes |
| OutputsModels.ExportRecord.constructor | outputs/models.py:181 | a new export is PENDING, with the given fields and whether it has a creator |
| Usecases.GetMessage | outputs/usecases.py:179-198 | the message goes to the recipients with the exporter's subject or "Export: {plural name}"; it carries an attachment exactly when items were exported and there is no file URL; it fails with ValueError exactly when it needs the exporter's filename and the exporter has none, and otherwise leaves the filename ASCII-only or untouched |
| Usecases.DispatchAddressing | outputs/usecases.py:140-174 | sending separately sends exactly one message per address, to that address alone and in order; otherwise exactly one message goes to all addresses |
| Usecases.SentDispatch | outputs/usecases.py:140-174 | the messages sent by a dispatch are the mailing addressed to each recipient list, one per list, in order |
| Usecases.DispatchSnoc | outputs/usecases.py:140-157 | dispatching one more recipient list sends exactly one more message, addressed to that list |
| Usecases.RenamedKeeps | outputs/mixins.py:284-292 | the filename cleanup `get_filename` performs does not change the name a file is stored or attached under, keeps a nameable mailing nameable, and applied twice is the same as once |
| Usecases.StoreFile | outputs/usecases.py:117-133 | the file is stored under "exports/{name}" with the given output or the exporter's output; the URL linked is the backend's URL, else the stored path; with no filename anywhere it raises ValueError and stores nothing |
| Usecases.SendTo | outputs/usecases.py:159-174 | one message is built and sent to the recipients; a failure is ValueError (no name) or the backend's error, and nothing is sent then; with a working backend and a nameable file it succeeds |
| Usecases.SendEach | outputs/usecases.py:140-157 | on success the events are exactly one message per address in order; a failure raises ValueError or the backend's error and emits only stored files and messages |
| Usecases.Deliver | outputs/usecases.py:114-176 | on success the events are exactly the stored file (when files are saved) and then the messages of the chosen addressing; every failure is ValueError or the backend's error; with a working backend and a nameable file it succeeds |
| Usecases.SendAll | outputs/usecases.py:140-174 | after the file is stored, the messages go out one per recipient or as one message to all; on success the events are exactly those messages, the only failures are a ValueError for a missing name or the mail backend's error, and without a backend error a nameable export always succeeds |
| Usecases.MailSuccessfulExport | outputs/usecases.py:114-176 | the same delivery, made by a new exporter for the export given the requested filename and output |
| Usecases.StartTrail | outputs/usecases.py:52-53 | the start effects save exactly one status of the export, PROCESSING |
| Usecases.FinishTrail | outputs/usecases.py:66-67 | the finish effects save exactly one status of the export, FINISHED |
| Usecases.FailureTrail | outputs/usecases.py:75-81 | the failure effects save exactly one status of the export, FAILED, with or without whistle or a creator |
| Usecases.TrailOfTwo | outputs/usecases.py:52-56 | a status save followed by an event that saves none extends the export's status trail by that status only |
| Usecases.Start | outputs/usecases.py:52-56 | the export becomes PROCESSING and is saved, then its language is activated |
| Usecases.MarkFailed | outputs/usecases.py:74-111 | the export becomes FAILED and is saved, its items are marked FAILURE with the error's message, users are notified when whistle is installed and the export has a creator, and the exception it ends with is the error, or AttributeError from the creator lookup with whistle and no creator (models.py:57-58, usecases.py:103) |
| Usecases.FinishAndMail | outputs/usecases.py:66-72 | the export becomes FINISHED, is saved and its items are marked SUCCESS before the mailing; the status trail grows by FINISHED only |
| Usecases.ExportItems | outputs/usecases.py:37-111 | the run ends FINISHED exactly when it succeeds and FAILED exactly when it raises; a raising exporter gives PROCESSING then the failure effects and re-raises its own error, or AttributeError with whistle and no creator, in which case nobody is notified; a failing mailing gives the trail PROCESSING, FINISHED, FAILED and ends with the failure effects of the mailing's error, raising that error or, with whistle and no creator, AttributeError; success is start, finish and delivery effects; with a working exporter and backend and a nameable file it succeeds |
| Usecases.DeliveryStatusFree | outputs/usecases.py:114-176 | a delivery saves no status of any export |
| Usecases.SendMail | outputs/models.py:229-231 | the intended `send_mail` queues exactly one mailing job for this export, with the export class's dotted name, the language and the filename |
| Usecases.ExecuteExport | outputs/usecases.py:24-34 | a failing save raises its error and emits nothing; a saved export without a filename raises ValueError after the save; otherwise the export is saved and its mailing queued with the ASCII-only filename |
| Usecases.ExecuteExportAsWritten | outputs/usecases.py:24-34 | as written, every run raises, a saved export with a filename raises AttributeError, and no mailing job is ever queued |
| Jobs.GetMessage | outputs/jobs.py:144-163 | the message has the exporter's subject or the default, attaches the exporter's own output exactly when items were exported and there is no URL, and fails with ValueError exactly when it needs a filename the exporter does not have |
| Jobs.MarkJobFailed | outputs/jobs.py:67-94 | the export becomes FAILED and is saved, then users are notified when whistle is installed and the export has a creator; the exception it ends with is the error, or AttributeError from the creator lookup with whistle and no creator (jobs.py:86) |
| Jobs.DeliverAndFinish | outputs/jobs.py:96-141 | on success the delivery's effects are followed by FINISHED; a failing delivery raises ValueError or the backend's error and leaves the status unchanged |
| Jobs.MailExport | outputs/jobs.py:48-141 | the corrected job (see ## Findings): FINISHED exactly when it succeeds; a raising exporter ends FAILED with start and failure effects and always re-raises its error, or AttributeError with whistle and no creator; a failing delivery leaves it PROCESSING; with a working exporter and backend and a nameable file it succeeds |
| Jobs.MailExportAsWritten | outputs/jobs.py:48-141 | as written: with whistle a raising exporter ends FAILED and re-raises its error, or AttributeError when the export has no creator; without whistle a failed export is mailed anyway and ends FINISHED with the successful result |
| Jobs.DeliveryOnlyDelivers | outputs/jobs.py:96-137 | a delivery's effects are only stored files and sent messages |
| Jobs.FailedRunEndsFinished | outputs/jobs.py:67-141 | without whistle a failed run that gets mailed saves PROCESSING, FAILED and then FINISHED, with or without a creator |
| Jobs.AsWrittenFailureTrail | outputs/jobs.py:67-141 | the as-written job's trail for a failed and then mailed export ends FINISHED |
| Jobs.CorrectedFailureTrail | outputs/jobs.py:67-94 | the corrected job's trail for a failed export is PROCESSING then FAILED, with or without whistle or a creator |
| Jobs.MailExportById | outputs/jobs.py:32-45 | built on the corrected `mail_export` (see ## Findings): a missing export raises DoesNotExist and emits nothing; otherwise the export is set PROCESSING (by the function and again by `mail_export`) with its language activated, then FAILED with the failure effects and the error re-raised (AttributeError with whistle and no creator) when the exporter raises, FINISHED after the delivery on success, still PROCESSING when the delivery fails |
| Jobs.ExecuteExport | outputs/jobs.py:19-28 | built on the corrected `send_mail` (see ## Findings): a failing save raises its error and emits nothing; otherwise the new export is saved and its mailing queued with the filename among the exporter's parameters |
| ExportForms.ChoiceRule | outputs/forms.py:56-62 | each choice keeps its field's attribute and label, one per field in order, and is disabled exactly when not every field is permitted and the attribute is not among the permitted ones |
| ExportForms.ChoicesLength | outputs/forms.py:56-64 | a group has one choice per field |
| ExportForms.InitialRule | outputs/forms.py:65 | the initial selection holds exactly the group's permitted attributes, no more entries than the group has, and every attribute in order when all fields are permitted |
| ExportForms.InitialLength | outputs/forms.py:65 | the initial selection has no more entries than the group has fields |
| ExportForms.InitialMember | outputs/forms.py:65 | an attribute is initially selected exactly when a field of the group has it and it is permitted |
| ExportForms.InitialAll | outputs/forms.py:65 | when all fields are permitted the initial selection is every attribute of the group, in order |
| ExportForms.PreparedFieldsLayout | outputs/forms.py:52-73 | the i-th group adds `field_group_i`, holding its choices and initial selection, at position 2i and `group_i`, labelled with the group's name, at 2i+1 |
| ExportForms.GroupFieldsPrefix | outputs/forms.py:55-73 | the fields added for the first k groups come first, before those of the later groups |
| ExportForms.GroupFieldsAt | outputs/forms.py:55-73 | the i-th group's two fields sit at positions 2i and 2i + 1, and two fields are added per group |
| ExportForms.GroupFieldsLength | outputs/forms.py:52-73 | two fields are added per selectable group |
| ExportForms.GroupFieldsKeys | outputs/forms.py:66-71 | the added keys are exactly `field_group_j` and `group_j` for the groups' indices j |
| ExportForms.GroupFieldsKeyList | outputs/forms.py:66-71 | the added keys are, in order, `field_group_j` and then `group_j` for each group index j |
| ExportForms.AddedKeysMembers | outputs/forms.py:66-71 | the key list for n groups holds exactly the two keys of each index below n |
| ExportForms.KeysDistinct | outputs/forms.py:66-71 | group keys of different indices differ, the two kinds never collide, and none is a static field name |
| ExportForms.FreshGroupKeys | outputs/forms.py:66-71 | the keys about to be added for the next group are not yet among the form's fields, so the assignments append |
| ExportForms.FormKeysUnique | outputs/forms.py:36-73 | every field the form declares or adds has its own name |
| ExportForms.GroupBlocksAt | outputs/forms.py:85-96 | the i-th block of n groups has legend `group_i` and shows `field_group_i` |
| ExportForms.GroupBlocksLength | outputs/forms.py:85-96 | n groups give n blocks |
| ExportForms.StripFieldGroupKey | outputs/forms.py:88 | stripping the characters of "field_" from both ends of `field_group_i` gives `group_i` |
| ExportForms.BlocksSingle | outputs/forms.py:85-96 | one field gives a block exactly when its key starts with "field" and is not static, with the stripped key as its legend |
| ExportForms.BlocksAppend | outputs/forms.py:85-96 | blocks are made field by field, in the fields' order |
| ExportForms.BlocksOfGroups | outputs/forms.py:85-96 | the prepared group fields give exactly one block per group, in group order |
| ExportForms.FormLayout | outputs/forms.py:75-108 | a prepared form's layout is the recipients and filename row, the select-all row exactly when there is a group, then one block per group labelled `group_i` showing `field_group_i` |
| ExportForms.StaticBlocks | outputs/forms.py:85-96 | the recipients, filename and select-all fields open no group block |
| ExportForms.KeysAppend | outputs/forms.py:117 | the keys of two concatenated dicts are the first's keys then the second's |
| ExportForms.WithoutKey | outputs/forms.py:112 | popping a key removes it and keeps every other key |
| ExportForms.Ungrouped | outputs/forms.py:117-119 | the entries left are exactly those whose key does not start with "group" |
| ExportForms.AnyChosen | outputs/forms.py:123 | the answer is true exactly when some value is truthy |
| ExportForms.ChosenFieldCounts | outputs/forms.py:117-124 | an entry that is neither a group checkbox nor static and holds a truthy value makes the check pass |
| ExportForms.ChooseExportFieldsForm.constructor | outputs/forms.py:36-50 | the form keeps the selectable and permitted fields, records the three static names, then holds the static fields followed by the prepared group fields and their layout |
| ExportForms.ChooseExportFieldsForm.PrepareFields | outputs/forms.py:52-73 | the form's fields become the static ones followed by a multiple-choice field and a group checkbox per group, layout untouched |
| ExportForms.ChooseExportFieldsForm.AddGroupFields | outputs/forms.py:55-73 | one pass of the loop appends the group's multiple-choice field and then its checkbox, the layout unchanged |
| ExportForms.ChooseExportFieldsForm.BuildChoices | outputs/forms.py:56-64 | the loop builds the group's choices as the reference definition gives them |
| ExportForms.ChooseExportFieldsForm.BuildInitial | outputs/forms.py:65 | the initial selection is the group's permitted attributes in group order |
| ExportForms.ChooseExportFieldsForm.BuildLayouts | outputs/forms.py:75-108 | the layout is rebuilt from the fields and the static names, fields untouched |
| ExportForms.ChooseExportFieldsForm.PopGroups | outputs/forms.py:117-121 | the loop keeps exactly the entries not starting with "group" and collects the values of the non-static ones among them |
| ExportForms.ChooseExportFieldsForm.Clean | outputs/forms.py:110-126 | KeyError without `select_all`; with no selectable groups the data less `select_all`; otherwise a ValidationError "Select at least one option" exactly when no checked value is truthy, else the data without `select_all` and the group checkboxes |

## Left out

- The code not modelled: views, filter sets, admin, URL routing, app configuration, signals and their notification tasks, querysets, migrations, settings and test fixtures. They are framework wiring with no logic of their own.
- outputs/cron.py appears only as `Scheduler.RecordExecution`, which appends a time stamp to `executions`. The time stamp is a parameter.
- Parsing JSON text is not modelled. A stored text is a value that records what `json.loads` gives for it, or that it is not JSON. The empty string is a value of its own, since it is falsy and not JSON. Any other Python value records only its truthiness. `json.dumps` in `format_output` is a `Compressed` wrapper.
- `load_all_exportable_fields` does not find the exporter classes itself. The result of `ExcelExporterMixin.__subclasses__()` is a parameter, in the order the set yields it, and the `hasattr`/`exclude_in_permission_widget` test is each exporter's `listed` flag. An AttributeError raised part-way through the `selectable_iterative_sets()` loop is treated as raised before any update.
- PermissionWidget.PermissionsWidget.constructor takes the exportable fields and `max_field_groups` already loaded, and requires that no exporter has more groups than that. `ExportableOfFits` proves this of what `LoadAllExportableFields` returns. The getters' lazy call of `load_all_exportable_fields` is not modelled.
- The ORM is not modelled: querysets, `ContentType`, `annotate`/`Count`, `save()`. Objects are values or parameters, and a save is a `StatusSaved` or `ExportSaved` event.
- `import_string` is not modelled. `get_exporter_class` is modelled as the dotted path it imports, and `AppLabelOfModule`/`ExporterPathSplits` state how that path splits.
- `inspect.signature` is not modelled. The constructor's parameter names and whether it takes `**kwargs` are parameters.
- django_rq, Redis, the RQ scheduler and `.delay` are not modelled. A queued mailing is a `MailQueued` event, and the scheduler's registry is the `JobStore` class. The job ID the scheduler draws is a parameter.
- Email sending, template rendering, file storage, `translation.activate` and whistle are effects recorded in the `Log`. Their answers are parameters: the backend's error, the stored path and URL, the exporter's subject and output. A rendered body is `Body(count, fileUrl)`.
- The notification fan-out of `notify_about_failed_export` is not modelled user by user. It is one `FailureNotified` event.
- The logging done with `logger` is not modelled, because it has no effect on results.
- xlsxwriter is not modelled. Cell formats, column widths in characters, merged formats, and the date and time conversion with `localtime` in `write_row` are left out. A cell write records the object whose attribute it shows, and the worksheet is a log of calls.
- `str(e)` is modelled only for the exceptions the model distinguishes. The built-in ones carry an empty message.
- ExportPermissions.SetToList and the other conversions from a Python set to a list promise only the elements and that no element repeats. The order of a Python set is not specified.
- PermissionWidget.Decompress: the order keys are visited in is chosen freely. Its error is "that of some element or key", not the first in dictionary order.
- PermissionWidget.DecompressItems, PermissionWidget.ItemEntries and PermissionWidget.MapEntries share that choice: each promises the error of some failing element or key, not the first in dictionary order.
- PermissionWidget.RoundTrip: it is stated for permission maps whose keys and fields contain no "/" and whose exporter keys name exportable fields. It gives back exactly the keys whose list is not empty, since `format_output` builds an exporter's entry only from that exporter's field keys. A key with an empty list therefore does not come back, and the model states no more than that.
- ExportForms.ChooseExportFieldsForm.Clean models the loop that pops keys from `cleaned_data` as building the filtered dictionary. The mutation of the caller's dictionary in place is not modelled.
- `mail_successful_export` is modelled with a fresh `Exporter` for the export, on which `get_filename` acts. The jobs' delivery reuses `Usecases.Deliver` with the exporter's own output.
- Exporters.GetSelectedFields, Exporters.WriteData, Jobs.MailExportById and Jobs.ExecuteExport are stated for the corrected pieces named under "## Findings", not for the code as written. As written, `get_selected_fields` raises TypeError for a related set when no fields are selected, `mail_export_by_id` runs the `mail_export` whose `raise` is inside the whistle branch, and `execute_export` raises AttributeError from `send_mail`. The as-written members beside each finding cover those.
- `mail_export_by_id` saves PROCESSING itself and `mail_export` saves it again. The model keeps both saves.
- Unicode is not modelled beyond ASCII. `capitalize` and `title` change only the letters A–Z and a–z.

## Findings

| source | as written | input that shows it | evidently intended | confidence | as-written member | corrected member |
|---|---|---|---|---|---|---|
| outputs/mixins.py:566 | each field of an iterative related set is kept only if `get_attribute(field) in self.selected_fields` | `selected_fields` is None (no selection) and a related set declares a field: `attr in None` raises TypeError | with no selection, every field of a related set is kept, as for plain fields (mixins.py:549) | not executed | Exporters.IterativeSelectionRaises | Exporters.IterativeAllWhenUnselected |
| outputs/jobs.py:94 | the `raise` of the `except` block is inside the whistle `if` | an exporter whose `export()` raises, with whistle not installed: the export is saved FAILED, then mailed and saved FINISHED, and the job succeeds | the exception is raised again whether or not whistle is installed, so a failed export ends FAILED, as `export_items` does (usecases.py:81, 111) | not executed | Jobs.MailExportAsWritten | Jobs.MailExport |
| outputs/models.py:229-231 | `send_mail` calls `jobs.mail_export.delay(...)` | any saved export with a filename reaching `execute_export` (usecases.py:31, jobs.py:28): `mail_export` has no `@job` decorator and no `delay` attribute, so AttributeError is raised and nothing is queued | queue the mailing job for the export with its ID, class name, language and filename | not executed | Usecases.ExecuteExportAsWritten | Usecases.ExecuteExport |
