/**
 * The export-fields permission widget (outputs/widgets.py): the table of
 * exporters and field groups it renders, the flat list of checkbox
 * choices, the codec between a permission map and the set of checked
 * keys, and the form field's validation.
 *
 * Checkbox keys are "/"-separated: "app.Model.Format" for a whole exporter,
 * "app.Model.Format/attr" for one field and "app.Model.Format/group/i" for
 * the i-th field group.
 */
module PermissionWidget {
  import opened Common
  import opened ExportPermissions

  // ---------------------------------------------------------------------
  // Keys
  // ---------------------------------------------------------------------

  /** The checkbox key of one field of an exporter. */
  function FieldKey(exporterKey: string, attr: string): string
  {
    exporterKey + "/" + attr
  }

  /** The checkbox key of the index-th field group of an exporter. */
  function GroupKey(exporterKey: string, index: nat): string
  {
    exporterKey + "/" + "group" + "/" + NatToString(index)
  }

  /** A field key splits back into its exporter key and attribute. */
  lemma FieldKeySplits(exporterKey: string, attr: string)
    requires '/' !in exporterKey && '/' !in attr
    ensures Split(FieldKey(exporterKey, attr), '/') == [exporterKey, attr]
  {
    SplitPair(exporterKey, '/', attr);
  }

  /** A group key splits into three parts. */
  lemma GroupKeySplits(exporterKey: string, index: nat)
    requires '/' !in exporterKey
    ensures Split(GroupKey(exporterKey, index), '/') == [exporterKey, "group", NatToString(index)]
  {
    NatToStringHasNo(index, '/');
    SplitTriple(exporterKey, '/', "group", NatToString(index));
    assert GroupKey(exporterKey, index) == exporterKey + ['/'] + "group" + ['/'] + NatToString(index);
  }

  /** A bare exporter key is a single part. */
  lemma ExporterKeySingle(exporterKey: string)
    requires '/' !in exporterKey
    ensures Split(exporterKey, '/') == [exporterKey]
  {
    SplitJoin([exporterKey], '/');
  }

  // ---------------------------------------------------------------------
  // load_table_and_width
  // ---------------------------------------------------------------------

  /** Capitalised format to the exporter's selectable fields. */
  type Formats = seq<(string, FieldGroups)>
  /** Model name to its formats. */
  type Models = seq<(string, Formats)>
  /** `all_exportable_fields`: app label to its models, in insertion order. */
  type Exportable = seq<(string, Models)>

  /** One checkbox of a group: the field label and its key. */
  datatype Permission = Permission(caption: string, key: string)

  /** A table cell: a field group, or the empty dict that pads a short row. */
  datatype Cell = Padding | Group(caption: string, key: string, permissions: seq<Permission>)

  /** A table row: one exporter (a model in one format). */
  datatype Row = Row(app: string, model: string, format: Option<string>, exporterKey: string, fieldGroups: seq<Cell>)

  /** The cell of the index-th group of an exporter. */
  function GroupCell(exporterKey: string, index: nat, group: (string, seq<FieldDef>)): Cell
  {
    var fields := group.1;
    Group(group.0, GroupKey(exporterKey, index),
          seq(|fields|, j requires 0 <= j < |fields| => Permission(fields[j].caption, FieldKey(exporterKey, fields[j].attr))))
  }

  /** n padding cells. */
  function Paddings(n: nat): (cs: seq<Cell>)
    ensures |cs| == n && forall i :: 0 <= i < n ==> cs[i] == Padding
  {
    seq(n, _ => Padding)
  }

  /** The padding a row of `count` groups gets: up to `maxFieldGroups`, never negative. */
  function PadCount(count: nat, maxFieldGroups: int): nat
  {
    if count < maxFieldGroups then maxFieldGroups - count else 0
  }

  /** The row of one exporter; the format is shown only when the model has several. */
  function FormatRow(app: string, model: string, multi: bool, format: string, groups: FieldGroups, maxFieldGroups: int): Row
  {
    var key := ExporterKey(app, model, format);
    Row(app, model, if multi then Some(format) else None, key,
        seq(|groups|, i requires 0 <= i < |groups| => GroupCell(key, i, groups[i]))
        + Paddings(PadCount(|groups|, maxFieldGroups)))
  }

  /** The rows of some formats of one model. */
  function FormatRows(app: string, model: string, formats: Formats, multi: bool, maxFieldGroups: int): seq<Row>
  {
    seq(|formats|, i requires 0 <= i < |formats| => FormatRow(app, model, multi, formats[i].0, formats[i].1, maxFieldGroups))
  }

  /** The rows of the models of one app, model by model. */
  function ModelRows(app: string, models: Models, maxFieldGroups: int): seq<Row>
  {
    if |models| == 0 then []
    else
      var last := models[|models| - 1];
      ModelRows(app, models[..|models| - 1], maxFieldGroups) + FormatRows(app, last.0, last.1, |last.1| > 1, maxFieldGroups)
  }

  /** The table: the rows of every app, app by app. */
  function TableOf(exportable: Exportable, maxFieldGroups: int): seq<Row>
  {
    if |exportable| == 0 then []
    else
      var last := exportable[|exportable| - 1];
      TableOf(exportable[..|exportable| - 1], maxFieldGroups) + ModelRows(last.0, last.1, maxFieldGroups)
  }

  /** The inner field loop: one group's cell. */
  method BuildGroup(exporterKey: string, index: nat, group: (string, seq<FieldDef>)) returns (cell: Cell)
    ensures cell == GroupCell(exporterKey, index, group)
  {
    var permissions: seq<Permission> := [];
    var fields := group.1;
    for j := 0 to |fields|
      invariant |permissions| == j
      invariant forall m :: 0 <= m < j ==> permissions[m] == Permission(fields[m].caption, FieldKey(exporterKey, fields[m].attr))
    {
      permissions := permissions + [Permission(fields[j].caption, FieldKey(exporterKey, fields[j].attr))];
    }
    cell := Group(group.0, GroupKey(exporterKey, index), permissions);
  }

  /** The body of the format loop: the row of one exporter, padded to `maxFieldGroups` groups. */
  method BuildRow(app: string, model: string, multi: bool, format: string, groups: FieldGroups, maxFieldGroups: int)
    returns (row: Row)
    ensures row == FormatRow(app, model, multi, format, groups, maxFieldGroups)
  {
    var exporterKey := ExporterKey(app, model, format);
    var cells: seq<Cell> := [];
    var index := 0;
    while index < |groups|
      invariant 0 <= index <= |groups|
      invariant |cells| == index
      invariant forall m :: 0 <= m < index ==> cells[m] == GroupCell(exporterKey, m, groups[m])
    {
      var cell := BuildGroup(exporterKey, index, groups[index]);
      cells := cells + [cell];
      index := index + 1;
    }
    if index < maxFieldGroups {
      for i := index to maxFieldGroups
        invariant |cells| == i
        invariant forall m :: 0 <= m < index ==> cells[m] == GroupCell(exporterKey, m, groups[m])
        invariant forall m :: index <= m < i ==> cells[m] == Padding
      {
        cells := cells + [Padding];
      }
    }
    row := Row(app, model, if multi then Some(format) else None, exporterKey, cells);
  }

  /** The format loop of `load_table_and_width`: one row per format of a model, appended to the table. */
  method AppendFormatRows(table: seq<Row>, app: string, model: string, formats: Formats, maxFieldGroups: int)
    returns (table': seq<Row>)
    ensures table' == table + FormatRows(app, model, formats, |formats| > 1, maxFieldGroups)
  {
    table' := table;
    for f := 0 to |formats|
      invariant table' == table + FormatRows(app, model, formats[..f], |formats| > 1, maxFieldGroups)
    {
      var row := BuildRow(app, model, |formats| > 1, formats[f].0, formats[f].1, maxFieldGroups);
      assert FormatRows(app, model, formats[..f + 1], |formats| > 1, maxFieldGroups)
          == FormatRows(app, model, formats[..f], |formats| > 1, maxFieldGroups) + [row];
      table' := table' + [row];
    }
    assert formats[..|formats|] == formats;
  }

  /** The model loop of `load_table_and_width`: the rows of an app's models, appended to the table. */
  method AppendModelRows(table: seq<Row>, app: string, models: Models, maxFieldGroups: int) returns (table': seq<Row>)
    ensures table' == table + ModelRows(app, models, maxFieldGroups)
  {
    table' := table;
    for m := 0 to |models|
      invariant table' == table + ModelRows(app, models[..m], maxFieldGroups)
    {
      table' := AppendFormatRows(table', app, models[m].0, models[m].1, maxFieldGroups);
      assert models[..m + 1][..m] == models[..m];
    }
    assert models[..|models|] == models;
  }

  /** `load_table_and_width`: the table of all exporters and its width in columns. */
  method LoadTableAndWidth(exportable: Exportable, maxFieldGroups: int) returns (table: seq<Row>, width: int)
    ensures table == TableOf(exportable, maxFieldGroups)
    ensures width == maxFieldGroups + 1
  {
    table := [];
    for a := 0 to |exportable|
      invariant table == TableOf(exportable[..a], maxFieldGroups)
    {
      table := AppendModelRows(table, exportable[a].0, exportable[a].1, maxFieldGroups);
      assert exportable[..a + 1][..a] == exportable[..a];
    }
    assert exportable[..|exportable|] == exportable;
    width := maxFieldGroups + 1;
  }

  /**
   * The shape of a row: field groups first (the i-th keyed
   * "exporter/group/i", its checkboxes keyed "exporter/..."), then
   * padding; at least `maxFieldGroups` cells, and no padding beyond them.
   */
  ghost predicate WellFormedRow(r: Row, maxFieldGroups: int)
  {
    var cells := r.fieldGroups;
    && |cells| >= maxFieldGroups
    && (forall i :: 0 <= i < |cells| && cells[i].Group? ==>
          && cells[i].key == GroupKey(r.exporterKey, i)
          && forall j :: 0 <= j < |cells[i].permissions| ==> r.exporterKey + "/" <= cells[i].permissions[j].key)
    && (forall i, j :: 0 <= i < j < |cells| && cells[i].Padding? ==> cells[j].Padding?)
    && (forall i :: 0 <= i < |cells| && maxFieldGroups <= i ==> cells[i].Group?)
  }

  /** The row of one exporter is well formed, and shows its format exactly when asked to. */
  lemma FormatRowWellFormed(app: string, model: string, multi: bool, format: string, groups: FieldGroups, maxFieldGroups: int)
    ensures WellFormedRow(FormatRow(app, model, multi, format, groups, maxFieldGroups), maxFieldGroups)
    ensures FormatRow(app, model, multi, format, groups, maxFieldGroups).format.None? <==> !multi
  {
    var r := FormatRow(app, model, multi, format, groups, maxFieldGroups);
    var key := ExporterKey(app, model, format);
    var n := |groups|;
    assert forall i :: 0 <= i < n ==> r.fieldGroups[i] == GroupCell(key, i, groups[i]);
    assert forall i :: n <= i < |r.fieldGroups| ==> r.fieldGroups[i] == Padding;
    forall i, j | 0 <= i < n && 0 <= j < |r.fieldGroups[i].permissions|
      ensures key + "/" <= r.fieldGroups[i].permissions[j].key
    {
      assert r.fieldGroups[i].permissions[j].key == key + "/" + groups[i].1[j].attr;
    }
  }

  /** Every row of one model's formats is well formed; the format is shown exactly when there are several. */
  lemma FormatRowsWellFormed(app: string, model: string, formats: Formats, maxFieldGroups: int)
    ensures forall r :: r in FormatRows(app, model, formats, |formats| > 1, maxFieldGroups) ==>
      WellFormedRow(r, maxFieldGroups) && (r.format.None? <==> |formats| == 1)
  {
    var rows := FormatRows(app, model, formats, |formats| > 1, maxFieldGroups);
    forall r | r in rows ensures WellFormedRow(r, maxFieldGroups) && (r.format.None? <==> |formats| == 1) {
      var i :| 0 <= i < |rows| && rows[i] == r;
      FormatRowWellFormed(app, model, |formats| > 1, formats[i].0, formats[i].1, maxFieldGroups);
    }
  }

  /** Every row of an app's models is well formed. */
  lemma {:induction false} ModelRowsWellFormed(app: string, models: Models, maxFieldGroups: int)
    ensures forall r :: r in ModelRows(app, models, maxFieldGroups) ==> WellFormedRow(r, maxFieldGroups)
    decreases |models|
  {
    if |models| > 0 {
      var last := models[|models| - 1];
      ModelRowsWellFormed(app, models[..|models| - 1], maxFieldGroups);
      FormatRowsWellFormed(app, last.0, last.1, maxFieldGroups);
    }
  }

  /** Every row of the table is well formed: padded to `maxFieldGroups` groups, keys as described. */
  lemma {:induction false} TableWellFormed(exportable: Exportable, maxFieldGroups: int)
    ensures forall r :: r in TableOf(exportable, maxFieldGroups) ==> WellFormedRow(r, maxFieldGroups)
    decreases |exportable|
  {
    if |exportable| > 0 {
      var last := exportable[|exportable| - 1];
      TableWellFormed(exportable[..|exportable| - 1], maxFieldGroups);
      ModelRowsWellFormed(last.0, last.1, maxFieldGroups);
    }
  }

  /** A well-formed row whose groups all fit in `maxFieldGroups` columns has exactly that many cells. */
  lemma PaddedToWidth(r: Row, maxFieldGroups: nat)
    requires WellFormedRow(r, maxFieldGroups)
    requires forall i :: 0 <= i < |r.fieldGroups| && r.fieldGroups[i].Group? ==> i < maxFieldGroups
    ensures |r.fieldGroups| == maxFieldGroups
  {
    if |r.fieldGroups| > 0 {
      var last := |r.fieldGroups| - 1;
      assert r.fieldGroups[last].Group? ==> last < maxFieldGroups;
    }
  }

  /** A table whose every row has exactly `maxFieldGroups` cells. */
  ghost predicate Rectangular(table: seq<Row>, maxFieldGroups: nat)
  {
    forall i :: 0 <= i < |table| ==> |table[i].fieldGroups| == maxFieldGroups
  }

  /** No format has more than `maxFieldGroups` field groups. */
  ghost predicate FormatsFit(formats: Formats, maxFieldGroups: nat)
  {
    forall f :: 0 <= f < |formats| ==> |formats[f].1| <= maxFieldGroups
  }

  /** No format of the models has more than `maxFieldGroups` field groups. */
  ghost predicate ModelsFit(models: Models, maxFieldGroups: nat)
  {
    forall m :: 0 <= m < |models| ==> FormatsFit(models[m].1, maxFieldGroups)
  }

  /** No exporter of `exportable` has more than `maxFieldGroups` field groups. */
  ghost predicate ExportableFits(exportable: Exportable, maxFieldGroups: nat)
  {
    forall a :: 0 <= a < |exportable| ==> ModelsFit(exportable[a].1, maxFieldGroups)
  }

  /** A row of `count <= maxFieldGroups` groups is padded to exactly `maxFieldGroups` cells. */
  lemma FormatRowsRectangular(app: string, model: string, formats: Formats, multi: bool, maxFieldGroups: nat)
    requires FormatsFit(formats, maxFieldGroups)
    ensures Rectangular(FormatRows(app, model, formats, multi, maxFieldGroups), maxFieldGroups)
  {
  }

  /** The rows of an app's models have exactly `maxFieldGroups` cells when every format fits. */
  lemma {:induction false} ModelRowsRectangular(app: string, models: Models, maxFieldGroups: nat)
    requires ModelsFit(models, maxFieldGroups)
    ensures Rectangular(ModelRows(app, models, maxFieldGroups), maxFieldGroups)
    decreases |models|
  {
    if |models| > 0 {
      var init, last := models[..|models| - 1], models[|models| - 1];
      assert ModelsFit(init, maxFieldGroups) by {
        forall m | 0 <= m < |init| ensures FormatsFit(init[m].1, maxFieldGroups) {
          assert init[m] == models[m];
        }
      }
      ModelRowsRectangular(app, init, maxFieldGroups);
      assert FormatsFit(models[|models| - 1].1, maxFieldGroups);
      FormatRowsRectangular(app, last.0, last.1, |last.1| > 1, maxFieldGroups);
    }
  }

  /**
   * When no exporter has more groups than `maxFieldGroups`, every row of
   * the table has exactly `maxFieldGroups` cells.
   */
  lemma {:induction false} TableRectangular(exportable: Exportable, maxFieldGroups: nat)
    requires ExportableFits(exportable, maxFieldGroups)
    ensures Rectangular(TableOf(exportable, maxFieldGroups), maxFieldGroups)
    decreases |exportable|
  {
    if |exportable| > 0 {
      var init, last := exportable[..|exportable| - 1], exportable[|exportable| - 1];
      assert ExportableFits(init, maxFieldGroups) by {
        forall a | 0 <= a < |init| ensures ModelsFit(init[a].1, maxFieldGroups) {
          assert init[a] == exportable[a];
        }
      }
      TableRectangular(init, maxFieldGroups);
      assert ModelsFit(exportable[|exportable| - 1].1, maxFieldGroups);
      ModelRowsRectangular(last.0, last.1, maxFieldGroups);
    }
  }

  // ---------------------------------------------------------------------
  // load_all_exportable_fields
  // ---------------------------------------------------------------------

  /**
   * One exporter class as `load_all_exportable_fields` sees it: whether it
   * takes part (it has `selectable_fields` and is not excluded from the
   * widget; every subclass of the mixin has the attribute, so this is not
   * being excluded), its model's label "app.Model", its export format, what
   * `selectable_fields()` gives, and the values of
   * `selectable_iterative_sets()` (None when it raises AttributeError).
   * Finding the subclasses is left to the caller.
   */
  datatype ExporterClass = ExporterClass(listed: bool, modelLabel: string, exportFormat: string,
                                         selectable: Selectable, iterativeSets: Option<seq<FieldGroups>>)

  /** The selectable fields with the iterative sets merged in, one `dict.update` each. */
  function MergedFields(selectable: FieldGroups, sets: seq<FieldGroups>): FieldGroups
  {
    if |sets| == 0 then selectable else Update(MergedFields(selectable, sets[..|sets| - 1]), sets[|sets| - 1])
  }

  /** The field groups an exporter contributes: `{}` when `selectable_fields()` raises AttributeError. */
  function ExporterFields(e: ExporterClass): FieldGroups
  {
    var selectable := if e.selectable.Declared? then e.selectable.groups else [];
    if e.iterativeSets.Some? then MergedFields(selectable, e.iterativeSets.value) else selectable
  }

  /** `all_exportable_fields[app][model][format] = fields`, creating the app and model entries when missing. */
  function AddExporter(exportable: Exportable, app: string, model: string, format: string, fields: FieldGroups): Exportable
  {
    var models := if Get(exportable, app).Some? then Get(exportable, app).value else [];
    var formats := if Get(models, model).Some? then Get(models, model).value else [];
    Put(exportable, app, Put(models, model, Put(formats, format, fields)))
  }

  /** An exporter's entry is then found under its app, model and format; other apps keep theirs. */
  lemma AddExporterGet(exportable: Exportable, app: string, model: string, format: string, fields: FieldGroups, app2: string)
    ensures var added := AddExporter(exportable, app, model, format, fields);
      && Get(added, app).Some?
      && Get(Get(added, app).value, model).Some?
      && Get(Get(Get(added, app).value, model).value, format) == Some(fields)
      && (app2 != app ==> Get(added, app2) == Get(exportable, app2))
  {
    var models := if Get(exportable, app).Some? then Get(exportable, app).value else [];
    var formats := if Get(models, model).Some? then Get(models, model).value else [];
    PutGet(exportable, app, Put(models, model, Put(formats, format, fields)), app);
    PutGet(exportable, app, Put(models, model, Put(formats, format, fields)), app2);
    PutGet(models, model, Put(formats, format, fields), model);
    PutGet(formats, format, fields, format);
  }

  /** An exporter that takes part but does not override `selectable_fields`. */
  predicate Unimplemented(e: ExporterClass)
  {
    e.listed && e.selectable.NotOverridden?
  }

  /** An exporter that takes part but whose model label is not "app.Model". */
  predicate BadLabel(e: ExporterClass)
  {
    e.listed && |Split(e.modelLabel, '.')| != 2
  }

  /** An exporter whose pass of the loop raises. */
  predicate LoadFails(e: ExporterClass)
  {
    Unimplemented(e) || BadLabel(e)
  }

  /** What it raises: `selectable_fields()` is called before the label is split. */
  function LoadError(e: ExporterClass): Error
  {
    if Unimplemented(e) then NotImplementedError else ValueError
  }

  /** One pass of the exporter loop: a listed exporter is added under its label's app and model. */
  function AddListed(exportable: Exportable, e: ExporterClass): (r: Result<Exportable>)
    ensures r.Err? <==> LoadFails(e)
    ensures r.Err? ==> r.error == LoadError(e)
    ensures !e.listed ==> r == Ok(exportable)
  {
    var parts := Split(e.modelLabel, '.');
    if !e.listed then Ok(exportable)
    else if e.selectable.NotOverridden? then Err(NotImplementedError)
    else if |parts| != 2 then Err(ValueError)
    else Ok(AddExporter(exportable, parts[0], parts[1], Capitalize(e.exportFormat), ExporterFields(e)))
  }

  /** `all_exportable_fields` after the given exporters, or the error of the first exporter that raises. */
  function ExportableOf(exporters: seq<ExporterClass>): Result<Exportable>
  {
    if |exporters| == 0 then Ok([])
    else
      var prior := ExportableOf(exporters[..|exporters| - 1]);
      if prior.Err? then prior else AddListed(prior.value, exporters[|exporters| - 1])
  }

  /** `max_field_groups`: the largest number of field groups of an exporter that takes part, 0 when none does. */
  function MaxFieldGroupsOf(exporters: seq<ExporterClass>): nat
  {
    if |exporters| == 0 then 0
    else
      var prior := MaxFieldGroupsOf(exporters[..|exporters| - 1]);
      var e := exporters[|exporters| - 1];
      if e.listed && |ExporterFields(e)| > prior then |ExporterFields(e)| else prior
  }

  /**
   * Loading fails exactly when some exporter that takes part raises, and
   * the error is that of the first such exporter.
   */
  lemma {:induction false} ExportableOfFails(exporters: seq<ExporterClass>)
    ensures ExportableOf(exporters).Err? <==> exists i :: 0 <= i < |exporters| && LoadFails(exporters[i])
    ensures ExportableOf(exporters).Err? ==>
      exists i :: 0 <= i < |exporters| && LoadFails(exporters[i]) && ExportableOf(exporters).error == LoadError(exporters[i])
        && forall j :: 0 <= j < i ==> !LoadFails(exporters[j])
    decreases |exporters|
  {
    if |exporters| > 0 {
      var init := exporters[..|exporters| - 1];
      ExportableOfFails(init);
      assert forall i :: 0 <= i < |init| ==> init[i] == exporters[i];
      if ExportableOf(init).Ok? && ExportableOf(exporters).Err? {
        assert LoadFails(exporters[|init|]);
      }
    }
  }

  /** Once an exporter has raised, the later ones change nothing: the loop has stopped. */
  lemma {:induction false} ExportableOfErrPersists(exporters: seq<ExporterClass>, k: nat)
    requires k <= |exporters| && ExportableOf(exporters[..k]).Err?
    ensures ExportableOf(exporters) == ExportableOf(exporters[..k])
    decreases |exporters| - k
  {
    if k < |exporters| {
      assert exporters[..k + 1][..k] == exporters[..k];
      assert ExportableOf(exporters[..k + 1]) == ExportableOf(exporters[..k]);
      ExportableOfErrPersists(exporters, k + 1);
    } else {
      assert exporters[..k] == exporters;
    }
  }

  /** `max_field_groups` bounds every exporter that takes part and is reached by one of them unless it is 0. */
  lemma {:induction false} MaxFieldGroupsIsMax(exporters: seq<ExporterClass>)
    ensures forall i :: 0 <= i < |exporters| && exporters[i].listed ==> |ExporterFields(exporters[i])| <= MaxFieldGroupsOf(exporters)
    ensures MaxFieldGroupsOf(exporters) == 0
         || exists i :: 0 <= i < |exporters| && exporters[i].listed && |ExporterFields(exporters[i])| == MaxFieldGroupsOf(exporters)
    decreases |exporters|
  {
    if |exporters| > 0 {
      var init := exporters[..|exporters| - 1];
      MaxFieldGroupsIsMax(init);
      assert forall i :: 0 <= i < |init| ==> init[i] == exporters[i];
    }
  }

  /** After `d[k] = v`, every entry is (k, v) or an entry of d. */
  lemma {:induction false} PutEntries<K, V>(d: seq<(K, V)>, k: K, v: V)
    ensures forall i :: 0 <= i < |Put(d, k, v)| ==> Put(d, k, v)[i] == (k, v) || Put(d, k, v)[i] in d
    decreases |d|
  {
    if |d| > 0 && d[0].0 != k {
      PutEntries(d[1..], k, v);
      var r := Put(d, k, v);
      forall i | 0 < i < |r| ensures r[i] == (k, v) || r[i] in d {
        assert r[i] == Put(d[1..], k, v)[i - 1];
      }
    }
  }

  /** Setting a format whose groups fit keeps every format within `maxFieldGroups` groups. */
  lemma PutFormatFits(formats: Formats, format: string, fields: FieldGroups, maxFieldGroups: nat)
    requires FormatsFit(formats, maxFieldGroups) && |fields| <= maxFieldGroups
    ensures FormatsFit(Put(formats, format, fields), maxFieldGroups)
  {
    var formats' := Put(formats, format, fields);
    PutEntries(formats, format, fields);
    forall f | 0 <= f < |formats'| ensures |formats'[f].1| <= maxFieldGroups {
      if formats'[f] != (format, fields) {
        var g :| 0 <= g < |formats| && formats[g] == formats'[f];
      }
    }
  }

  /** Setting a model whose formats fit keeps every model's formats within `maxFieldGroups` groups. */
  lemma PutModelFits(models: Models, model: string, formats: Formats, maxFieldGroups: nat)
    requires ModelsFit(models, maxFieldGroups) && FormatsFit(formats, maxFieldGroups)
    ensures ModelsFit(Put(models, model, formats), maxFieldGroups)
  {
    var models' := Put(models, model, formats);
    PutEntries(models, model, formats);
    forall m | 0 <= m < |models'| ensures FormatsFit(models'[m].1, maxFieldGroups) {
      if models'[m] != (model, formats) {
        var n :| 0 <= n < |models| && models[n] == models'[m];
      }
    }
  }

  /** Setting an app whose models fit keeps every exporter within `maxFieldGroups` groups. */
  lemma PutAppFits(exportable: Exportable, app: string, models: Models, maxFieldGroups: nat)
    requires ExportableFits(exportable, maxFieldGroups) && ModelsFit(models, maxFieldGroups)
    ensures ExportableFits(Put(exportable, app, models), maxFieldGroups)
  {
    var added := Put(exportable, app, models);
    PutEntries(exportable, app, models);
    forall a | 0 <= a < |added| ensures ModelsFit(added[a].1, maxFieldGroups) {
      if added[a] != (app, models) {
        var b :| 0 <= b < |exportable| && exportable[b] == added[a];
      }
    }
  }

  /** Adding an exporter whose groups fit keeps every exporter within `maxFieldGroups` groups. */
  lemma AddExporterFits(exportable: Exportable, app: string, model: string, format: string, fields: FieldGroups, maxFieldGroups: nat)
    requires ExportableFits(exportable, maxFieldGroups) && |fields| <= maxFieldGroups
    ensures ExportableFits(AddExporter(exportable, app, model, format, fields), maxFieldGroups)
  {
    var models := if Get(exportable, app).Some? then Get(exportable, app).value else [];
    var formats := if Get(models, model).Some? then Get(models, model).value else [];
    assert ModelsFit(models, maxFieldGroups) by {
      if Get(exportable, app).Some? {
        var a :| 0 <= a < |exportable| && exportable[a] == (app, models);
      }
    }
    assert FormatsFit(formats, maxFieldGroups) by {
      if Get(models, model).Some? {
        var m :| 0 <= m < |models| && models[m] == (model, formats);
      }
    }
    PutFormatFits(formats, format, fields, maxFieldGroups);
    PutModelFits(models, model, Put(formats, format, fields), maxFieldGroups);
    PutAppFits(exportable, app, Put(models, model, Put(formats, format, fields)), maxFieldGroups);
  }

  /** No exporter in `all_exportable_fields` has more groups than `max_field_groups`. */
  lemma {:induction false} ExportableOfFits(exporters: seq<ExporterClass>)
    requires ExportableOf(exporters).Ok?
    ensures ExportableFits(ExportableOf(exporters).value, MaxFieldGroupsOf(exporters))
    decreases |exporters|
  {
    if |exporters| > 0 {
      var init := exporters[..|exporters| - 1];
      var e := exporters[|exporters| - 1];
      var prior := ExportableOf(init);
      ExportableOfFits(init);
      var w0, w := MaxFieldGroupsOf(init), MaxFieldGroupsOf(exporters);
      assert ExportableFits(prior.value, w) by {
        forall a | 0 <= a < |prior.value| ensures ModelsFit(prior.value[a].1, w) {
          assert ModelsFit(prior.value[a].1, w0);
          forall m | 0 <= m < |prior.value[a].1| ensures FormatsFit(prior.value[a].1[m].1, w) {
            assert FormatsFit(prior.value[a].1[m].1, w0);
          }
        }
      }
      if e.listed {
        var parts := Split(e.modelLabel, '.');
        AddExporterFits(prior.value, parts[0], parts[1], Capitalize(e.exportFormat), ExporterFields(e), w);
        assert ExportableOf(exporters) == Ok(AddExporter(prior.value, parts[0], parts[1], Capitalize(e.exportFormat), ExporterFields(e)));
      }
    }
  }

  /**
   * The table built from what `load_all_exportable_fields` collects has
   * exactly `max_field_groups` cells in every row.
   */
  lemma LoadedTableRectangular(exporters: seq<ExporterClass>)
    requires ExportableOf(exporters).Ok?
    ensures Rectangular(TableOf(ExportableOf(exporters).value, MaxFieldGroupsOf(exporters)), MaxFieldGroupsOf(exporters))
  {
    ExportableOfFits(exporters);
    TableRectangular(ExportableOf(exporters).value, MaxFieldGroupsOf(exporters));
  }

  /** The iterative-sets loop: each set updates the selectable fields. */
  method MergeIterativeSets(selectable: FieldGroups, sets: seq<FieldGroups>) returns (fields: FieldGroups)
    ensures fields == MergedFields(selectable, sets)
  {
    fields := selectable;
    for i := 0 to |sets|
      invariant fields == MergedFields(selectable, sets[..i])
    {
      fields := Update(fields, sets[i]);
      assert sets[..i + 1][..i] == sets[..i];
    }
    assert sets[..|sets|] == sets;
  }

  /**
   * `load_all_exportable_fields`: every exporter that takes part adds its
   * field groups under app, model and capitalised format, and
   * `max_field_groups` is the largest group count seen; an exporter that
   * does not override `selectable_fields` raises NotImplementedError, and
   * a model label that is not "app.Model" raises ValueError.
   */
  method LoadAllExportableFields(exporters: seq<ExporterClass>) returns (r: Result<(Exportable, nat)>)
    ensures r.Err? <==> exists i :: 0 <= i < |exporters| && LoadFails(exporters[i])
    ensures r.Err? ==> ExportableOf(exporters) == Err(r.error)
    ensures r.Ok? ==> ExportableOf(exporters) == Ok(r.value.0) && r.value.1 == MaxFieldGroupsOf(exporters)
  {
    ExportableOfFails(exporters);
    var exportable: Exportable := [];
    var maxFieldGroups: nat := 0;
    for i := 0 to |exporters|
      invariant ExportableOf(exporters[..i]) == Ok(exportable)
      invariant maxFieldGroups == MaxFieldGroupsOf(exporters[..i])
    {
      var e := exporters[i];
      assert exporters[..i + 1][..i] == exporters[..i];
      if e.listed {
        if e.selectable.NotOverridden? {
          assert ExportableOf(exporters[..i + 1]) == AddListed(exportable, e);
          ExportableOfErrPersists(exporters, i + 1);
          return Err(NotImplementedError);
        }
        var selectable := if e.selectable.Declared? then e.selectable.groups else [];
        if e.iterativeSets.Some? {
          selectable := MergeIterativeSets(selectable, e.iterativeSets.value);
        }
        var parts := Split(e.modelLabel, '.');
        if |parts| != 2 {
          assert ExportableOf(exporters[..i + 1]) == AddListed(exportable, e);
          ExportableOfErrPersists(exporters, i + 1);
          return Err(ValueError);
        }
        exportable := AddExporter(exportable, parts[0], parts[1], Capitalize(e.exportFormat), selectable);
        if |selectable| > maxFieldGroups {
          maxFieldGroups := |selectable|;
        }
      }
    }
    assert exporters[..|exporters|] == exporters;
    return Ok((exportable, maxFieldGroups));
  }

  // ---------------------------------------------------------------------
  // load_choices
  // ---------------------------------------------------------------------

  /** The checkbox keys of a group. */
  function PermissionKeys(ps: seq<Permission>): (keys: seq<string>)
    ensures |keys| == |ps| && forall j :: 0 <= j < |ps| ==> keys[j] == ps[j].key
  {
    seq(|ps|, j requires 0 <= j < |ps| => ps[j].key)
  }

  /** The choices one cell contributes: its key and then its checkboxes' keys; nothing for padding. */
  function CellChoices(c: Cell): seq<string>
  {
    if c.Padding? then [] else [c.key] + PermissionKeys(c.permissions)
  }

  /** The choices of a row's cells, in order. */
  function CellsChoices(cs: seq<Cell>): seq<string>
  {
    if |cs| == 0 then [] else CellsChoices(cs[..|cs| - 1]) + CellChoices(cs[|cs| - 1])
  }

  /** The choices of a row: the exporter key, then its cells'. */
  function RowChoices(r: Row): seq<string>
  {
    [r.exporterKey] + CellsChoices(r.fieldGroups)
  }

  /** The choices of a table, row by row. */
  function ChoicesOf(table: seq<Row>): seq<string>
  {
    if |table| == 0 then [] else ChoicesOf(table[..|table| - 1]) + RowChoices(table[|table| - 1])
  }

  /** The innermost loop of `load_choices`: a group's key and its checkboxes' keys. */
  method GroupChoices(group: Cell) returns (keys: seq<string>)
    requires group.Group?
    ensures keys == CellChoices(group)
  {
    keys := [group.key];
    var ps := group.permissions;
    for p := 0 to |ps|
      invariant keys == [group.key] + PermissionKeys(ps[..p])
    {
      assert PermissionKeys(ps[..p + 1]) == PermissionKeys(ps[..p]) + [ps[p].key];
      keys := keys + [ps[p].key];
    }
    assert ps[..|ps|] == ps;
  }

  /** Appending after a first element is appending to the rest. */
  lemma PrependAssoc<T>(x: T, a: seq<T>, b: seq<T>)
    ensures [x] + a + b == [x] + (a + b)
  {
  }

  /** One more cell adds its own choices. */
  lemma CellsChoicesSnoc(cs: seq<Cell>, cell: Cell)
    ensures CellsChoices(cs + [cell]) == CellsChoices(cs) + CellChoices(cell)
  {
    assert (cs + [cell])[..|cs|] == cs;
  }

  /** The body of the group loop: a group's choices are appended, padding adds none. */
  method AppendCellChoices(choices: seq<string>, ghost key: string, ghost cs: seq<Cell>, cell: Cell)
    returns (choices': seq<string>)
    requires choices == [key] + CellsChoices(cs)
    ensures choices' == [key] + CellsChoices(cs + [cell])
  {
    CellsChoicesSnoc(cs, cell);
    ghost var before := CellsChoices(cs);
    var keys := [];
    if cell.Group? {
      keys := GroupChoices(cell);
    }
    assert keys == CellChoices(cell);
    choices' := choices + keys;
    PrependAssoc(key, before, keys);
  }

  /** The group loop of `load_choices`: the exporter key, then each group's choices. */
  method RowChoicesOf(row: Row) returns (rowChoices: seq<string>)
    ensures rowChoices == RowChoices(row)
  {
    rowChoices := [row.exporterKey];
    var groups := row.fieldGroups;
    for g := 0 to |groups|
      invariant rowChoices == [row.exporterKey] + CellsChoices(groups[..g])
    {
      rowChoices := AppendCellChoices(rowChoices, row.exporterKey, groups[..g], groups[g]);
      assert groups[..g] + [groups[g]] == groups[..g + 1];
    }
    assert groups[..|groups|] == groups;
  }

  /** `load_choices`: the table flattened row by row. */
  method LoadChoices(table: seq<Row>) returns (choices: seq<string>)
    ensures choices == ChoicesOf(table)
  {
    choices := [];
    for r := 0 to |table|
      invariant choices == ChoicesOf(table[..r])
    {
      var rowChoices := RowChoicesOf(table[r]);
      assert table[..r + 1][..r] == table[..r];
      choices := choices + rowChoices;
    }
    assert table[..|table|] == table;
  }

  /** Padding cells add no choices. */
  lemma {:induction false} PaddingAddsNoChoices(cs: seq<Cell>, n: nat)
    ensures CellsChoices(cs + Paddings(n)) == CellsChoices(cs)
    decreases n
  {
    if n > 0 {
      var shorter := cs + Paddings(n - 1);
      assert cs + Paddings(n) == shorter + [Padding];
      PaddingAddsNoChoices(cs, n - 1);
      assert (shorter + [Padding])[..|shorter|] == shorter;
    } else {
      assert cs + Paddings(n) == cs;
    }
  }

  /** The row of one exporter has the same choices whatever the padding width. */
  lemma FormatRowChoices(app: string, model: string, multi: bool, format: string, groups: FieldGroups, w1: int, w2: int)
    ensures RowChoices(FormatRow(app, model, multi, format, groups, w1)) == RowChoices(FormatRow(app, model, multi, format, groups, w2))
  {
    var key := ExporterKey(app, model, format);
    var cells := seq(|groups|, i requires 0 <= i < |groups| => GroupCell(key, i, groups[i]));
    PaddingAddsNoChoices(cells, PadCount(|groups|, w1));
    PaddingAddsNoChoices(cells, PadCount(|groups|, w2));
  }

  /** Two tables whose rows correspond one to one with equal choices. */
  ghost predicate SameChoices(t1: seq<Row>, t2: seq<Row>)
  {
    |t1| == |t2| && forall i :: 0 <= i < |t1| ==> RowChoices(t1[i]) == RowChoices(t2[i])
  }

  /** Tables whose rows have pairwise equal choices have equal choices. */
  lemma {:induction false} ChoicesPointwise(t1: seq<Row>, t2: seq<Row>)
    requires SameChoices(t1, t2)
    ensures ChoicesOf(t1) == ChoicesOf(t2)
    decreases |t1|
  {
    if |t1| > 0 {
      ChoicesPointwise(t1[..|t1| - 1], t2[..|t2| - 1]);
    }
  }

  /** Row-by-row correspondence survives concatenation. */
  lemma SameChoicesAppend(a1: seq<Row>, a2: seq<Row>, b1: seq<Row>, b2: seq<Row>)
    requires SameChoices(a1, a2) && SameChoices(b1, b2)
    ensures SameChoices(a1 + b1, a2 + b2)
  {
    forall i | 0 <= i < |a1 + b1| ensures RowChoices((a1 + b1)[i]) == RowChoices((a2 + b2)[i]) {
      if i >= |a1| {
        assert (a1 + b1)[i] == b1[i - |a1|] && (a2 + b2)[i] == b2[i - |a1|];
      }
    }
  }

  /** The rows of one model's formats correspond whatever the padding width. */
  lemma FormatRowsCorrespond(app: string, model: string, formats: Formats, multi: bool, w1: int, w2: int)
    ensures SameChoices(FormatRows(app, model, formats, multi, w1), FormatRows(app, model, formats, multi, w2))
  {
    forall i | 0 <= i < |formats|
      ensures RowChoices(FormatRows(app, model, formats, multi, w1)[i]) == RowChoices(FormatRows(app, model, formats, multi, w2)[i])
    {
      FormatRowChoices(app, model, multi, formats[i].0, formats[i].1, w1, w2);
    }
  }

  /** The rows of an app correspond whatever the padding width. */
  lemma {:induction false} ModelRowsCorrespond(app: string, models: Models, w1: int, w2: int)
    ensures SameChoices(ModelRows(app, models, w1), ModelRows(app, models, w2))
    decreases |models|
  {
    if |models| > 0 {
      var init, last := models[..|models| - 1], models[|models| - 1];
      ModelRowsCorrespond(app, init, w1, w2);
      FormatRowsCorrespond(app, last.0, last.1, |last.1| > 1, w1, w2);
      SameChoicesAppend(ModelRows(app, init, w1), ModelRows(app, init, w2),
                        FormatRows(app, last.0, last.1, |last.1| > 1, w1), FormatRows(app, last.0, last.1, |last.1| > 1, w2));
    }
  }

  /** The tables for two padding widths correspond row by row. */
  lemma {:induction false} TableCorrespond(exportable: Exportable, w1: int, w2: int)
    ensures SameChoices(TableOf(exportable, w1), TableOf(exportable, w2))
    decreases |exportable|
  {
    if |exportable| > 0 {
      var init, last := exportable[..|exportable| - 1], exportable[|exportable| - 1];
      TableCorrespond(init, w1, w2);
      ModelRowsCorrespond(last.0, last.1, w1, w2);
      SameChoicesAppend(TableOf(init, w1), TableOf(init, w2), ModelRows(last.0, last.1, w1), ModelRows(last.0, last.1, w2));
    }
  }

  /** The padding of the table contributes no choices: they are the same whatever the width. */
  lemma ChoicesIgnorePadding(exportable: Exportable, w1: int, w2: int)
    ensures ChoicesOf(TableOf(exportable, w1)) == ChoicesOf(TableOf(exportable, w2))
  {
    TableCorrespond(exportable, w1, w2);
    ChoicesPointwise(TableOf(exportable, w1), TableOf(exportable, w2));
  }

  /** Every row's exporter key is a choice. */
  lemma {:induction false} RowKeysAreChoices(table: seq<Row>, r: nat)
    requires r < |table|
    ensures table[r].exporterKey in ChoicesOf(table)
    decreases |table|
  {
    var init := table[..|table| - 1];
    if r == |table| - 1 {
      assert RowChoices(table[r])[0] == table[r].exporterKey;
    } else {
      RowKeysAreChoices(init, r);
      assert init[r] == table[r];
    }
  }

  // ---------------------------------------------------------------------
  // The cached getters (get_table, get_table_width, get_choices)
  // ---------------------------------------------------------------------

  /**
   * The widget's cache. `exportable` and `maxFieldGroups` are what
   * `load_all_exportable_fields` collects from the exporter classes, so no
   * exporter has more groups than `maxFieldGroups` (ExportableOfFits).
   */
  class PermissionsWidget {
    const exportable: Exportable
    const maxFieldGroups: nat
    var table: Option<seq<Row>>
    var tableWidth: int
    var choices: seq<string>

    /** A loaded table (and width) and non-empty choices are those of `exportable`. */
    ghost predicate Valid()
      reads this
    {
      && ExportableFits(exportable, maxFieldGroups)
      && (table.Some? ==> table.value == TableOf(exportable, maxFieldGroups) && tableWidth == maxFieldGroups + 1)
      && (choices != [] ==> choices == ChoicesOf(TableOf(exportable, maxFieldGroups)))
    }

    constructor(exportable: Exportable, maxFieldGroups: nat)
      requires ExportableFits(exportable, maxFieldGroups)
      ensures this.exportable == exportable && this.maxFieldGroups == maxFieldGroups
      ensures table == None && choices == []
      ensures Valid()
    {
      this.exportable := exportable;
      this.maxFieldGroups := maxFieldGroups;
      table := None;
      tableWidth := 0;
      choices := [];
    }

    /** Loads the table and its width unless they are cached. */
    method EnsureTable()
      requires Valid()
      modifies this
      ensures Valid() && table.Some?
      ensures old(table).Some? ==> table == old(table) && tableWidth == old(tableWidth)
      ensures choices == old(choices)
    {
      if table.None? {
        var t, w := LoadTableAndWidth(exportable, maxFieldGroups);
        table := Some(t);
        tableWidth := w;
      }
    }

    /** `get_table`. */
    method GetTable() returns (t: seq<Row>)
      requires Valid()
      modifies this
      ensures Valid() && table == Some(t)
      ensures t == TableOf(exportable, maxFieldGroups)
      ensures Rectangular(t, maxFieldGroups)
    {
      EnsureTable();
      t := table.value;
      TableRectangular(exportable, maxFieldGroups);
    }

    /** `get_table_width`. */
    method GetTableWidth() returns (w: int)
      requires Valid()
      modifies this
      ensures Valid() && table.Some?
      ensures w == maxFieldGroups + 1
    {
      EnsureTable();
      w := tableWidth;
    }

    /** `get_choices`: loaded from the table when empty. */
    method GetChoices() returns (c: seq<string>)
      requires Valid()
      modifies this
      ensures Valid() && c == choices
      ensures c == ChoicesOf(TableOf(exportable, maxFieldGroups))
    {
      if choices == [] {
        var t := GetTable();
        choices := LoadChoices(t);
      }
      c := choices;
    }
  }

  // ---------------------------------------------------------------------
  // format_output
  // ---------------------------------------------------------------------

  /** What `format_output` returns: the dict, or its JSON text when compressed. */
  datatype Output = Plain(fields: seq<(string, seq<string>)>) | Compressed(fields: seq<(string, seq<string>)>)

  /** The fields already collected for `exporterKey`. */
  function FieldsSoFar(output: seq<(string, seq<string>)>, exporterKey: string): seq<string>
  {
    match Get(output, exporterKey)
    case Some(fields) => fields
    case None => []
  }

  /**
   * The dict `format_output` builds from `values`, in order: each
   * two-part key "exporter/field" appends the field to that exporter's list
   * (a new exporter is added at the end); other keys are skipped.
   */
  function Grouped(values: seq<string>): seq<(string, seq<string>)>
  {
    if |values| == 0 then []
    else
      var output := Grouped(values[..|values| - 1]);
      var keys := Split(values[|values| - 1], '/');
      if |keys| == 2 then Put(output, keys[0], FieldsSoFar(output, keys[0]) + [keys[1]])
      else output
  }

  /** The fields of the two-part keys of `values` that name `exporterKey`, in order. */
  function FieldsFor(values: seq<string>, exporterKey: string): seq<string>
  {
    if |values| == 0 then []
    else
      var keys := Split(values[|values| - 1], '/');
      FieldsFor(values[..|values| - 1], exporterKey) + (if |keys| == 2 && keys[0] == exporterKey then [keys[1]] else [])
  }

  /** `format_output(value, compress)`. */
  method FormatOutput(value: seq<string>, compress: bool) returns (r: Result<Output>)
    ensures value == [] ==> r == Ok(Plain([]))
    ensures r.Err? <==> exists i :: 0 <= i < |value| && |Split(value[i], '/')| > 3
    ensures r.Err? ==> r.error == ValueError
    ensures r.Ok? && value != [] ==> r.value.fields == Grouped(value)
    ensures r.Ok? && value != [] ==> (r.value.Compressed? <==> compress && Grouped(value) != [])
  {
    if value == [] {
      return Ok(Plain([]));
    }
    var output: seq<(string, seq<string>)> := [];
    for i := 0 to |value|
      invariant output == Grouped(value[..i])
      invariant forall j :: 0 <= j < i ==> |Split(value[j], '/')| <= 3
    {
      var keys := Split(value[i], '/');
      if |keys| > 3 {
        return Err(ValueError);
      } else if |keys| == 2 {
        var exporterKey, field := keys[0], keys[1];
        output := Put(output, exporterKey, FieldsSoFar(output, exporterKey) + [field]);
      }
      assert value[..i + 1][..i] == value[..i];
    }
    assert value[..|value|] == value;
    if output != [] && compress {
      return Ok(Compressed(output));
    }
    return Ok(Plain(output));
  }

  /** `f` is among the fields of `exporterKey` exactly when some value is the two-part key "exporterKey/f". */
  lemma {:induction false} FieldsForMembers(values: seq<string>, exporterKey: string, f: string)
    ensures f in FieldsFor(values, exporterKey) <==> exists i :: 0 <= i < |values| && Split(values[i], '/') == [exporterKey, f]
    decreases |values|
  {
    if |values| > 0 {
      var init := values[..|values| - 1];
      FieldsForMembers(init, exporterKey, f);
      assert forall i :: 0 <= i < |init| ==> init[i] == values[i];
    }
  }

  /** The dict holds an exporter exactly when one of its fields was given, and then holds all its fields, in order. */
  lemma {:induction false} GroupedGet(values: seq<string>, exporterKey: string)
    ensures Get(Grouped(values), exporterKey) == if FieldsFor(values, exporterKey) == [] then None else Some(FieldsFor(values, exporterKey))
    decreases |values|
  {
    if |values| > 0 {
      var init := values[..|values| - 1];
      var output := Grouped(init);
      var keys := Split(values[|values| - 1], '/');
      GroupedGet(init, exporterKey);
      if |keys| == 2 {
        var fields := FieldsSoFar(output, keys[0]) + [keys[1]];
        PutGet(output, keys[0], fields, exporterKey);
        assert Grouped(values) == Put(output, keys[0], fields);
        if keys[0] == exporterKey {
          assert FieldsSoFar(output, exporterKey) == FieldsFor(init, exporterKey);
          assert FieldsFor(values, exporterKey) == fields;
        } else {
          assert FieldsFor(values, exporterKey) == FieldsFor(init, exporterKey);
        }
      } else {
        assert Grouped(values) == output;
        assert FieldsFor(values, exporterKey) == FieldsFor(init, exporterKey);
      }
    }
  }

  /** `format_output`'s dict has each exporter once. */
  lemma {:induction false} GroupedUnique(values: seq<string>)
    ensures UniqueKeys(Grouped(values))
    decreases |values|
  {
    if |values| > 0 {
      var init := values[..|values| - 1];
      GroupedUnique(init);
      var keys := Split(values[|values| - 1], '/');
      if |keys| == 2 {
        PutUnique(Grouped(init), keys[0], FieldsSoFar(Grouped(init), keys[0]) + [keys[1]]);
      }
    }
  }

  // ---------------------------------------------------------------------
  // decompress
  // ---------------------------------------------------------------------

  /** The JSON `null` and the texts of it, which `decompress` reads as `{}`. */
  predicate IsNull(v: Value)
  {
    v == NoneV || v == TextV(Some(NoneV)) || v == TextV(Some(TextV(Some(NoneV))))
  }

  /** One element of the value: parsed up to twice; `None` is `{}`; a non-dict raises TypeError. */
  function DecodePayload(v: Value): (r: Result<PermissionMap>)
    ensures forall p :: Encodes(v, p) ==> r == Ok(p)
    ensures IsNull(v) ==> r == Ok(map[])
    ensures r.Ok? ==> IsNull(v) || Encodes(v, r.value)
    ensures r.Err? ==> (r.error == ValueError <==> NotJson(v) || (v.TextV? && v.parsed.Some? && NotJson(v.parsed.value)))
    ensures r.Err? ==> r.error == ValueError || r.error == TypeError
  {
    var once := if IsText(v) then JsonLoads(v) else Ok(v);
    if once.Err? then Err(once.error)
    else
      var twice := if IsText(once.value) then JsonLoads(once.value) else once;
      if twice.Err? then Err(twice.error)
      else if twice.value.NoneV? then Ok(map[])
      else if twice.value.DictV? then Ok(twice.value.perm)
      else Err(TypeError)
  }

  /** `exportable_fields[app][model][format]` for the exporter key "app.model.format". */
  function ResolveExporter(exportable: Exportable, exporterKey: string): (r: Result<FieldGroups>)
    ensures r == Err(ValueError) <==> |Split(exporterKey, '.')| != 3
    ensures r.Err? ==> r.error == ValueError || r.error == KeyError
    ensures r.Ok? ==> var parts := Split(exporterKey, '.');
      exists models, formats :: Get(exportable, parts[0]) == Some(models) && Get(models, parts[1]) == Some(formats)
                                && Get(formats, parts[2]) == Some(r.value)
  {
    var parts := Split(exporterKey, '.');
    if |parts| != 3 then Err(ValueError)
    else match Get(exportable, parts[0])
      case None => Err(KeyError)
      case Some(models) =>
        match Get(models, parts[1])
        case None => Err(KeyError)
        case Some(formats) =>
          match Get(formats, parts[2])
          case None => Err(KeyError)
          case Some(groups) => Ok(groups)
  }

  /** The number of fields of an exporter. */
  function TotalFields(groups: FieldGroups): nat
  {
    if |groups| == 0 then 0 else TotalFields(groups[..|groups| - 1]) + |groups[|groups| - 1].1|
  }

  /** Every field of a group is permitted. */
  predicate GroupPermitted(fields: seq<FieldDef>, permitted: seq<string>)
  {
    forall j :: 0 <= j < |fields| ==> fields[j].attr in permitted
  }

  /** The keys of the group indices below `n` whose fields are all permitted. */
  ghost function GroupKeysBelow(exporterKey: string, permitted: seq<string>, groups: FieldGroups, n: nat): set<string>
    requires n <= |groups|
  {
    set i | 0 <= i < n && GroupPermitted(groups[i].1, permitted) :: GroupKey(exporterKey, i)
  }

  /**
   * The keys `decompress` checks for one exporter: one per permitted field,
   * one per group all of whose fields are permitted, and the exporter key
   * when the number of permitted fields equals the number of its fields.
   */
  ghost function EntryKeys(exporterKey: string, permitted: seq<string>, groups: FieldGroups): set<string>
  {
    (set f | f in permitted :: FieldKey(exporterKey, f))
    + GroupKeysBelow(exporterKey, permitted, groups, |groups|)
    + (if |permitted| == TotalFields(groups) then {exporterKey} else {})
  }

  /** The inner field loop with its `break`: how many leading fields are permitted. */
  method CountPermittedPrefix(fields: seq<FieldDef>, permitted: seq<string>) returns (n: nat)
    ensures n <= |fields|
    ensures forall j :: 0 <= j < n ==> fields[j].attr in permitted
    ensures n < |fields| ==> fields[n].attr !in permitted
    ensures n == |fields| <==> GroupPermitted(fields, permitted)
  {
    n := 0;
    while n < |fields|
      invariant n <= |fields|
      invariant forall j :: 0 <= j < n ==> fields[j].attr in permitted
    {
      if fields[n].attr !in permitted {
        break;
      }
      n := n + 1;
    }
  }

  /** The first inner loop of `decompress`: one key per permitted field. */
  method FieldKeysOf(exporterKey: string, permitted: seq<string>) returns (keys: set<string>)
    ensures keys == set f | f in permitted :: FieldKey(exporterKey, f)
  {
    keys := {};
    for j := 0 to |permitted|
      invariant keys == set f | f in permitted[..j] :: FieldKey(exporterKey, f)
    {
      assert permitted[..j + 1] == permitted[..j] + [permitted[j]];
      keys := keys + {FieldKey(exporterKey, permitted[j])};
    }
    assert permitted[..|permitted|] == permitted;
  }

  /** The group loop of `decompress`: the keys of the fully permitted groups, and the exporter's field count. */
  method GroupEntries(exporterKey: string, permitted: seq<string>, groups: FieldGroups) returns (keys: set<string>, exporterFieldsCount: nat)
    ensures keys == GroupKeysBelow(exporterKey, permitted, groups, |groups|)
    ensures exporterFieldsCount == TotalFields(groups)
  {
    keys := {};
    exporterFieldsCount := 0;
    var groupIndex := -1;
    for g := 0 to |groups|
      invariant exporterFieldsCount == TotalFields(groups[..g])
      invariant groupIndex == g - 1
      invariant keys == GroupKeysBelow(exporterKey, permitted, groups, g)
    {
      var groupFields := groups[g].1;
      assert groups[..g + 1][..g] == groups[..g];
      exporterFieldsCount := exporterFieldsCount + |groupFields|;
      groupIndex := groupIndex + 1;
      var groupPermittedCount := CountPermittedPrefix(groupFields, permitted);
      if groupPermittedCount == |groupFields| {
        keys := keys + {GroupKey(exporterKey, groupIndex)};
      }
      assert GroupKeysBelow(exporterKey, permitted, groups, g + 1)
          == GroupKeysBelow(exporterKey, permitted, groups, g)
             + (if GroupPermitted(groupFields, permitted) then {GroupKey(exporterKey, g)} else {});
    }
    assert groups[..|groups|] == groups;
  }

  /** The body of the key loop of `decompress`: the keys one exporter contributes. */
  method ExporterEntries(exportable: Exportable, exporterKey: string, permitted: seq<string>) returns (r: Result<set<string>>)
    ensures ResolveExporter(exportable, exporterKey).Err? ==> r == Err(ResolveExporter(exportable, exporterKey).error)
    ensures ResolveExporter(exportable, exporterKey).Ok? ==>
      r == Ok(EntryKeys(exporterKey, permitted, ResolveExporter(exportable, exporterKey).value))
  {
    var fieldKeys := FieldKeysOf(exporterKey, permitted);
    var resolved := ResolveExporter(exportable, exporterKey);
    if resolved.Err? {
      return Err(resolved.error);
    }
    var groupKeys, exporterFieldsCount := GroupEntries(exporterKey, permitted, resolved.value);
    var keys := fieldKeys + groupKeys;
    if |permitted| == exporterFieldsCount {
      keys := keys + {exporterKey};
    }
    assert keys == EntryKeys(exporterKey, permitted, resolved.value);
    return Ok(keys);
  }

  /** An element decodes and every exporter key in it resolves. */
  ghost predicate ItemOk(exportable: Exportable, v: Value)
  {
    DecodePayload(v).Ok? && forall e :: e in DecodePayload(v).value ==> ResolveExporter(exportable, e).Ok?
  }

  /** The keys of all exporters of one decoded element. */
  ghost function ItemKeys(exportable: Exportable, v: Value): set<string>
    requires ItemOk(exportable, v)
  {
    var m := DecodePayload(v).value;
    KeysOver(exportable, m, m.Keys)
  }

  /** The error one element can raise: from decoding it, or from one of its exporter keys. */
  ghost predicate ItemError(exportable: Exportable, v: Value, error: Error)
  {
    || DecodePayload(v) == Err(error)
    || (DecodePayload(v).Ok? && exists e :: e in DecodePayload(v).value && ResolveExporter(exportable, e) == Err(error))
  }

  /** Every exporter key in `done` is in the dict and resolves. */
  ghost predicate AllResolve(exportable: Exportable, m: PermissionMap, done: set<string>)
  {
    forall e :: e in done ==> e in m && ResolveExporter(exportable, e).Ok?
  }

  /** The keys the exporters in `done` contribute, each resolving. */
  ghost function KeysOver(exportable: Exportable, m: PermissionMap, done: set<string>): set<string>
    requires AllResolve(exportable, m, done)
  {
    set e, k | e in done && k in ExporterKeys(exportable, m, e) :: k
  }

  /** The keys one exporter of a decoded dict contributes. */
  ghost function ExporterKeys(exportable: Exportable, m: PermissionMap, e: string): set<string>
    requires e in m && ResolveExporter(exportable, e).Ok?
  {
    EntryKeys(e, m[e], ResolveExporter(exportable, e).value)
  }

  /** One more exporter adds its own keys. */
  lemma KeysOverAdd(exportable: Exportable, m: PermissionMap, done: set<string>, e: string)
    requires AllResolve(exportable, m, done)
    requires e in m && ResolveExporter(exportable, e).Ok?
    ensures KeysOver(exportable, m, done + {e}) == KeysOver(exportable, m, done) + ExporterKeys(exportable, m, e)
  {
  }

  /** The body of the key loop of `decompress`: one more exporter's keys, or its error. */
  method AddExporterKeys(exportable: Exportable, permissions: PermissionMap, keys: set<string>,
                         ghost done: set<string>, exporterKey: string)
    returns (r: Result<set<string>>)
    requires AllResolve(exportable, permissions, done)
    requires keys == KeysOver(exportable, permissions, done)
    requires exporterKey in permissions
    ensures ResolveExporter(exportable, exporterKey).Err? ==> r == Err(ResolveExporter(exportable, exporterKey).error)
    ensures ResolveExporter(exportable, exporterKey).Ok? ==>
      r == Ok(KeysOver(exportable, permissions, done + {exporterKey}))
  {
    var entries := ExporterEntries(exportable, exporterKey, permissions[exporterKey]);
    if entries.Err? {
      return Err(entries.error);
    }
    KeysOverAdd(exportable, permissions, done, exporterKey);
    return Ok(keys + entries.value);
  }

  /** The key loop of `decompress` over one decoded dict. */
  method MapEntries(exportable: Exportable, permissions: PermissionMap) returns (r: Result<set<string>>)
    ensures (forall e :: e in permissions ==> ResolveExporter(exportable, e).Ok?) ==>
      r == Ok(KeysOver(exportable, permissions, permissions.Keys))
    ensures !(forall e :: e in permissions ==> ResolveExporter(exportable, e).Ok?) ==>
      r.Err? && exists e :: e in permissions && ResolveExporter(exportable, e) == Err(r.error)
  {
    var keys: set<string> := {};
    var todo := permissions.Keys;
    ghost var done: set<string> := {};
    while todo != {}
      invariant done !! todo && done + todo == permissions.Keys
      invariant AllResolve(exportable, permissions, done)
      invariant keys == KeysOver(exportable, permissions, done)
      decreases todo
    {
      var exporterKey :| exporterKey in todo;
      var added := AddExporterKeys(exportable, permissions, keys, done, exporterKey);
      if added.Err? {
        return added;
      }
      keys := added.value;
      todo := todo - {exporterKey};
      done := done + {exporterKey};
    }
    return Ok(keys);
  }

  /** The body of the element loop of `decompress`. */
  method ItemEntries(exportable: Exportable, v: Value) returns (r: Result<set<string>>)
    ensures ItemOk(exportable, v) ==> r == Ok(ItemKeys(exportable, v))
    ensures !ItemOk(exportable, v) ==> r.Err? && ItemError(exportable, v, r.error)
  {
    var decoded := DecodePayload(v);
    if decoded.Err? {
      return Err(decoded.error);
    }
    r := MapEntries(exportable, decoded.value);
  }

  /** The elements of `decompress`' value: a string or dict is one element. */
  function Payloads(value: Value): seq<Value>
    requires IsText(value) || value.DictV? || IsSequence(value)
  {
    if IsText(value) || value.DictV? then [value] else value.items
  }

  /** Every element is fine. */
  ghost predicate AllOk(exportable: Exportable, items: seq<Value>)
  {
    forall i :: 0 <= i < |items| ==> ItemOk(exportable, items[i])
  }

  /** The keys of all elements. */
  ghost function Decompressed(exportable: Exportable, items: seq<Value>): set<string>
    requires AllOk(exportable, items)
  {
    if |items| == 0 then {}
    else Decompressed(exportable, items[..|items| - 1]) + ItemKeys(exportable, items[|items| - 1])
  }

  /** One more fine element adds its keys. */
  lemma DecompressedSnoc(exportable: Exportable, items: seq<Value>, i: nat)
    requires i < |items| && AllOk(exportable, items[..i]) && ItemOk(exportable, items[i])
    ensures AllOk(exportable, items[..i + 1])
    ensures Decompressed(exportable, items[..i + 1]) == Decompressed(exportable, items[..i]) + ItemKeys(exportable, items[i])
  {
    assert items[..i + 1][..i] == items[..i];
  }

  /**
   * `decompress(value)`: the set of checked keys for the stored permissions
   * (a string, a dict, or a list, tuple or queryset of them).
   */
  method Decompress(exportable: Exportable, value: Value) returns (r: Result<set<string>>)
    ensures !(IsText(value) || value.DictV? || IsSequence(value)) ==> r == Err(TypeError)
    ensures IsText(value) || value.DictV? || IsSequence(value) ==>
      var items := Payloads(value);
      && (r.Ok? <==> AllOk(exportable, items))
      && (r.Ok? ==> r.value == Decompressed(exportable, items))
      && (r.Err? ==> exists i :: 0 <= i < |items| && ItemError(exportable, items[i], r.error))
  {
    if !(IsText(value) || value.DictV? || IsSequence(value)) {
      return Err(TypeError);
    }
    r := DecompressItems(exportable, Payloads(value));
  }

  /** The element loop of `decompress`: the union of every element's keys, or the first error. */
  method DecompressItems(exportable: Exportable, items: seq<Value>) returns (r: Result<set<string>>)
    ensures r.Ok? <==> AllOk(exportable, items)
    ensures r.Ok? ==> r.value == Decompressed(exportable, items)
    ensures r.Err? ==> exists i :: 0 <= i < |items| && ItemError(exportable, items[i], r.error)
  {
    var permissionKeys: set<string> := {};
    for i := 0 to |items|
      invariant AllOk(exportable, items[..i])
      invariant permissionKeys == Decompressed(exportable, items[..i])
    {
      var entries := ItemEntries(exportable, items[i]);
      if entries.Err? {
        assert !AllOk(exportable, items) by {
          assert !ItemOk(exportable, items[i]);
        }
        return Err(entries.error);
      }
      DecompressedSnoc(exportable, items, i);
      permissionKeys := permissionKeys + entries.value;
    }
    assert items[..|items|] == items;
    return Ok(permissionKeys);
  }

  // ---------------------------------------------------------------------
  // What decompress includes, exactly
  // ---------------------------------------------------------------------

  /** A field key is never a group key when the field has no "/". */
  lemma FieldKeyNotGroupKey(exporterKey: string, f: string, index: nat)
    requires '/' !in f
    ensures FieldKey(exporterKey, f) != GroupKey(exporterKey, index)
  {
    var n := |exporterKey| + 1;
    var tail := "group" + "/" + NatToString(index);
    assert FieldKey(exporterKey, f)[n..] == f;
    assert GroupKey(exporterKey, index)[n..] == tail;
    assert tail[5] == '/';
  }

  /** Distinct group indices give distinct keys. */
  lemma GroupKeyInjective(exporterKey: string, i: nat, j: nat)
    requires GroupKey(exporterKey, i) == GroupKey(exporterKey, j)
    ensures i == j
  {
    var n := |exporterKey| + 7;
    assert GroupKey(exporterKey, i)[n..] == NatToString(i);
    assert GroupKey(exporterKey, j)[n..] == NatToString(j);
    NatToStringInjective(i, j);
  }

  /** Distinct fields give distinct keys. */
  lemma FieldKeyInjective(exporterKey: string, f: string, g: string)
    requires FieldKey(exporterKey, f) == FieldKey(exporterKey, g)
    ensures f == g
  {
    var n := |exporterKey| + 1;
    assert FieldKey(exporterKey, f)[n..] == f;
    assert FieldKey(exporterKey, g)[n..] == g;
  }

  /** No permitted field contains "/". */
  predicate SlashFree(permitted: seq<string>)
  {
    forall j :: 0 <= j < |permitted| ==> '/' !in permitted[j]
  }

  /** `decompress` includes "exporter/group/i" exactly when every field of the i-th group is permitted. */
  lemma GroupKeyExactly(exporterKey: string, permitted: seq<string>, groups: FieldGroups, i: nat)
    requires SlashFree(permitted)
    ensures GroupKey(exporterKey, i) in EntryKeys(exporterKey, permitted, groups)
            <==> i < |groups| && GroupPermitted(groups[i].1, permitted)
  {
    forall f | f in permitted ensures FieldKey(exporterKey, f) != GroupKey(exporterKey, i) {
      FieldKeyNotGroupKey(exporterKey, f, i);
    }
    forall j | 0 <= j < |groups| && GroupKey(exporterKey, j) == GroupKey(exporterKey, i) ensures j == i {
      GroupKeyInjective(exporterKey, i, j);
    }
    assert |GroupKey(exporterKey, i)| > |exporterKey|;
  }

  /** `decompress` includes the bare exporter key exactly when the permitted count equals the exporter's field count. */
  lemma ExporterKeyExactly(exporterKey: string, permitted: seq<string>, groups: FieldGroups)
    ensures exporterKey in EntryKeys(exporterKey, permitted, groups) <==> |permitted| == TotalFields(groups)
  {
    forall f | f in permitted ensures FieldKey(exporterKey, f) != exporterKey {
      assert |FieldKey(exporterKey, f)| > |exporterKey|;
    }
    forall j: nat | j < |groups| ensures GroupKey(exporterKey, j) != exporterKey {
      assert |GroupKey(exporterKey, j)| > |exporterKey|;
    }
  }

  /** `decompress` includes "exporter/f" exactly when f is permitted. */
  lemma FieldKeyExactly(exporterKey: string, permitted: seq<string>, groups: FieldGroups, f: string)
    requires SlashFree(permitted) && '/' !in f
    ensures FieldKey(exporterKey, f) in EntryKeys(exporterKey, permitted, groups) <==> f in permitted
  {
    forall g | g in permitted && FieldKey(exporterKey, g) == FieldKey(exporterKey, f) ensures g == f {
      FieldKeyInjective(exporterKey, g, f);
    }
    forall j: nat | j < |groups| ensures GroupKey(exporterKey, j) != FieldKey(exporterKey, f) {
      FieldKeyNotGroupKey(exporterKey, f, j);
    }
    assert |FieldKey(exporterKey, f)| > |exporterKey|;
  }

  // ---------------------------------------------------------------------
  // Round trip: format_output(decompress(p)) gives p back
  // ---------------------------------------------------------------------

  /** A permission map whose keys and fields contain no "/" and whose exporter keys all resolve. */
  ghost predicate Codable(exportable: Exportable, p: PermissionMap)
  {
    forall e :: e in p ==> '/' !in e && SlashFree(p[e]) && ResolveExporter(exportable, e).Ok?
  }

  /** The keys `decompress` gives for a single map. */
  lemma DecompressedSingle(exportable: Exportable, p: PermissionMap)
    requires Codable(exportable, p)
    ensures AllOk(exportable, [DictV(p)])
    ensures Decompressed(exportable, [DictV(p)]) == ItemKeys(exportable, DictV(p))
  {
    assert DecodePayload(DictV(p)) == Ok(p);
    assert [DictV(p)][..0] == [];
  }

  /** Every key one exporter contributes has at most three parts; a two-part one is that exporter and a permitted field. */
  lemma EntryKeyShape(e: string, permitted: seq<string>, groups: FieldGroups, x: string)
    requires '/' !in e && SlashFree(permitted)
    requires x in EntryKeys(e, permitted, groups)
    ensures |Split(x, '/')| <= 3
    ensures |Split(x, '/')| == 2 ==> Split(x, '/')[0] == e && Split(x, '/')[1] in permitted
  {
    if x in set f | f in permitted :: FieldKey(e, f) {
      var f :| f in permitted && x == FieldKey(e, f);
      FieldKeySplits(e, f);
    } else if x in GroupKeysBelow(e, permitted, groups, |groups|) {
      var i :| 0 <= i < |groups| && x == GroupKey(e, i);
      GroupKeySplits(e, i);
    } else {
      assert x == e;
      ExporterKeySingle(e);
    }
  }

  /** Every key `decompress` gives has at most three parts; a two-part one is a permitted field. */
  lemma DecompressedKeyShape(exportable: Exportable, p: PermissionMap, x: string)
    requires Codable(exportable, p)
    requires ItemOk(exportable, DictV(p)) && x in ItemKeys(exportable, DictV(p))
    ensures |Split(x, '/')| <= 3
    ensures |Split(x, '/')| == 2 ==> Split(x, '/')[0] in p && Split(x, '/')[1] in p[Split(x, '/')[0]]
  {
    assert DecodePayload(DictV(p)) == Ok(p);
    var e :| e in p && x in EntryKeys(e, p[e], ResolveExporter(exportable, e).value);
    EntryKeyShape(e, p[e], ResolveExporter(exportable, e).value, x);
  }

  /** Every permitted field's key is among the keys `decompress` gives. */
  lemma FieldKeyDecompressed(exportable: Exportable, p: PermissionMap, e: string, f: string)
    requires Codable(exportable, p) && ItemOk(exportable, DictV(p))
    requires e in p && f in p[e]
    ensures FieldKey(e, f) in ItemKeys(exportable, DictV(p))
    ensures Split(FieldKey(e, f), '/') == [e, f]
  {
    assert DecodePayload(DictV(p)) == Ok(p);
    assert FieldKey(e, f) in ExporterKeys(exportable, p, e);
    assert FieldKey(e, f) in KeysOver(exportable, p, p.Keys);
    FieldKeySplits(e, f);
  }

  /**
   * Round trip: whatever order the keys `decompress` gives for one map are
   * listed in, `format_output` accepts them and rebuilds the map: the same
   * exporters (those with fields) and the same field set per exporter.
   */
  lemma RoundTrip(exportable: Exportable, p: PermissionMap, s: seq<string>)
    requires Codable(exportable, p)
    requires AllOk(exportable, [DictV(p)]) && Elems(s) == Decompressed(exportable, [DictV(p)])
    ensures forall i :: 0 <= i < |s| ==> |Split(s[i], '/')| <= 3
    ensures forall e :: e in Keys(Grouped(s)) <==> e in p && p[e] != []
    ensures forall e, f :: e in p && p[e] != [] ==> Get(Grouped(s), e).Some? && (f in Get(Grouped(s), e).value <==> f in p[e])
  {
    DecompressedSingle(exportable, p);
    forall i | 0 <= i < |s| ensures |Split(s[i], '/')| <= 3 {
      assert s[i] in Elems(s);
      DecompressedKeyShape(exportable, p, s[i]);
    }
    forall e, f | true
      ensures (f in FieldsFor(s, e)) <==> e in p && f in p[e]
    {
      FieldsForMembers(s, e, f);
      if f in FieldsFor(s, e) {
        var i :| 0 <= i < |s| && Split(s[i], '/') == [e, f];
        assert s[i] in Elems(s);
        DecompressedKeyShape(exportable, p, s[i]);
      }
      if e in p && f in p[e] {
        FieldKeyDecompressed(exportable, p, e, f);
        assert FieldKey(e, f) in Elems(s);
        var i :| 0 <= i < |s| && s[i] == FieldKey(e, f);
      }
    }
    forall e | true ensures e in Keys(Grouped(s)) <==> e in p && p[e] != [] {
      GroupedGet(s, e);
      if FieldsFor(s, e) != [] {
        assert FieldsFor(s, e)[0] in FieldsFor(s, e);
      }
      if e in p && p[e] != [] {
        assert p[e][0] in p[e];
      }
    }
    forall e | e in p && p[e] != [] ensures Get(Grouped(s), e) == Some(FieldsFor(s, e)) {
      GroupedGet(s, e);
      assert p[e][0] in p[e];
    }
  }

  // ---------------------------------------------------------------------
  // ExportFieldsPermissionsField: validate and clean
  // ---------------------------------------------------------------------

  /** The submitted value: a list or tuple of keys, or some other value with its truthiness. */
  datatype Submitted = ListIn(items: seq<string>) | TupleIn(items: seq<string>) | OtherIn(truthy: bool)

  /** Python truthiness of the submitted value. */
  predicate SubmittedTruthy(v: Submitted)
  {
    if v.OtherIn? then v.truthy else v.items != []
  }

  /** `validate`: required and non-empty, a list or tuple, and every element a choice. */
  method Validate(required: bool, value: Submitted, choices: seq<string>) returns (r: Outcome)
    ensures required && !SubmittedTruthy(value) ==> r == Fail(ValidationError("required"))
    ensures !(required && !SubmittedTruthy(value)) && value.OtherIn? ==> r == Fail(TypeError)
    ensures !(required && !SubmittedTruthy(value)) && !value.OtherIn? ==>
      && (r.Pass? <==> forall i :: 0 <= i < |value.items| ==> value.items[i] in choices)
      && (r.Fail? ==> r.error == ValidationError("invalid_choice"))
  {
    if required && !SubmittedTruthy(value) {
      return Fail(ValidationError("required"));
    }
    if value.OtherIn? {
      return Fail(TypeError);
    }
    var items := value.items;
    for i := 0 to |items|
      invariant forall j :: 0 <= j < i ==> items[j] in choices
    {
      if items[i] !in choices {
        return Fail(ValidationError("invalid_choice"));
      }
    }
    return Pass;
  }

  /** Django's `MultipleChoiceField.to_python`: falsy is [], a list or tuple is kept, anything else is rejected. */
  function ToPython(value: Submitted): (r: Result<seq<string>>)
    ensures r.Ok? <==> !value.OtherIn? || !value.truthy
    ensures r.Ok? && !value.OtherIn? ==> r.value == value.items
  {
    if !value.OtherIn? then Ok(value.items)
    else if value.truthy then Err(ValidationError("invalid_list"))
    else Ok([])
  }

  /**
   * `clean`: the choices come from the widget's table; a value with an
   * element outside them is rejected as an invalid choice (the field is
   * never required), and otherwise the result is `format_output(value)`,
   * compressed: the JSON text of the grouped fields, or `{}` when no field
   * key was given.
   */
  method Clean(widget: PermissionsWidget, value: Submitted) returns (r: Result<Output>)
    requires widget.Valid()
    modifies widget
    ensures widget.Valid()
    ensures ToPython(value).Err? ==> r == Err(ToPython(value).error)
    ensures r.Ok? ==> ToPython(value).Ok? && var items := ToPython(value).value;
      && (forall i :: 0 <= i < |items| ==> items[i] in ChoicesOf(TableOf(widget.exportable, widget.maxFieldGroups)))
      && (items != [] ==> r.value.fields == Grouped(items))
    ensures ToPython(value).Ok? ==>
      var items := ToPython(value).value;
      var choices := ChoicesOf(TableOf(widget.exportable, widget.maxFieldGroups));
      && (r == Err(ValidationError("invalid_choice")) <==> exists i :: 0 <= i < |items| && items[i] !in choices)
      && ((forall i :: 0 <= i < |items| ==> items[i] in choices) ==>
            && (r.Err? <==> exists i :: 0 <= i < |items| && |Split(items[i], '/')| > 3)
            && (r.Err? ==> r.error == ValueError)
            && (r.Ok? ==> r.value == if Grouped(items) == [] then Plain([]) else Compressed(Grouped(items))))
  {
    var choices := widget.GetChoices();
    var items := ToPython(value);
    if items.Err? {
      return Err(items.error);
    }
    var valid := Validate(false, ListIn(items.value), choices);
    if valid.Fail? {
      return Err(valid.error);
    }
    r := FormatOutput(items.value, true);
  }
}
