/**
 * The exporter mixins of outputs/mixins.py: the filename an exporter
 * mails (`ExporterMixin.get_filename`), the fields an Excel exporter
 * writes (`ExcelExporterMixin.get_selected_fields`), and the layout of the
 * worksheet it fills (`write_header`, `write_content`, `write_data`, and
 * the attribute parsing of `write_row`).
 *
 * The worksheet belongs to a foreign library; it is modelled as the log of
 * the calls the exporter makes on it.
 */
module Exporters {
  import opened Common

  // ---------------------------------------------------------------------
  // ExporterMixin.get_filename
  // ---------------------------------------------------------------------

  predicate IsAscii(c: char)
  {
    (c as int) < 128
  }

  /** `s.encode('ascii', 'ignore').decode('utf-8')`: `s` with its non-ASCII characters deleted. */
  function AsciiOnly(s: string): string
  {
    if |s| == 0 then ""
    else AsciiOnly(s[..|s| - 1]) + if IsAscii(s[|s| - 1]) then [s[|s| - 1]] else []
  }

  /** The sanitised name has only ASCII characters, exactly the ASCII characters of the input. */
  lemma {:induction false} AsciiOnlyCharacterised(s: string)
    ensures forall i :: 0 <= i < |AsciiOnly(s)| ==> IsAscii(AsciiOnly(s)[i])
    ensures forall c :: c in AsciiOnly(s) <==> c in s && IsAscii(c)
    ensures |AsciiOnly(s)| <= |s|
    decreases |s|
  {
    if |s| > 0 {
      var init, last := s[..|s| - 1], s[|s| - 1];
      AsciiOnlyCharacterised(init);
      assert s == init + [last];
      assert forall c :: c in s <==> c in init || c == last;
    }
  }

  /** Deleting the non-ASCII characters of a concatenation deletes them from each part. */
  lemma {:induction false} AsciiOnlyAppend(a: string, b: string)
    ensures AsciiOnly(a + b) == AsciiOnly(a) + AsciiOnly(b)
    decreases |b|
  {
    if |b| > 0 {
      var b', c := b[..|b| - 1], b[|b| - 1];
      assert (a + b)[..|a + b| - 1] == a + b';
      AsciiOnlyAppend(a, b');
    } else {
      assert a + b == a;
    }
  }

  /** An all-ASCII string is left as it is. */
  lemma {:induction false} AsciiOnlyKeeps(s: string)
    requires forall i :: 0 <= i < |s| ==> IsAscii(s[i])
    ensures AsciiOnly(s) == s
    decreases |s|
  {
    if |s| > 0 {
      var init, last := s[..|s| - 1], s[|s| - 1];
      assert forall i :: 0 <= i < |init| ==> init[i] == s[i];
      AsciiOnlyKeeps(init);
      assert AsciiOnly(s) == AsciiOnly(init) + [last];
      assert s == init + [last];
    }
  }

  /** Sanitising twice is sanitising once. */
  lemma AsciiOnlyIdempotent(s: string)
    ensures AsciiOnly(AsciiOnly(s)) == AsciiOnly(s)
  {
    AsciiOnlyCharacterised(s);
    AsciiOnlyKeeps(AsciiOnly(s));
  }

  /** The state of an exporter that the mail path reads. */
  class Exporter {
    var filename: Option<string>
    var sendSeparately: bool

    /** `filename` and `send_separately` come from the keyword arguments or the class defaults. */
    constructor(filename: Option<string>, sendSeparately: bool)
      ensures this.filename == filename && this.sendSeparately == sendSeparately
    {
      this.filename := filename;
      this.sendSeparately := sendSeparately;
    }

    /**
     * `get_filename`: ValueError for a missing or empty filename; otherwise
     * the filename loses its non-ASCII characters, in place.
     */
    method GetFilename() returns (r: Result<string>)
      modifies this
      ensures !Truthy(old(filename)) ==> r == Err(ValueError) && filename == old(filename)
      ensures Truthy(old(filename)) ==> r == Ok(AsciiOnly(old(filename).value)) && filename == Some(r.value)
      ensures sendSeparately == old(sendSeparately)
    {
      if !Truthy(filename) {
        return Err(ValueError);
      }
      filename := Some(AsciiOnly(filename.value));
      return Ok(filename.value);
    }
  }

  /**
   * A second call returns what the first did, unless the first left an
   * empty name (a name without ASCII characters), which the second rejects.
   */
  lemma SecondFilenameCall(s: string)
    ensures Truthy(Some(AsciiOnly(s))) ==> AsciiOnly(AsciiOnly(s)) == AsciiOnly(s)
    ensures !Truthy(Some(AsciiOnly(s))) <==> forall i :: 0 <= i < |s| ==> !IsAscii(s[i])
  {
    AsciiOnlyIdempotent(s);
    AsciiOnlyCharacterised(s);
    if AsciiOnly(s) != "" {
      assert AsciiOnly(s)[0] in AsciiOnly(s);
    }
    if exists i :: 0 <= i < |s| && IsAscii(s[i]) {
      var i :| 0 <= i < |s| && IsAscii(s[i]);
      assert s[i] in AsciiOnly(s);
    }
  }

  // ---------------------------------------------------------------------
  // ExcelExporterMixin.get_selected_fields
  // ---------------------------------------------------------------------

  /** A field is written when there is no selection or its attribute is selected. */
  predicate Chosen(field: FieldDef, selected: Option<seq<string>>)
  {
    selected.None? || field.attr in selected.value
  }

  /** The chosen fields of `fields`, in their order. */
  function Filter(fields: seq<FieldDef>, selected: Option<seq<string>>): seq<FieldDef>
  {
    if |fields| == 0 then []
    else
      var last := fields[|fields| - 1];
      Filter(fields[..|fields| - 1], selected) + if Chosen(last, selected) then [last] else []
  }

  /** The chosen fields of all groups, in declaration order. */
  function SelectedFields(groups: FieldGroups, selected: Option<seq<string>>): seq<FieldDef>
  {
    Filter(FlattenValues(groups), selected)
  }

  lemma FilterSnoc(fields: seq<FieldDef>, field: FieldDef, selected: Option<seq<string>>)
    ensures Filter(fields + [field], selected) == Filter(fields, selected) + if Chosen(field, selected) then [field] else []
  {
    assert (fields + [field])[..|fields|] == fields;
  }

  /** A field is selected exactly when it is declared and chosen. */
  lemma {:induction false} FilterMembers(fields: seq<FieldDef>, selected: Option<seq<string>>, f: FieldDef)
    ensures f in Filter(fields, selected) <==> f in fields && Chosen(f, selected)
    decreases |fields|
  {
    if |fields| > 0 {
      var init := fields[..|fields| - 1];
      FilterMembers(init, selected, f);
      assert fields == init + [fields[|fields| - 1]];
    }
  }

  /** Without a selection every declared field is written. */
  lemma {:induction false} FilterNone(fields: seq<FieldDef>)
    ensures Filter(fields, None) == fields
    decreases |fields|
  {
    if |fields| > 0 {
      FilterNone(fields[..|fields| - 1]);
    }
  }

  /** Selection keeps declaration order: it works part by part. */
  lemma {:induction false} FilterAppend(a: seq<FieldDef>, b: seq<FieldDef>, selected: Option<seq<string>>)
    ensures Filter(a + b, selected) == Filter(a, selected) + Filter(b, selected)
    decreases |b|
  {
    if |b| > 0 {
      var b' := b[..|b| - 1];
      assert a + b == (a + b') + [b[|b| - 1]];
      FilterAppend(a, b', selected);
      FilterSnoc(a + b', b[|b| - 1], selected);
    } else {
      assert a + b == a;
    }
  }

  /** The inner loop over one field set: its chosen fields are appended. */
  method SelectFromSet(fields: seq<FieldDef>, ghost before: seq<FieldDef>, fieldSet: seq<FieldDef>,
                       selected: Option<seq<string>>)
    returns (fields': seq<FieldDef>)
    requires fields == Filter(before, selected)
    ensures fields' == Filter(before + fieldSet, selected)
  {
    fields' := fields;
    assert before + fieldSet[..0] == before;
    for j := 0 to |fieldSet|
      invariant fields' == Filter(before + fieldSet[..j], selected)
    {
      var field := fieldSet[j];
      FilterSnoc(before + fieldSet[..j], field, selected);
      assert before + fieldSet[..j + 1] == (before + fieldSet[..j]) + [field];
      if Chosen(field, selected) {
        fields' := fields' + [field];
      }
    }
    assert fieldSet[..|fieldSet|] == fieldSet;
  }

  /** The nested loops over the field sets: the chosen fields, in declaration order. */
  method SelectFields(groups: FieldGroups, selected: Option<seq<string>>) returns (fields: seq<FieldDef>)
    ensures fields == SelectedFields(groups, selected)
  {
    fields := [];
    for g := 0 to |groups|
      invariant fields == Filter(FlattenValues(groups[..g]), selected)
    {
      fields := SelectFromSet(fields, FlattenValues(groups[..g]), groups[g].1, selected);
      assert groups[..g + 1][..g] == groups[..g];
    }
    assert groups[..|groups|] == groups;
  }

  /** A related set the exporter declares (`selectable_iterative_sets()`), with the verbose name of its related model. */
  datatype IterativeSource = IterativeSource(setAttr: string, groups: FieldGroups, verboseName: string)

  /** An object to export, with its number of related objects per set attribute. */
  datatype Item = Item(relatives: map<string, nat>)

  /** What `get_selected_fields` reports for one related set. */
  datatype IterSet = IterSet(setAttr: string, fields: seq<FieldDef>, iterationNumber: nat, verboseName: string)

  /** Every object has every declared relation (they are reverse relations of the exported model). */
  predicate HasRelations(objects: seq<Item>, sources: seq<IterativeSource>)
  {
    forall k, s :: 0 <= k < |objects| && 0 <= s < |sources| ==> sources[s].setAttr in objects[k].relatives
  }

  /** The most related objects any object has in `setAttr` (the annotated maximum). */
  function MaxRelatives(objects: seq<Item>, setAttr: string): (n: nat)
    requires forall k :: 0 <= k < |objects| ==> setAttr in objects[k].relatives
    ensures forall k :: 0 <= k < |objects| ==> objects[k].relatives[setAttr] <= n
    ensures |objects| > 0 ==> exists k :: 0 <= k < |objects| && objects[k].relatives[setAttr] == n
  {
    if |objects| == 0 then 0
    else
      var rest := MaxRelatives(objects[..|objects| - 1], setAttr);
      var here := objects[|objects| - 1].relatives[setAttr];
      assert forall k :: 0 <= k < |objects| - 1 ==> objects[..|objects| - 1][k] == objects[k];
      if here > rest then here else rest
  }

  /**
   * The corrected report for one related set: its chosen fields by the
   * same rule as the plain fields, and as many iterations as the object
   * with the most relatives has.
   */
  function ToIterSet(source: IterativeSource, selected: Option<seq<string>>, objects: seq<Item>): IterSet
    requires forall k :: 0 <= k < |objects| ==> source.setAttr in objects[k].relatives
  {
    IterSet(source.setAttr, SelectedFields(source.groups, selected), MaxRelatives(objects, source.setAttr), source.verboseName)
  }

  /**
   * The iterative-field selection as written: `attr in self.selected_fields`
   * raises TypeError when there is no selection (None) and the set declares
   * any field.
   */
  function IterativeFieldsAsWritten(groups: FieldGroups, selected: Option<seq<string>>): Result<seq<FieldDef>>
  {
    if selected.None? && FlattenValues(groups) != [] then Err(TypeError)
    else Ok(SelectedFields(groups, selected))
  }

  /** The discrepancy: with no selection a plain field is written, but the same field in a related set raises. */
  lemma IterativeSelectionRaises()
    ensures var groups := [("Items", [FieldDef("quantity", "Quantity", 10)])];
      && SelectedFields(groups, None) == [FieldDef("quantity", "Quantity", 10)]
      && IterativeFieldsAsWritten(groups, None) == Err(TypeError)
  {
    var groups := [("Items", [FieldDef("quantity", "Quantity", 10)])];
    assert groups[..0] == [];
    assert FlattenValues(groups) == [FieldDef("quantity", "Quantity", 10)];
    FilterNone(FlattenValues(groups));
  }

  /** As written and corrected agree whenever there is a selection. */
  lemma IterativeAsWrittenAgrees(groups: FieldGroups, selected: Option<seq<string>>)
    requires selected.Some?
    ensures IterativeFieldsAsWritten(groups, selected) == Ok(ToIterSet(IterativeSource("", groups, ""), selected, []).fields)
  {
  }

  /** Corrected: without a selection every field of a related set is written, as for plain fields. */
  lemma IterativeAllWhenUnselected(source: IterativeSource, objects: seq<Item>)
    requires forall k :: 0 <= k < |objects| ==> source.setAttr in objects[k].relatives
    ensures ToIterSet(source, None, objects).fields == FlattenValues(source.groups)
  {
    FilterNone(FlattenValues(source.groups));
  }

  /** Every declared related set, reported by the corrected rule, in declaration order. */
  function SelectedSets(sources: seq<IterativeSource>, selected: Option<seq<string>>, objects: seq<Item>): (sets: seq<IterSet>)
    requires HasRelations(objects, sources)
    ensures |sets| == |sources| && Related(objects, sets)
    ensures forall s :: 0 <= s < |sets| ==> sets[s].setAttr == sources[s].setAttr
    ensures forall k, s :: 0 <= k < |objects| && 0 <= s < |sets| ==> objects[k].relatives[sets[s].setAttr] <= sets[s].iterationNumber
  {
    seq(|sources|, s requires 0 <= s < |sources| => ToIterSet(sources[s], selected, objects))
  }

  /**
   * `get_selected_fields` (selection rule corrected as above): the chosen
   * plain fields, and per declared related set its chosen fields, its
   * iteration count, and its verbose name. IndexError when there are no
   * objects; AttributeError for a set no object has relatives in (the
   * first relative of the top object is None).
   */
  method GetSelectedFields(groups: FieldGroups, selected: Option<seq<string>>,
                           iterative: Option<seq<IterativeSource>>, objects: seq<Item>)
    returns (r: Result<(seq<FieldDef>, seq<IterSet>)>)
    requires iterative.Some? ==> HasRelations(objects, iterative.value)
    ensures iterative.None? ==> r == Ok((SelectedFields(groups, selected), []))
    ensures iterative.Some? && iterative.value != [] && objects == [] ==> r == Err(IndexError)
    ensures iterative.Some? && objects != [] ==>
      var sources := iterative.value;
      && (r.Ok? <==> forall s :: 0 <= s < |sources| ==> MaxRelatives(objects, sources[s].setAttr) > 0)
      && (r.Err? ==> r.error == AttributeError)
      && (r.Ok? ==> r.value == (SelectedFields(groups, selected), SelectedSets(sources, selected, objects)))
  {
    var fields := SelectFields(groups, selected);
    if iterative.None? {
      return Ok((fields, []));
    }
    var sources := iterative.value;
    var iterativeSetsFields: seq<IterSet> := [];
    for s := 0 to |sources|
      invariant |iterativeSetsFields| == s
      invariant s > 0 ==> objects != []
      invariant forall t :: 0 <= t < s ==> MaxRelatives(objects, sources[t].setAttr) > 0
      invariant forall t :: 0 <= t < s ==> iterativeSetsFields[t] == ToIterSet(sources[t], selected, objects)
    {
      var source := sources[s];
      if objects == [] {
        return Err(IndexError);
      }
      var iterationNumber := MaxRelatives(objects, source.setAttr);
      var iterativeFields := SelectFields(source.groups, selected);
      if iterationNumber == 0 {
        return Err(AttributeError);
      }
      iterativeSetsFields := iterativeSetsFields + [IterSet(source.setAttr, iterativeFields, iterationNumber, source.verboseName)];
    }
    assert iterativeSetsFields == SelectedSets(sources, selected, objects);
    return Ok((fields, iterativeSetsFields));
  }

  // ---------------------------------------------------------------------
  // The worksheet
  // ---------------------------------------------------------------------

  /** Whose value a `write_row` call writes: the k-th object, or its j-th relative in a set. */
  datatype Source = Object(index: nat) | Relative(index: nat, setAttr: string, position: nat)

  /** The calls an exporter makes on its worksheet. */
  datatype SheetCall =
    | Write(row: int, col: int, text: string)
    | SetColumn(first: int, last: int, width: int)
    | WriteRow(row: int, col: int, source: Source, field: FieldDef)
    | Autofilter(firstRow: int, firstCol: int, lastRow: int, lastCol: int)

  /** An xlsxwriter worksheet, seen through the calls made on it. */
  class Worksheet {
    var calls: seq<SheetCall>

    constructor()
      ensures calls == []
    {
      calls := [];
    }

    /** `worksheet.write(row, col, text, header_format)`. */
    method Write(row: int, col: int, text: string)
      modifies this
      ensures calls == old(calls) + [SheetCall.Write(row, col, text)]
    {
      calls := calls + [SheetCall.Write(row, col, text)];
    }

    /** `worksheet.set_column(first, last, width)`. */
    method SetColumn(first: int, last: int, width: int)
      modifies this
      ensures calls == old(calls) + [SheetCall.SetColumn(first, last, width)]
    {
      calls := calls + [SheetCall.SetColumn(first, last, width)];
    }

    /** `ExcelExporterMixin.write_row(worksheet, row, col, obj, field)`: one cell of one object's field. */
    method WriteRow(row: int, col: int, source: Source, field: FieldDef)
      modifies this
      ensures calls == old(calls) + [SheetCall.WriteRow(row, col, source, field)]
    {
      calls := calls + [SheetCall.WriteRow(row, col, source, field)];
    }

    /** `worksheet.autofilter(first_row, first_col, last_row, last_col)`. */
    method Autofilter(firstRow: int, firstCol: int, lastRow: int, lastCol: int)
      modifies this
      ensures calls == old(calls) + [SheetCall.Autofilter(firstRow, firstCol, lastRow, lastCol)]
    {
      calls := calls + [SheetCall.Autofilter(firstRow, firstCol, lastRow, lastCol)];
    }
  }

  // ---------------------------------------------------------------------
  // write_header
  // ---------------------------------------------------------------------

  /** `header_update`: labels for plain attributes, and per set attribute labels for its fields. */
  datatype HeaderUpdate = HeaderUpdate(plain: map<string, string>, sets: map<string, map<string, string>>)

  /** One header column: its label and width. */
  datatype Column = Column(text: string, width: int)

  /** A plain field's label: overridden by `header_update`, else its own. */
  function PlainLabel(field: FieldDef, update: HeaderUpdate): string
  {
    if field.attr in update.plain then update.plain[field.attr] else field.caption
  }

  /** The label of a related set's field in the given iteration: "{verbose} #{i}: {label}". */
  function IterativeLabel(rel: IterSet, iteration: nat, field: FieldDef, update: HeaderUpdate): string
  {
    var caption := if rel.setAttr in update.sets && field.attr in update.sets[rel.setAttr]
                   then update.sets[rel.setAttr][field.attr] else field.caption;
    rel.verboseName + " #" + NatToString(iteration) + ": " + caption
  }

  /** The columns of the plain fields. */
  function PlainColumns(fields: seq<FieldDef>, update: HeaderUpdate): (cols: seq<Column>)
    ensures |cols| == |fields|
  {
    seq(|fields|, i requires 0 <= i < |fields| => Column(PlainLabel(fields[i], update), fields[i].width))
  }

  /** The columns of one iteration of a related set. */
  function IterationColumns(rel: IterSet, iteration: nat, update: HeaderUpdate): (cols: seq<Column>)
    ensures |cols| == |rel.fields|
  {
    seq(|rel.fields|, i requires 0 <= i < |rel.fields| =>
      Column(IterativeLabel(rel, iteration, rel.fields[i], update), rel.fields[i].width))
  }

  /** The columns of iterations 1..n of a related set. */
  function SetColumns(rel: IterSet, n: nat, update: HeaderUpdate): seq<Column>
  {
    if n == 0 then [] else SetColumns(rel, n - 1, update) + IterationColumns(rel, n, update)
  }

  /** The columns of all related sets, set after set. */
  function IterativeColumns(sets: seq<IterSet>, update: HeaderUpdate): seq<Column>
  {
    if |sets| == 0 then []
    else
      var last := sets[|sets| - 1];
      IterativeColumns(sets[..|sets| - 1], update) + SetColumns(last, last.iterationNumber, update)
  }

  /** All header columns: plain fields first, then the related sets. */
  function HeaderColumns(fields: seq<FieldDef>, sets: seq<IterSet>, update: HeaderUpdate): seq<Column>
  {
    PlainColumns(fields, update) + IterativeColumns(sets, update)
  }

  /** The i-th column gets its label in row 0 and its width, in column order. */
  function HeaderCalls(cols: seq<Column>): (calls: seq<SheetCall>)
    ensures |calls| == 2 * |cols|
  {
    seq(2 * |cols|, j requires 0 <= j < 2 * |cols| =>
      if j % 2 == 0 then Write(0, j / 2, cols[j / 2].text) else SetColumn(j / 2, j / 2, cols[j / 2].width))
  }

  lemma HeaderCallsSnoc(cols: seq<Column>, c: Column)
    ensures HeaderCalls(cols + [c]) == HeaderCalls(cols) + [Write(0, |cols|, c.text), SetColumn(|cols|, |cols|, c.width)]
  {
    var a, b := HeaderCalls(cols + [c]), HeaderCalls(cols) + [Write(0, |cols|, c.text), SetColumn(|cols|, |cols|, c.width)];
    forall j | 0 <= j < |a| ensures a[j] == b[j] {
      if j < 2 * |cols| {
        assert (cols + [c])[j / 2] == cols[j / 2];
      }
    }
  }

  /** Header calls place column k at position k: label then width, on contiguous columns 0, 1, ... */
  lemma HeaderCallsAt(cols: seq<Column>, k: nat)
    requires k < |cols|
    ensures HeaderCalls(cols)[2 * k] == Write(0, k, cols[k].text)
    ensures HeaderCalls(cols)[2 * k + 1] == SetColumn(k, k, cols[k].width)
  {
  }

  /** The number of columns of the related sets: for each set, its iterations times its fields. */
  function IterativeWidth(sets: seq<IterSet>): nat
  {
    if |sets| == 0 then 0
    else IterativeWidth(sets[..|sets| - 1]) + sets[|sets| - 1].iterationNumber * |sets[|sets| - 1].fields|
  }

  lemma {:induction false} SetColumnsLength(rel: IterSet, n: nat, update: HeaderUpdate)
    ensures |SetColumns(rel, n, update)| == n * |rel.fields|
    decreases n
  {
    if n > 0 {
      SetColumnsLength(rel, n - 1, update);
      assert n * |rel.fields| == (n - 1) * |rel.fields| + |rel.fields|;
    }
  }

  lemma {:induction false} IterativeColumnsLength(sets: seq<IterSet>, update: HeaderUpdate)
    ensures |IterativeColumns(sets, update)| == IterativeWidth(sets)
    decreases |sets|
  {
    if |sets| > 0 {
      var last := sets[|sets| - 1];
      IterativeColumnsLength(sets[..|sets| - 1], update);
      SetColumnsLength(last, last.iterationNumber, update);
    }
  }

  /** The header has one column per plain field and, per related set, its iterations times its fields. */
  lemma HeaderWidth(fields: seq<FieldDef>, sets: seq<IterSet>, update: HeaderUpdate)
    ensures |HeaderColumns(fields, sets, update)| == |fields| + IterativeWidth(sets)
  {
    IterativeColumnsLength(sets, update);
  }

  /** Fewer iterations give a prefix of the columns. */
  lemma {:induction false} SetColumnsPrefix(rel: IterSet, m: nat, n: nat, update: HeaderUpdate)
    requires m <= n
    ensures SetColumns(rel, m, update) <= SetColumns(rel, n, update)
    decreases n
  {
    if m < n {
      SetColumnsPrefix(rel, m, n - 1, update);
    }
  }

  /** Fewer sets give a prefix of the columns. */
  lemma {:induction false} IterativeColumnsPrefix(sets: seq<IterSet>, s: nat, update: HeaderUpdate)
    requires s <= |sets|
    ensures IterativeColumns(sets[..s], update) <= IterativeColumns(sets, update)
    decreases |sets|
  {
    if s < |sets| {
      var init := sets[..|sets| - 1];
      IterativeColumnsPrefix(init, s, update);
      assert init[..s] == sets[..s];
    } else {
      assert sets[..s] == sets;
    }
  }

  /** In iterations 1..n, the f-th field of iteration i sits at (i - 1) * |fields| + f. */
  lemma SetColumnsAt(rel: IterSet, n: nat, i: nat, f: nat, update: HeaderUpdate)
    requires 1 <= i <= n && f < |rel.fields|
    ensures (i - 1) * |rel.fields| + f < |SetColumns(rel, n, update)|
    ensures SetColumns(rel, n, update)[(i - 1) * |rel.fields| + f] == Column(IterativeLabel(rel, i, rel.fields[f], update), rel.fields[f].width)
  {
    SetColumnsLength(rel, i - 1, update);
    SetColumnsPrefix(rel, i, n, update);
    var front, cols := SetColumns(rel, i - 1, update), IterationColumns(rel, i, update);
    assert |front| == (i - 1) * |rel.fields|;
    assert SetColumns(rel, i, update) == front + cols;
    assert (front + cols)[|front| + f] == cols[f];
  }

  /** Plain fields are labelled in columns 0..n-1, with their own label or the override. */
  lemma PlainColumnsAt(fields: seq<FieldDef>, sets: seq<IterSet>, update: HeaderUpdate, c: nat)
    requires c < |fields|
    ensures HeaderColumns(fields, sets, update)[c] == Column(PlainLabel(fields[c], update), fields[c].width)
  {
  }

  /** The columns of the s-th related set follow those of the sets before it. */
  lemma SetColumnsPlaced(sets: seq<IterSet>, s: nat, j: nat, update: HeaderUpdate)
    requires s < |sets| && j < |SetColumns(sets[s], sets[s].iterationNumber, update)|
    ensures IterativeWidth(sets[..s]) + j < |IterativeColumns(sets, update)|
    ensures IterativeColumns(sets, update)[IterativeWidth(sets[..s]) + j] == SetColumns(sets[s], sets[s].iterationNumber, update)[j]
  {
    var front := sets[..s];
    IterativeColumnsLength(front, update);
    IterativeColumnsPrefix(sets, s + 1, update);
    assert sets[..s + 1][..s] == front;
    var upto := IterativeColumns(sets[..s + 1], update);
    assert upto == IterativeColumns(front, update) + SetColumns(sets[s], sets[s].iterationNumber, update);
    assert upto[IterativeWidth(front) + j] == IterativeColumns(sets, update)[IterativeWidth(front) + j];
  }

  /**
   * The f-th field of the s-th related set, in iteration i (from 1), is
   * labelled "{verbose} #{i}: {label}" in the column that follows the
   * plain fields, the earlier sets' columns and the earlier iterations.
   */
  lemma IterativeColumnsAt(fields: seq<FieldDef>, sets: seq<IterSet>, s: nat, i: nat, f: nat, update: HeaderUpdate)
    requires s < |sets| && 1 <= i <= sets[s].iterationNumber && f < |sets[s].fields|
    ensures |fields| + IterativeWidth(sets[..s]) + (i - 1) * |sets[s].fields| + f < |HeaderColumns(fields, sets, update)|
    ensures HeaderColumns(fields, sets, update)[|fields| + IterativeWidth(sets[..s]) + (i - 1) * |sets[s].fields| + f]
            == Column(IterativeLabel(sets[s], i, sets[s].fields[f], update), sets[s].fields[f].width)
  {
    SetColumnsAt(sets[s], sets[s].iterationNumber, i, f, update);
    SetHeaderPlaced(fields, sets, s, (i - 1) * |sets[s].fields| + f, update);
  }

  /** The s-th related set's columns, within the whole header. */
  lemma SetHeaderPlaced(fields: seq<FieldDef>, sets: seq<IterSet>, s: nat, j: nat, update: HeaderUpdate)
    requires s < |sets| && j < |SetColumns(sets[s], sets[s].iterationNumber, update)|
    ensures |fields| + IterativeWidth(sets[..s]) + j < |HeaderColumns(fields, sets, update)|
    ensures HeaderColumns(fields, sets, update)[|fields| + IterativeWidth(sets[..s]) + j]
            == SetColumns(sets[s], sets[s].iterationNumber, update)[j]
  {
    SetColumnsPlaced(sets, s, j, update);
    var plain, rest := PlainColumns(fields, update), IterativeColumns(sets, update);
    var at := IterativeWidth(sets[..s]) + j;
    assert |plain| == |fields|;
    assert (plain + rest)[|plain| + at] == rest[at];
  }

  /** One iteration of a related set's fields, labelled from column `lastCol` on. */
  method WriteIterationHeader(worksheet: Worksheet, ghost base: seq<SheetCall>, ghost before: seq<Column>,
                              lastCol: nat, rel: IterSet, iteration: nat, update: HeaderUpdate)
    returns (next: nat)
    requires lastCol == |before| && worksheet.calls == base + HeaderCalls(before)
    modifies worksheet
    ensures next == |before + IterationColumns(rel, iteration, update)|
    ensures worksheet.calls == base + HeaderCalls(before + IterationColumns(rel, iteration, update))
  {
    next := lastCol;
    ghost var cols := IterationColumns(rel, iteration, update);
    assert before + cols[..0] == before;
    for f := 0 to |rel.fields|
      invariant next == |before + cols[..f]|
      invariant worksheet.calls == base + HeaderCalls(before + cols[..f])
    {
      var field := rel.fields[f];
      var text := IterativeLabel(rel, iteration, field, update);
      worksheet.Write(0, next, text);
      worksheet.SetColumn(next, next, field.width);
      HeaderCallsSnoc(before + cols[..f], Column(text, field.width));
      assert before + cols[..f + 1] == (before + cols[..f]) + [Column(text, field.width)];
      next := next + 1;
    }
    assert cols[..|rel.fields|] == cols;
  }

  /** All iterations of a related set, labelled from column `lastCol` on. */
  method WriteSetHeader(worksheet: Worksheet, ghost base: seq<SheetCall>, ghost before: seq<Column>,
                        lastCol: nat, rel: IterSet, update: HeaderUpdate)
    returns (next: nat)
    requires lastCol == |before| && worksheet.calls == base + HeaderCalls(before)
    modifies worksheet
    ensures next == |before + SetColumns(rel, rel.iterationNumber, update)|
    ensures worksheet.calls == base + HeaderCalls(before + SetColumns(rel, rel.iterationNumber, update))
  {
    next := lastCol;
    assert before + SetColumns(rel, 0, update) == before;
    for iteration := 1 to rel.iterationNumber + 1
      invariant next == |before + SetColumns(rel, iteration - 1, update)|
      invariant worksheet.calls == base + HeaderCalls(before + SetColumns(rel, iteration - 1, update))
    {
      ghost var cols := before + SetColumns(rel, iteration - 1, update);
      next := WriteIterationHeader(worksheet, base, cols, next, rel, iteration, update);
      assert before + SetColumns(rel, iteration, update) == cols + IterationColumns(rel, iteration, update);
    }
  }

  /** The plain fields' labels on columns 0..n-1. */
  method WritePlainHeader(worksheet: Worksheet, fields: seq<FieldDef>, update: HeaderUpdate) returns (next: nat)
    modifies worksheet
    ensures next == |fields|
    ensures worksheet.calls == old(worksheet.calls) + HeaderCalls(PlainColumns(fields, update))
  {
    next := 0;
    ghost var cols: seq<Column> := [];
    for c := 0 to |fields|
      invariant cols == PlainColumns(fields[..c], update)
      invariant next == |cols|
      invariant worksheet.calls == old(worksheet.calls) + HeaderCalls(cols)
    {
      var field := fields[c];
      var text := PlainLabel(field, update);
      worksheet.Write(0, next, text);
      worksheet.SetColumn(next, next, field.width);
      HeaderCallsSnoc(cols, Column(text, field.width));
      cols := cols + [Column(text, field.width)];
      assert PlainColumns(fields[..c + 1], update) == PlainColumns(fields[..c], update) + [Column(text, field.width)];
      next := next + 1;
    }
    assert fields[..|fields|] == fields;
  }

  /**
   * `write_header`: the plain fields' labels on columns 0..n-1, then each
   * related set's fields once per iteration on the following columns,
   * each column's width set as it is labelled.
   */
  method WriteHeader(worksheet: Worksheet, fields: seq<FieldDef>, sets: seq<IterSet>, update: HeaderUpdate)
    modifies worksheet
    ensures worksheet.calls == old(worksheet.calls) + HeaderCalls(HeaderColumns(fields, sets, update))
  {
    ghost var base := worksheet.calls;
    var lastCol := WritePlainHeader(worksheet, fields, update);
    ghost var cols := PlainColumns(fields, update);
    assert cols == PlainColumns(fields, update) + IterativeColumns(sets[..0], update);
    for s := 0 to |sets|
      invariant cols == PlainColumns(fields, update) + IterativeColumns(sets[..s], update)
      invariant lastCol == |cols|
      invariant worksheet.calls == base + HeaderCalls(cols)
    {
      lastCol := WriteSetHeader(worksheet, base, cols, lastCol, sets[s], update);
      assert sets[..s + 1][..s] == sets[..s];
      cols := cols + SetColumns(sets[s], sets[s].iterationNumber, update);
    }
    assert sets[..|sets|] == sets;
  }

  // ---------------------------------------------------------------------
  // write_content
  // ---------------------------------------------------------------------

  /** The cells of the j-th relative (from 0) in a set: one per set field. */
  function RelativeCells(k: nat, rel: IterSet, j: nat): seq<(Source, FieldDef)>
  {
    seq(|rel.fields|, f requires 0 <= f < |rel.fields| => (Relative(k, rel.setAttr, j), rel.fields[f]))
  }

  /** The cells of the first n relatives of the k-th object in a set. */
  function RelativesCells(k: nat, rel: IterSet, n: nat): seq<(Source, FieldDef)>
  {
    if n == 0 then [] else RelativesCells(k, rel, n - 1) + RelativeCells(k, rel, n - 1)
  }

  /** The related-set cells of the k-th object, set after set. */
  function SetsCells(k: nat, obj: Item, sets: seq<IterSet>): seq<(Source, FieldDef)>
    requires forall s :: 0 <= s < |sets| ==> sets[s].setAttr in obj.relatives
  {
    if |sets| == 0 then []
    else
      var last := sets[|sets| - 1];
      SetsCells(k, obj, sets[..|sets| - 1]) + RelativesCells(k, last, obj.relatives[last.setAttr])
  }

  /** The cells of the k-th object's row: its plain fields, then its relatives' set fields. */
  function RowCells(k: nat, obj: Item, fields: seq<FieldDef>, sets: seq<IterSet>): seq<(Source, FieldDef)>
    requires forall s :: 0 <= s < |sets| ==> sets[s].setAttr in obj.relatives
  {
    seq(|fields|, c requires 0 <= c < |fields| => (Object(k), fields[c])) + SetsCells(k, obj, sets)
  }

  /** A row's cells written at columns 0, 1, ... */
  function RowCalls(row: int, cells: seq<(Source, FieldDef)>): (calls: seq<SheetCall>)
    ensures |calls| == |cells|
  {
    seq(|cells|, c requires 0 <= c < |cells| => WriteRow(row, c, cells[c].0, cells[c].1))
  }

  /** Every object has every set attribute the sets name. */
  predicate Related(objects: seq<Item>, sets: seq<IterSet>)
  {
    forall k, s :: 0 <= k < |objects| && 0 <= s < |sets| ==> sets[s].setAttr in objects[k].relatives
  }

  /** The cell writes of all objects, the k-th object (from 0) on row k + 1. */
  function ContentRows(objects: seq<Item>, fields: seq<FieldDef>, sets: seq<IterSet>): seq<SheetCall>
    requires Related(objects, sets)
  {
    if |objects| == 0 then []
    else
      var k := |objects| - 1;
      ContentRows(objects[..k], fields, sets) + RowCalls(k + 1, RowCells(k, objects[k], fields, sets))
  }

  /** The widest row. */
  function MaxWidth(objects: seq<Item>, fields: seq<FieldDef>, sets: seq<IterSet>): nat
    requires Related(objects, sets)
  {
    if |objects| == 0 then 0
    else
      var k := |objects| - 1;
      var rest := MaxWidth(objects[..k], fields, sets);
      var here := |RowCells(k, objects[k], fields, sets)|;
      if here > rest then here else rest
  }

  /** `write_content`'s calls: every object's row, then the autofilter over rows 0..k and the widest row. */
  function ContentCalls(objects: seq<Item>, fields: seq<FieldDef>, sets: seq<IterSet>): seq<SheetCall>
    requires Related(objects, sets)
  {
    ContentRows(objects, fields, sets) + [Autofilter(0, 0, |objects|, MaxWidth(objects, fields, sets) - 1)]
  }

  lemma RowCallsSnoc(row: int, cells: seq<(Source, FieldDef)>, cell: (Source, FieldDef))
    ensures RowCalls(row, cells + [cell]) == RowCalls(row, cells) + [WriteRow(row, |cells|, cell.0, cell.1)]
  {
    var a, b := RowCalls(row, cells + [cell]), RowCalls(row, cells) + [WriteRow(row, |cells|, cell.0, cell.1)];
    assert forall c :: 0 <= c < |cells| ==> (cells + [cell])[c] == cells[c];
    assert forall c :: 0 <= c < |a| ==> a[c] == b[c];
  }

  /** The field loop for one relative: its fields' cells, from column `col` on. */
  method WriteRelativeCells(worksheet: Worksheet, row: int, col: nat, k: nat, rel: IterSet, j: nat,
                            ghost base: seq<SheetCall>, ghost cells: seq<(Source, FieldDef)>)
    returns (col': nat)
    requires col == |cells| && worksheet.calls == base + RowCalls(row, cells)
    modifies worksheet
    ensures col' == |cells + RelativeCells(k, rel, j)|
    ensures worksheet.calls == base + RowCalls(row, cells + RelativeCells(k, rel, j))
  {
    col' := col;
    ghost var written := cells;
    for f := 0 to |rel.fields|
      invariant written == cells + RelativeCells(k, rel, j)[..f]
      invariant col' == |written|
      invariant worksheet.calls == base + RowCalls(row, written)
    {
      var cell := (Relative(k, rel.setAttr, j), rel.fields[f]);
      worksheet.WriteRow(row, col', cell.0, cell.1);
      RowCallsSnoc(row, written, cell);
      assert RelativeCells(k, rel, j)[..f + 1] == RelativeCells(k, rel, j)[..f] + [cell];
      written := written + [cell];
      col' := col' + 1;
    }
    assert RelativeCells(k, rel, j)[..|rel.fields|] == RelativeCells(k, rel, j);
  }

  /** The relative loop for one related set: every relative's cells, from column `col` on. */
  method WriteSetCells(worksheet: Worksheet, row: int, col: nat, k: nat, rel: IterSet, count: nat,
                       ghost base: seq<SheetCall>, ghost cells: seq<(Source, FieldDef)>)
    returns (col': nat)
    requires col == |cells| && worksheet.calls == base + RowCalls(row, cells)
    modifies worksheet
    ensures col' == |cells + RelativesCells(k, rel, count)|
    ensures worksheet.calls == base + RowCalls(row, cells + RelativesCells(k, rel, count))
  {
    col' := col;
    for j := 0 to count
      invariant col' == |cells + RelativesCells(k, rel, j)|
      invariant worksheet.calls == base + RowCalls(row, cells + RelativesCells(k, rel, j))
    {
      col' := WriteRelativeCells(worksheet, row, col', k, rel, j, base, cells + RelativesCells(k, rel, j));
      assert cells + RelativesCells(k, rel, j + 1) == cells + RelativesCells(k, rel, j) + RelativeCells(k, rel, j);
    }
  }

  /** The plain-field loop of one object: its fields' cells from column 0. */
  method WritePlainCells(worksheet: Worksheet, row: int, k: nat, fields: seq<FieldDef>) returns (col: nat)
    modifies worksheet
    ensures col == |fields|
    ensures worksheet.calls == old(worksheet.calls) + RowCalls(row, seq(|fields|, c requires 0 <= c < |fields| => (Object(k), fields[c])))
  {
    col := 0;
    ghost var cells: seq<(Source, FieldDef)> := [];
    ghost var plain := seq(|fields|, c requires 0 <= c < |fields| => (Object(k), fields[c]));
    for c := 0 to |fields|
      invariant cells == plain[..c]
      invariant col == |cells|
      invariant worksheet.calls == old(worksheet.calls) + RowCalls(row, cells)
    {
      worksheet.WriteRow(row, col, Object(k), fields[c]);
      RowCallsSnoc(row, cells, (Object(k), fields[c]));
      assert plain[..c + 1] == plain[..c] + [(Object(k), fields[c])];
      cells := cells + [(Object(k), fields[c])];
      col := col + 1;
    }
    assert plain[..|fields|] == plain;
  }

  /** The loop body of `write_content` for one object: its cells, on its row, from column 0. */
  method WriteObjectRow(worksheet: Worksheet, row: int, k: nat, obj: Item, fields: seq<FieldDef>, sets: seq<IterSet>)
    returns (col: nat)
    requires forall s :: 0 <= s < |sets| ==> sets[s].setAttr in obj.relatives
    modifies worksheet
    ensures worksheet.calls == old(worksheet.calls) + RowCalls(row, RowCells(k, obj, fields, sets))
    ensures col == |RowCells(k, obj, fields, sets)|
  {
    ghost var base := worksheet.calls;
    ghost var plain := seq(|fields|, c requires 0 <= c < |fields| => (Object(k), fields[c]));
    col := WritePlainCells(worksheet, row, k, fields);
    for s := 0 to |sets|
      invariant col == |plain + SetsCells(k, obj, sets[..s])|
      invariant worksheet.calls == base + RowCalls(row, plain + SetsCells(k, obj, sets[..s]))
    {
      var rel := sets[s];
      assert sets[..s + 1][..s] == sets[..s];
      col := WriteSetCells(worksheet, row, col, k, rel, obj.relatives[rel.setAttr], base, plain + SetsCells(k, obj, sets[..s]));
      assert plain + SetsCells(k, obj, sets[..s + 1])
          == plain + SetsCells(k, obj, sets[..s]) + RelativesCells(k, rel, obj.relatives[rel.setAttr]);
    }
    assert sets[..|sets|] == sets;
  }

  /** `write_content`: object k (from 0) on row k + 1, then the autofilter. */
  /** One more object adds its row's calls and may widen the widest row. */
  lemma ContentSnoc(objects: seq<Item>, fields: seq<FieldDef>, sets: seq<IterSet>, k: nat)
    requires Related(objects, sets) && k < |objects|
    ensures Related(objects[..k], sets) && Related(objects[..k + 1], sets)
    ensures ContentRows(objects[..k + 1], fields, sets)
         == ContentRows(objects[..k], fields, sets) + RowCalls(k + 1, RowCells(k, objects[k], fields, sets))
    ensures MaxWidth(objects[..k + 1], fields, sets)
         == var here := |RowCells(k, objects[k], fields, sets)|;
            var rest := MaxWidth(objects[..k], fields, sets);
            if here > rest then here else rest
  {
    assert objects[..k + 1][..k] == objects[..k];
  }

  /** The object loop of `write_content`; answers the widest row. */
  method WriteRows(worksheet: Worksheet, fields: seq<FieldDef>, sets: seq<IterSet>, objects: seq<Item>)
    returns (maxCol: int)
    requires Related(objects, sets)
    modifies worksheet
    ensures maxCol == MaxWidth(objects, fields, sets)
    ensures worksheet.calls == old(worksheet.calls) + ContentRows(objects, fields, sets)
  {
    var row := 1;
    maxCol := 0;
    for k := 0 to |objects|
      invariant Related(objects[..k], sets)
      invariant row == k + 1
      invariant maxCol == MaxWidth(objects[..k], fields, sets)
      invariant worksheet.calls == old(worksheet.calls) + ContentRows(objects[..k], fields, sets)
    {
      ContentSnoc(objects, fields, sets, k);
      var col := WriteObjectRow(worksheet, row, k, objects[k], fields, sets);
      maxCol := if col > maxCol then col else maxCol;
      row := row + 1;
    }
    assert objects[..|objects|] == objects;
  }

  method WriteContent(worksheet: Worksheet, fields: seq<FieldDef>, sets: seq<IterSet>, objects: seq<Item>)
    requires Related(objects, sets)
    modifies worksheet
    ensures worksheet.calls == old(worksheet.calls) + ContentCalls(objects, fields, sets)
  {
    var maxCol := WriteRows(worksheet, fields, sets, objects);
    worksheet.Autofilter(0, 0, |objects|, maxCol - 1);
  }

  /** Every cell `write_content` writes is on row k + 1 for the k-th object, below the widest row's end. */
  lemma {:induction false} ContentLayout(objects: seq<Item>, fields: seq<FieldDef>, sets: seq<IterSet>)
    requires Related(objects, sets)
    ensures forall call :: call in ContentRows(objects, fields, sets) ==>
      && call.WriteRow?
      && 1 <= call.row <= |objects|
      && call.source.index == call.row - 1
      && 0 <= call.col < MaxWidth(objects, fields, sets)
    decreases |objects|
  {
    if |objects| > 0 {
      var k := |objects| - 1;
      assert Related(objects[..k], sets);
      ContentLayout(objects[..k], fields, sets);
      var cells := RowCells(k, objects[k], fields, sets);
      forall c | 0 <= c < |cells| ensures cells[c].0.index == k {
        RowCellsSource(k, objects[k], fields, sets, c);
      }
    }
  }

  /** Every cell of the k-th object's row belongs to that object. */
  lemma RowCellsSource(k: nat, obj: Item, fields: seq<FieldDef>, sets: seq<IterSet>, c: nat)
    requires forall s :: 0 <= s < |sets| ==> sets[s].setAttr in obj.relatives
    requires c < |RowCells(k, obj, fields, sets)|
    ensures RowCells(k, obj, fields, sets)[c].0.index == k
  {
    if c >= |fields| {
      SetsCellsSource(k, obj, sets, c - |fields|);
    }
  }

  lemma {:induction false} SetsCellsSource(k: nat, obj: Item, sets: seq<IterSet>, c: nat)
    requires forall s :: 0 <= s < |sets| ==> sets[s].setAttr in obj.relatives
    requires c < |SetsCells(k, obj, sets)|
    ensures SetsCells(k, obj, sets)[c].0.index == k
    decreases |sets|
  {
    var init, last := sets[..|sets| - 1], sets[|sets| - 1];
    var front := SetsCells(k, obj, init);
    if c < |front| {
      SetsCellsSource(k, obj, init, c);
    } else {
      RelativesCellsSource(k, last, obj.relatives[last.setAttr], c - |front|);
    }
  }

  lemma {:induction false} RelativesCellsSource(k: nat, rel: IterSet, n: nat, c: nat)
    requires c < |RelativesCells(k, rel, n)|
    ensures RelativesCells(k, rel, n)[c].0.index == k
    decreases n
  {
    var front := RelativesCells(k, rel, n - 1);
    if c < |front| {
      RelativesCellsSource(k, rel, n - 1, c);
    }
  }

  /** The number of related-set cells in an object's row: per set, its relatives times the set's fields. */
  function RelativesWidth(obj: Item, sets: seq<IterSet>): nat
    requires forall s :: 0 <= s < |sets| ==> sets[s].setAttr in obj.relatives
  {
    if |sets| == 0 then 0
    else
      var last := sets[|sets| - 1];
      RelativesWidth(obj, sets[..|sets| - 1]) + obj.relatives[last.setAttr] * |last.fields|
  }

  lemma {:induction false} RelativesCellsLength(k: nat, rel: IterSet, n: nat)
    ensures |RelativesCells(k, rel, n)| == n * |rel.fields|
    decreases n
  {
    if n > 0 {
      RelativesCellsLength(k, rel, n - 1);
      assert n * |rel.fields| == (n - 1) * |rel.fields| + |rel.fields|;
    }
  }

  /** An object's row has one cell per plain field and, per set, its relatives times the set's fields. */
  lemma {:induction false} RowCellsLength(k: nat, obj: Item, fields: seq<FieldDef>, sets: seq<IterSet>)
    requires forall s :: 0 <= s < |sets| ==> sets[s].setAttr in obj.relatives
    ensures |SetsCells(k, obj, sets)| == RelativesWidth(obj, sets)
    ensures |RowCells(k, obj, fields, sets)| == |fields| + RelativesWidth(obj, sets)
    decreases |sets|
  {
    if |sets| > 0 {
      var last := sets[|sets| - 1];
      RowCellsLength(k, obj, fields, sets[..|sets| - 1]);
      RelativesCellsLength(k, last, obj.relatives[last.setAttr]);
    }
  }

  lemma MulMonotone(a: nat, b: nat, c: nat)
    requires a <= b
    ensures a * c <= b * c
  {
  }

  /** An object with no more relatives per set than the set's iterations has no more set cells than the header has set columns. */
  lemma {:induction false} RelativesWithinIterations(obj: Item, sets: seq<IterSet>)
    requires forall s :: 0 <= s < |sets| ==> sets[s].setAttr in obj.relatives
    requires forall s :: 0 <= s < |sets| ==> obj.relatives[sets[s].setAttr] <= sets[s].iterationNumber
    ensures RelativesWidth(obj, sets) <= IterativeWidth(sets)
    decreases |sets|
  {
    if |sets| > 0 {
      var last := sets[|sets| - 1];
      RelativesWithinIterations(obj, sets[..|sets| - 1]);
      MulMonotone(obj.relatives[last.setAttr], last.iterationNumber, |last.fields|);
    }
  }

  /**
   * With the iteration counts `get_selected_fields` reports (the most
   * relatives of any object), no row of the content is wider than the
   * header: every cell written has a labelled column above it.
   */
  lemma {:induction false} ContentFitsHeader(objects: seq<Item>, fields: seq<FieldDef>, sets: seq<IterSet>, update: HeaderUpdate)
    requires Related(objects, sets)
    requires forall k, s :: 0 <= k < |objects| && 0 <= s < |sets| ==> objects[k].relatives[sets[s].setAttr] <= sets[s].iterationNumber
    ensures MaxWidth(objects, fields, sets) <= |HeaderColumns(fields, sets, update)|
    decreases |objects|
  {
    HeaderWidth(fields, sets, update);
    if |objects| > 0 {
      var k := |objects| - 1;
      assert Related(objects[..k], sets);
      ContentFitsHeader(objects[..k], fields, sets, update);
      RowCellsLength(k, objects[k], fields, sets);
      RelativesWithinIterations(objects[k], sets);
    }
  }

  // ---------------------------------------------------------------------
  // write_data
  // ---------------------------------------------------------------------

  /**
   * `write_data`: nothing for an empty queryset; otherwise the selected
   * fields' header and then the content.
   */
  method WriteData(worksheet: Worksheet, groups: FieldGroups, selected: Option<seq<string>>,
                   iterative: Option<seq<IterativeSource>>, objects: seq<Item>, update: HeaderUpdate)
    returns (r: Outcome)
    requires iterative.Some? ==> HasRelations(objects, iterative.value)
    modifies worksheet
    ensures objects == [] ==> r == Pass && worksheet.calls == old(worksheet.calls)
    ensures r.Fail? ==> r.error == AttributeError && worksheet.calls == old(worksheet.calls)
    ensures objects != [] ==>
      (r.Fail? <==> iterative.Some? && exists s :: 0 <= s < |iterative.value| && MaxRelatives(objects, iterative.value[s].setAttr) == 0)
    ensures r.Pass? && objects != [] ==>
      var fields := SelectedFields(groups, selected);
      var sets := if iterative.None? then [] else SelectedSets(iterative.value, selected, objects);
      worksheet.calls == old(worksheet.calls) + HeaderCalls(HeaderColumns(fields, sets, update)) + ContentCalls(objects, fields, sets)
  {
    if objects == [] {
      return Pass;
    }
    var selection := GetSelectedFields(groups, selected, iterative, objects);
    if selection.Err? {
      return Fail(selection.error);
    }
    var fields, sets := selection.value.0, selection.value.1;
    WriteHeader(worksheet, fields, sets, update);
    WriteContent(worksheet, fields, sets, objects);
    return Pass;
  }

  // ---------------------------------------------------------------------
  // write_row: the attribute with an optional "[key]" suffix
  // ---------------------------------------------------------------------

  /**
   * The attribute part of `write_row`: "name[key]" reads `key` from the
   * dict at `name`. Both brackets are taken at their last occurrence; the
   * key is empty when "]" comes before "[".
   */
  function ParseAttribute(attr: string): (r: (string, Option<string>))
    ensures ('[' !in attr || ']' !in attr) ==> r == (attr, None)
    ensures '[' in attr && ']' in attr ==> r.1.Some? && r.0 + "[" <= attr && '[' !in attr[|r.0| + 1..]
  {
    if '[' in attr && ']' in attr then
      var start := LastIndex(attr, '[');
      var end := LastIndex(attr, ']');
      assert attr[..start] + "[" == attr[..start + 1];
      (attr[..start], Some(if start + 1 <= end then attr[start + 1..end] else ""))
    else (attr, None)
  }

  /** "name[key]" parses back to name and key. */
  lemma ParseAttributeInverse(name: string, key: string)
    requires '[' !in key && ']' !in key
    ensures ParseAttribute(name + "[" + key + "]") == (name, Some(key))
  {
    var attr := name + "[" + key + "]";
    assert attr[|name|] == '[' && attr[|attr| - 1] == ']';
    var start := LastIndex(attr, '[');
    var end := LastIndex(attr, ']');
    assert end == |attr| - 1;
    assert attr[|name| + 1..] == key + "]";
    assert forall j :: |name| < j < |attr| ==> attr[j] == attr[|name| + 1..][j - |name| - 1];
    assert start <= |name|;
    assert attr[..start] == name;
    assert attr[start + 1..end] == key;
  }
}
