/**
 * outputs/forms.py: `ChooseExportFieldsForm`, the form a user picks the
 * exported fields with. It adds one multiple-choice field and one group
 * checkbox per selectable field group, lays the groups out in blocks, and
 * on cleaning drops the helper entries and insists on at least one chosen
 * field.
 */
module ExportForms {
  import opened Common
  import ExportPermissions

  // ---------------------------------------------------------------------
  // Fields
  // ---------------------------------------------------------------------

  /** A choice of a field group: `(attr, label)`, or disabled `(attr, {'label': label, 'disabled': True})`. */
  datatype Choice = Enabled(attr: string, caption: string) | Disabled(attr: string, caption: string)

  /** The fields of the form: the three static ones, then a multiple-choice field and a group checkbox per group. */
  datatype FormField =
    | RecipientsField
    | FileNameField
    | SelectAllField
    | FieldGroupField(choices: seq<Choice>, initial: seq<string>)
    | GroupToggle(caption: string)

  /** The fields the form declares, in declaration order (ConfirmExportForm's, then `select_all`). */
  const STATIC_FIELDS: seq<(string, FormField)> := [("recipients", RecipientsField), ("filename", FileNameField), ("select_all", SelectAllField)]

  const STATIC_NAMES: seq<string> := ["recipients", "filename", "select_all"]

  /** `permitted_fields == True or attr in permitted_fields`. */
  predicate Allowed(permitted: ExportPermissions.Permitted, attr: string)
  {
    permitted.AllFields? || attr in permitted.fields
  }

  function ChoiceFor(permitted: ExportPermissions.Permitted, f: FieldDef): Choice
  {
    if Allowed(permitted, f.attr) then Enabled(f.attr, f.caption) else Disabled(f.attr, f.caption)
  }

  /** The choices of a group, one per field, in order. */
  function GroupChoices(group: seq<FieldDef>, permitted: ExportPermissions.Permitted): seq<Choice>
  {
    if |group| == 0 then [] else GroupChoices(group[..|group| - 1], permitted) + [ChoiceFor(permitted, group[|group| - 1])]
  }

  /** The initial selection of a group: the permitted attributes, in group order. */
  function InitialOf(group: seq<FieldDef>, permitted: ExportPermissions.Permitted): seq<string>
  {
    if |group| == 0 then []
    else InitialOf(group[..|group| - 1], permitted)
         + if Allowed(permitted, group[|group| - 1].attr) then [group[|group| - 1].attr] else []
  }

  function FieldGroupKey(i: nat): string
  {
    "field_group_" + NatToString(i)
  }

  function GroupKey(i: nat): string
  {
    "group_" + NatToString(i)
  }

  /** The two fields `prepare_fields` adds for the i-th group. */
  function GroupPair(i: nat, group: (string, seq<FieldDef>), permitted: ExportPermissions.Permitted): seq<(string, FormField)>
  {
    [(FieldGroupKey(i), FieldGroupField(GroupChoices(group.1, permitted), InitialOf(group.1, permitted))),
     (GroupKey(i), GroupToggle(group.0))]
  }

  /** The fields `prepare_fields` adds, group by group. */
  function GroupFields(groups: FieldGroups, permitted: ExportPermissions.Permitted): seq<(string, FormField)>
  {
    if |groups| == 0 then []
    else GroupFields(groups[..|groups| - 1], permitted) + GroupPair(|groups| - 1, groups[|groups| - 1], permitted)
  }

  /** Each choice keeps its field's attribute and label, and is disabled exactly when the field is not permitted. */
  lemma {:induction false} ChoiceRule(group: seq<FieldDef>, permitted: ExportPermissions.Permitted, j: nat)
    requires j < |group|
    ensures |GroupChoices(group, permitted)| == |group|
    ensures GroupChoices(group, permitted)[j].attr == group[j].attr
    ensures GroupChoices(group, permitted)[j].caption == group[j].caption
    ensures GroupChoices(group, permitted)[j].Disabled? <==> !permitted.AllFields? && group[j].attr !in permitted.fields
    decreases |group|
  {
    var n := |group| - 1;
    ChoicesLength(group[..n], permitted);
    if j < n {
      ChoiceRule(group[..n], permitted, j);
    }
  }

  lemma {:induction false} ChoicesLength(group: seq<FieldDef>, permitted: ExportPermissions.Permitted)
    ensures |GroupChoices(group, permitted)| == |group|
    decreases |group|
  {
    if |group| > 0 {
      ChoicesLength(group[..|group| - 1], permitted);
    }
  }

  /** The initial selection has no more entries than the group has fields. */
  lemma {:induction false} InitialLength(group: seq<FieldDef>, permitted: ExportPermissions.Permitted)
    ensures |InitialOf(group, permitted)| <= |group|
    decreases |group|
  {
    if |group| > 0 {
      InitialLength(group[..|group| - 1], permitted);
    }
  }

  /** An attribute is initially selected exactly when some field of the group has it and it is permitted. */
  lemma {:induction false} InitialMember(group: seq<FieldDef>, permitted: ExportPermissions.Permitted, x: string)
    ensures x in InitialOf(group, permitted) <==> exists j :: 0 <= j < |group| && group[j].attr == x && Allowed(permitted, x)
    decreases |group|
  {
    if |group| > 0 {
      var n := |group| - 1;
      InitialMember(group[..n], permitted, x);
      if x in InitialOf(group[..n], permitted) {
        var j :| 0 <= j < n && group[..n][j].attr == x && Allowed(permitted, x);
        assert group[j].attr == x;
      }
      if exists j :: 0 <= j < |group| && group[j].attr == x && Allowed(permitted, x) {
        var j :| 0 <= j < |group| && group[j].attr == x && Allowed(permitted, x);
        if j < n {
          assert group[..n][j].attr == x;
        }
      }
    }
  }

  /** When every field is permitted, all the group's attributes are initially selected, in order. */
  lemma {:induction false} InitialAll(group: seq<FieldDef>, permitted: ExportPermissions.Permitted)
    requires permitted.AllFields?
    ensures InitialOf(group, permitted) == seq(|group|, j requires 0 <= j < |group| => group[j].attr)
    decreases |group|
  {
    if |group| > 0 {
      var n := |group| - 1;
      InitialAll(group[..n], permitted);
      assert seq(|group|, j requires 0 <= j < |group| => group[j].attr)
          == seq(n, j requires 0 <= j < n => group[..n][j].attr) + [group[n].attr];
    }
  }

  /**
   * The initial selection holds exactly the permitted attributes of the
   * group, no more than the group has, and all of them when every field
   * is permitted.
   */
  lemma InitialRule(group: seq<FieldDef>, permitted: ExportPermissions.Permitted)
    ensures |InitialOf(group, permitted)| <= |group|
    ensures forall x :: x in InitialOf(group, permitted) <==> exists j :: 0 <= j < |group| && group[j].attr == x && Allowed(permitted, x)
    ensures permitted.AllFields? ==> InitialOf(group, permitted) == seq(|group|, j requires 0 <= j < |group| => group[j].attr)
  {
    InitialLength(group, permitted);
    forall x
      ensures x in InitialOf(group, permitted) <==> exists j :: 0 <= j < |group| && group[j].attr == x && Allowed(permitted, x)
    {
      InitialMember(group, permitted, x);
    }
    if permitted.AllFields? {
      InitialAll(group, permitted);
    }
  }

  /** The fields added for the first k groups come first. */
  lemma {:induction false} GroupFieldsPrefix(groups: FieldGroups, permitted: ExportPermissions.Permitted, k: nat)
    requires k <= |groups|
    ensures GroupFields(groups[..k], permitted) <= GroupFields(groups, permitted)
    decreases |groups|
  {
    if k < |groups| {
      var n := |groups| - 1;
      GroupFieldsPrefix(groups[..n], permitted, k);
      assert groups[..n][..k] == groups[..k];
    } else {
      assert groups[..k] == groups;
    }
  }

  /** The i-th group's pair sits at positions 2i and 2i+1. */
  lemma GroupFieldsAt(groups: FieldGroups, permitted: ExportPermissions.Permitted, i: nat)
    requires i < |groups|
    ensures |GroupFields(groups, permitted)| == 2 * |groups|
    ensures GroupFields(groups, permitted)[2 * i] == GroupPair(i, groups[i], permitted)[0]
    ensures GroupFields(groups, permitted)[2 * i + 1] == GroupPair(i, groups[i], permitted)[1]
  {
    GroupFieldsLength(groups, permitted);
    GroupFieldsLength(groups[..i], permitted);
    GroupFieldsPrefix(groups, permitted, i + 1);
    var upto := GroupFields(groups[..i + 1], permitted);
    assert groups[..i + 1][..i] == groups[..i];
    assert upto == GroupFields(groups[..i], permitted) + GroupPair(i, groups[i], permitted);
    assert GroupFields(groups, permitted)[2 * i] == upto[2 * i];
    assert GroupFields(groups, permitted)[2 * i + 1] == upto[2 * i + 1];
  }

  /** The i-th group gets `field_group_i` at position 2i and `group_i` at 2i+1. */
  lemma PreparedFieldsLayout(groups: FieldGroups, permitted: ExportPermissions.Permitted, i: nat)
    requires i < |groups|
    ensures |GroupFields(groups, permitted)| == 2 * |groups|
    ensures GroupFields(groups, permitted)[2 * i] == (FieldGroupKey(i), FieldGroupField(GroupChoices(groups[i].1, permitted), InitialOf(groups[i].1, permitted)))
    ensures GroupFields(groups, permitted)[2 * i + 1] == (GroupKey(i), GroupToggle(groups[i].0))
  {
    GroupFieldsAt(groups, permitted, i);
  }

  lemma {:induction false} GroupFieldsLength(groups: FieldGroups, permitted: ExportPermissions.Permitted)
    ensures |GroupFields(groups, permitted)| == 2 * |groups|
    decreases |groups|
  {
    if |groups| > 0 {
      GroupFieldsLength(groups[..|groups| - 1], permitted);
    }
  }

  /** The keys of the fields added for n groups: `field_group_j` then `group_j`, for j from 0. */
  function AddedKeys(n: nat): seq<string>
  {
    if n == 0 then [] else AddedKeys(n - 1) + [FieldGroupKey(n - 1), GroupKey(n - 1)]
  }

  /** The fields `prepare_fields` adds carry exactly the keys of `AddedKeys`, in order. */
  lemma {:induction false} GroupFieldsKeyList(groups: FieldGroups, permitted: ExportPermissions.Permitted)
    ensures Keys(GroupFields(groups, permitted)) == AddedKeys(|groups|)
    decreases |groups|
  {
    if |groups| > 0 {
      var n := |groups| - 1;
      GroupFieldsKeyList(groups[..n], permitted);
      KeysAppend(GroupFields(groups[..n], permitted), GroupPair(n, groups[n], permitted));
    }
  }

  /** `AddedKeys(n)` holds exactly the two keys of each index below n. */
  lemma {:induction false} AddedKeysMembers(n: nat, k: string)
    ensures k in AddedKeys(n) <==> exists j :: 0 <= j < n && (k == FieldGroupKey(j) || k == GroupKey(j))
  {
    if n > 0 {
      AddedKeysMembers(n - 1, k);
      if exists j :: 0 <= j < n && (k == FieldGroupKey(j) || k == GroupKey(j)) {
        var j :| 0 <= j < n && (k == FieldGroupKey(j) || k == GroupKey(j));
        if j == n - 1 {
          assert k in [FieldGroupKey(n - 1), GroupKey(n - 1)];
        }
      }
    }
  }

  /** The keys `prepare_fields` adds are `field_group_j` and `group_j` for the groups' indices j. */
  lemma GroupFieldsKeys(groups: FieldGroups, permitted: ExportPermissions.Permitted, k: string)
    ensures k in Keys(GroupFields(groups, permitted)) <==> exists j :: 0 <= j < |groups| && (k == FieldGroupKey(j) || k == GroupKey(j))
  {
    GroupFieldsKeyList(groups, permitted);
    AddedKeysMembers(|groups|, k);
  }

  /** Group keys of different indices, and of the two kinds, never collide, nor with static field names. */
  lemma KeysDistinct(i: nat, j: nat)
    ensures FieldGroupKey(i) == FieldGroupKey(j) ==> i == j
    ensures GroupKey(i) == GroupKey(j) ==> i == j
    ensures FieldGroupKey(i) != GroupKey(j)
    ensures FieldGroupKey(i) !in STATIC_NAMES && GroupKey(i) !in STATIC_NAMES
  {
    if FieldGroupKey(i) == FieldGroupKey(j) {
      assert FieldGroupKey(i)[12..] == NatToString(i);
      assert FieldGroupKey(j)[12..] == NatToString(j);
      NatToStringInjective(i, j);
    }
    if GroupKey(i) == GroupKey(j) {
      assert GroupKey(i)[6..] == NatToString(i);
      assert GroupKey(j)[6..] == NatToString(j);
      NatToStringInjective(i, j);
    }
    assert FieldGroupKey(i)[0] == 'f' && GroupKey(j)[0] == 'g';
    assert FieldGroupKey(i)[2] == 'e' && GroupKey(i)[0] == 'g';
  }

  /** A key `prepare_fields` is about to add for group i is not yet among the form's fields. */
  lemma FreshGroupKeys(groups: FieldGroups, permitted: ExportPermissions.Permitted, i: nat)
    requires i == |groups|
    ensures FieldGroupKey(i) !in Keys(STATIC_FIELDS + GroupFields(groups, permitted))
    ensures GroupKey(i) !in Keys(STATIC_FIELDS + GroupFields(groups, permitted) + [(FieldGroupKey(i), FieldGroupField([], []))])
  {
    var fs := GroupFields(groups, permitted);
    KeysAppend(STATIC_FIELDS, fs);
    KeysAppend(STATIC_FIELDS + fs, [(FieldGroupKey(i), FieldGroupField([], []))]);
    assert Keys(STATIC_FIELDS) == STATIC_NAMES;
    KeysDistinct(i, i);
    GroupFieldsKeys(groups, permitted, FieldGroupKey(i));
    GroupFieldsKeys(groups, permitted, GroupKey(i));
    forall j | 0 <= j < |groups|
      ensures FieldGroupKey(i) != FieldGroupKey(j) && FieldGroupKey(i) != GroupKey(j)
      ensures GroupKey(i) != FieldGroupKey(j) && GroupKey(i) != GroupKey(j)
    {
      KeysDistinct(i, j);
      KeysDistinct(j, i);
    }
  }

  /** The form's field names are all different: every field the form declares or adds has its own key. */
  lemma {:induction false} FormKeysUnique(groups: FieldGroups, permitted: ExportPermissions.Permitted)
    ensures UniqueKeys(STATIC_FIELDS + GroupFields(groups, permitted))
    decreases |groups|
  {
    if |groups| > 0 {
      var n := |groups| - 1;
      FormKeysUnique(groups[..n], permitted);
      FreshGroupKeys(groups[..n], permitted, n);
      var before := STATIC_FIELDS + GroupFields(groups[..n], permitted);
      var pair := GroupPair(n, groups[n], permitted);
      var all: seq<(string, FormField)> := before + pair;
      assert STATIC_FIELDS + GroupFields(groups, permitted) == all;
      assert Keys(before + [(FieldGroupKey(n), FieldGroupField([], []))]) == Keys(before) + [FieldGroupKey(n)];
      forall a, b | 0 <= a < b < |all|
        ensures all[a].0 != all[b].0
      {
        if b == |before| {
          assert all[a].0 == Keys(before)[a];
        } else if b == |before| + 1 && a < |before| {
          assert all[a].0 == Keys(before + [(FieldGroupKey(n), FieldGroupField([], []))])[a];
        } else if b == |before| + 1 {
          KeysDistinct(n, n);
        }
      }
    }
  }

  // ---------------------------------------------------------------------
  // Layout
  // ---------------------------------------------------------------------

  /** A group block: its legend and the field it shows. */
  datatype Block = Block(legend: string, field: string)

  /** A row of the layout: named fields side by side, or the group blocks. */
  datatype LayoutRow = FieldsRow(names: seq<string>) | BlocksRow(blocks: seq<Block>)

  predicate StartsWith(s: string, prefix: string)
  {
    |prefix| <= |s| && s[..|prefix|] == prefix
  }

  /** The characters `field_key.strip('field_')` removes from both ends. */
  const FIELD_CHARS: set<char> := {'f', 'i', 'e', 'l', 'd', '_'}

  /** The blocks `build_layouts` emits: one per non-static field whose key starts with "field". */
  function Blocks(fields: seq<(string, FormField)>, staticFields: seq<string>): seq<Block>
  {
    if |fields| == 0 then []
    else
      var key := fields[|fields| - 1].0;
      Blocks(fields[..|fields| - 1], staticFields)
      + if StartsWith(key, "field") && key !in staticFields then [Block(Strip(key, FIELD_CHARS), key)] else []
  }

  /** The whole layout: recipients and filename, the select-all row when there are blocks, then the blocks. */
  function Layouts(fields: seq<(string, FormField)>, staticFields: seq<string>): seq<LayoutRow>
  {
    var blocks := Blocks(fields, staticFields);
    [FieldsRow(["recipients", "filename"])] + (if |blocks| > 0 then [FieldsRow(["select_all"])] else []) + [BlocksRow(blocks)]
  }

  /** The blocks of n groups: `group_i` showing `field_group_i`, in order. */
  function GroupBlocks(n: nat): (bs: seq<Block>)
  {
    if n == 0 then [] else GroupBlocks(n - 1) + [Block(GroupKey(n - 1), FieldGroupKey(n - 1))]
  }

  lemma {:induction false} GroupBlocksAt(n: nat, i: nat)
    requires i < n
    ensures |GroupBlocks(n)| == n
    ensures GroupBlocks(n)[i] == Block(GroupKey(i), FieldGroupKey(i))
    decreases n
  {
    GroupBlocksLength(n - 1);
    if i < n - 1 {
      GroupBlocksAt(n - 1, i);
    }
  }

  lemma {:induction false} GroupBlocksLength(n: nat)
    ensures |GroupBlocks(n)| == n
    decreases n
  {
    if n > 0 {
      GroupBlocksLength(n - 1);
    }
  }

  /** Stripping "field_" characters turns `field_group_i` into `group_i`. */
  lemma StripFieldGroupKey(i: nat)
    ensures Strip(FieldGroupKey(i), FIELD_CHARS) == GroupKey(i)
  {
    var rest := GroupKey(i);
    assert FieldGroupKey(i) == "field_" + rest;
    StripLeadingPrefix("field_", rest, FIELD_CHARS);
    var digits := NatToString(i);
    assert rest[|rest| - 1] == digits[|digits| - 1];
    assert IsDigit(rest[|rest| - 1]);
  }

  lemma BlocksSingle(e: (string, FormField), staticFields: seq<string>)
    ensures Blocks([e], staticFields) == if StartsWith(e.0, "field") && e.0 !in staticFields then [Block(Strip(e.0, FIELD_CHARS), e.0)] else []
  {
    assert [e][..0] == [];
  }

  lemma {:induction false} BlocksAppend(a: seq<(string, FormField)>, b: seq<(string, FormField)>, staticFields: seq<string>)
    ensures Blocks(a + b, staticFields) == Blocks(a, staticFields) + Blocks(b, staticFields)
    decreases |b|
  {
    if |b| == 0 {
      assert a + b == a;
    } else {
      var b' := b[..|b| - 1];
      assert (a + b)[..|a + b| - 1] == a + b';
      BlocksAppend(a, b', staticFields);
    }
  }

  lemma {:induction false} BlocksOfGroups(groups: FieldGroups, permitted: ExportPermissions.Permitted)
    ensures Blocks(GroupFields(groups, permitted), STATIC_NAMES) == GroupBlocks(|groups|)
    decreases |groups|
  {
    if |groups| > 0 {
      var n := |groups| - 1;
      BlocksOfGroups(groups[..n], permitted);
      var pair := GroupPair(n, groups[n], permitted);
      BlocksAppend(GroupFields(groups[..n], permitted), pair, STATIC_NAMES);
      KeysDistinct(n, n);
      StripFieldGroupKey(n);
      assert StartsWith(FieldGroupKey(n), "field");
      assert !StartsWith(GroupKey(n), "field") by {
        assert GroupKey(n)[0] == 'g';
      }
      assert FieldGroupKey(n)[..5] == "field";
      assert pair == [pair[0]] + [pair[1]];
      BlocksAppend([pair[0]], [pair[1]], STATIC_NAMES);
      BlocksSingle(pair[0], STATIC_NAMES);
      BlocksSingle(pair[1], STATIC_NAMES);
    }
  }

  /**
   * The layout of a prepared form: one block per group, labelled
   * `group_i` and showing `field_group_i`, and the select-all row exactly
   * when there is at least one group.
   */
  lemma FormLayout(groups: FieldGroups, permitted: ExportPermissions.Permitted)
    ensures Layouts(STATIC_FIELDS + GroupFields(groups, permitted), STATIC_NAMES)
            == [FieldsRow(["recipients", "filename"])] + (if |groups| > 0 then [FieldsRow(["select_all"])] else []) + [BlocksRow(GroupBlocks(|groups|))]
  {
    BlocksAppend(STATIC_FIELDS, GroupFields(groups, permitted), STATIC_NAMES);
    BlocksOfGroups(groups, permitted);
    GroupBlocksLength(|groups|);
    StaticBlocks();
    assert Blocks(STATIC_FIELDS + GroupFields(groups, permitted), STATIC_NAMES) == GroupBlocks(|groups|);
  }

  /** The declared fields form no group block. */
  lemma StaticBlocks()
    ensures Blocks(STATIC_FIELDS, STATIC_NAMES) == []
  {
    assert STATIC_FIELDS == [STATIC_FIELDS[0]] + [STATIC_FIELDS[1]] + [STATIC_FIELDS[2]];
    BlocksAppend([STATIC_FIELDS[0]], [STATIC_FIELDS[1]], STATIC_NAMES);
    BlocksAppend([STATIC_FIELDS[0]] + [STATIC_FIELDS[1]], [STATIC_FIELDS[2]], STATIC_NAMES);
    BlocksSingle(STATIC_FIELDS[0], STATIC_NAMES);
    BlocksSingle(STATIC_FIELDS[1], STATIC_NAMES);
    BlocksSingle(STATIC_FIELDS[2], STATIC_NAMES);
  }

  // ---------------------------------------------------------------------
  // Cleaning
  // ---------------------------------------------------------------------

  /** A cleaned value: a list of chosen attributes, a checkbox, a text or a list of users. */
  datatype FormValue = Chosen(attrs: seq<string>) | Flag(on: bool) | Text(s: string) | Users(ids: seq<nat>)

  predicate ValueTruthy(v: FormValue)
  {
    match v
      case Chosen(attrs) => |attrs| > 0
      case Flag(on) => on
      case Text(s) => |s| > 0
      case Users(ids) => |ids| > 0
  }

  /** The message of the validation error `clean` raises. */
  const AT_LEAST_ONE := "Select at least one option"

  lemma KeysAppend<V>(a: seq<(string, V)>, b: seq<(string, V)>)
    ensures Keys(a + b) == Keys(a) + Keys(b)
  {
  }

  /** `d.pop(k)` on a dictionary: the entries with other keys, in order. */
  function WithoutKey(d: seq<(string, FormValue)>, k: string): (r: seq<(string, FormValue)>)
    ensures k !in Keys(r)
    ensures forall x :: x != k ==> (x in Keys(r) <==> x in Keys(d))
  {
    if |d| == 0 then []
    else
      var r := WithoutKey(d[..|d| - 1], k);
      var last: seq<(string, FormValue)> := if d[|d| - 1].0 == k then [] else [d[|d| - 1]];
      assert d == d[..|d| - 1] + [d[|d| - 1]];
      KeysAppend(d[..|d| - 1], [d[|d| - 1]]);
      KeysAppend(r, last);
      r + last
  }

  /** The entries left once every key starting with "group" is popped. */
  function Ungrouped(d: seq<(string, FormValue)>): (r: seq<(string, FormValue)>)
    ensures forall x :: x in Keys(r) <==> x in Keys(d) && !StartsWith(x, "group")
  {
    if |d| == 0 then []
    else
      var r := Ungrouped(d[..|d| - 1]);
      var last: seq<(string, FormValue)> := if StartsWith(d[|d| - 1].0, "group") then [] else [d[|d| - 1]];
      assert d == d[..|d| - 1] + [d[|d| - 1]];
      KeysAppend(d[..|d| - 1], [d[|d| - 1]]);
      KeysAppend(r, last);
      r + last
  }

  /** The values `clean` checks: those of the entries that are neither group checkboxes nor static fields. */
  function ExportValues(d: seq<(string, FormValue)>, staticFields: seq<string>): seq<FormValue>
  {
    if |d| == 0 then []
    else
      var key := d[|d| - 1].0;
      ExportValues(d[..|d| - 1], staticFields) + if !StartsWith(key, "group") && key !in staticFields then [d[|d| - 1].1] else []
  }

  /** `any(values)`. */
  predicate AnyTruthy(values: seq<FormValue>)
  {
    exists i :: 0 <= i < |values| && ValueTruthy(values[i])
  }

  /** `any(values)`, value by value. */
  method AnyChosen(values: seq<FormValue>) returns (b: bool)
    ensures b <==> AnyTruthy(values)
  {
    b := false;
    for j := 0 to |values|
      invariant b <==> exists k :: 0 <= k < j && ValueTruthy(values[k])
    {
      if ValueTruthy(values[j]) {
        b := true;
      }
    }
  }

  /** A field chosen in some group satisfies `clean`'s check: its group's entry is among the checked values. */
  lemma {:induction false} ChosenFieldCounts(d: seq<(string, FormValue)>, staticFields: seq<string>, i: nat)
    requires i < |d| && !StartsWith(d[i].0, "group") && d[i].0 !in staticFields && ValueTruthy(d[i].1)
    ensures AnyTruthy(ExportValues(d, staticFields))
    decreases |d|
  {
    var n := |d| - 1;
    if i < n {
      ChosenFieldCounts(d[..n], staticFields, i);
      var j :| 0 <= j < |ExportValues(d[..n], staticFields)| && ValueTruthy(ExportValues(d[..n], staticFields)[j]);
      assert ExportValues(d, staticFields)[j] == ExportValues(d[..n], staticFields)[j];
    } else {
      var vs := ExportValues(d, staticFields);
      assert vs[|vs| - 1] == d[n].1;
    }
  }

  // ---------------------------------------------------------------------
  // The form
  // ---------------------------------------------------------------------

  class ChooseExportFieldsForm {
    const selectable: FieldGroups
    const permitted: ExportPermissions.Permitted
    const staticFields: seq<string>
    var fields: seq<(string, FormField)>
    var layouts: seq<LayoutRow>

    /** The form for these selectable fields and permitted fields: static fields, then the prepared fields, then the layout. */
    constructor(selectable: FieldGroups, permitted: ExportPermissions.Permitted)
      ensures this.selectable == selectable && this.permitted == permitted
      ensures staticFields == STATIC_NAMES
      ensures fields == STATIC_FIELDS + GroupFields(selectable, permitted)
      ensures layouts == Layouts(fields, staticFields)
    {
      this.selectable := selectable;
      this.permitted := permitted;
      fields := STATIC_FIELDS;
      staticFields := Keys(STATIC_FIELDS);
      layouts := [];
      new;
      assert Keys(STATIC_FIELDS) == STATIC_NAMES;
      PrepareFields();
      BuildLayouts();
    }

    /**
     * `prepare_fields`: for the i-th selectable group, a `field_group_i`
     * multiple-choice field and a `group_i` checkbox labelled with the
     * group's name. Assigning to a key not yet present appends it.
     */
    method PrepareFields()
      requires fields == STATIC_FIELDS
      modifies this
      ensures fields == STATIC_FIELDS + GroupFields(selectable, permitted)
      ensures layouts == old(layouts)
    {
      if |selectable| > 0 {
        var fieldIndex: nat := 0;
        while fieldIndex < |selectable|
          invariant fieldIndex <= |selectable|
          invariant fields == STATIC_FIELDS + GroupFields(selectable[..fieldIndex], permitted)
          invariant layouts == old(layouts)
        {
          AddGroupFields(fieldIndex);
          fieldIndex := fieldIndex + 1;
        }
        assert selectable[..fieldIndex] == selectable;
      }
    }

    /** The body of `prepare_fields`' loop: group i's multiple-choice field, then its checkbox. */
    method AddGroupFields(fieldIndex: nat)
      requires fieldIndex < |selectable|
      requires fields == STATIC_FIELDS + GroupFields(selectable[..fieldIndex], permitted)
      modifies this
      ensures fields == STATIC_FIELDS + GroupFields(selectable[..fieldIndex + 1], permitted)
      ensures layouts == old(layouts)
    {
      var caption := selectable[fieldIndex].0;
      var group := selectable[fieldIndex].1;
      var choices := BuildChoices(group);
      var initial := BuildInitial(group);
      var fieldKey := FieldGroupKey(fieldIndex);
      ghost var before := STATIC_FIELDS + GroupFields(selectable[..fieldIndex], permitted);
      FreshGroupKeys(selectable[..fieldIndex], permitted, fieldIndex);
      fields := Put(fields, fieldKey, FieldGroupField(choices, initial));
      var groupKey := GroupKey(fieldIndex);
      assert Keys(fields) == Keys(before + [(fieldKey, FieldGroupField([], []))]);
      fields := Put(fields, groupKey, GroupToggle(caption));
      assert selectable[..fieldIndex + 1][..fieldIndex] == selectable[..fieldIndex];
      assert fields == before + GroupPair(fieldIndex, selectable[fieldIndex], permitted);
    }

    /** The choices of one group, enabled or disabled by permission. */
    method BuildChoices(group: seq<FieldDef>) returns (choices: seq<Choice>)
      ensures choices == GroupChoices(group, permitted)
    {
      choices := [];
      for j := 0 to |group|
        invariant choices == GroupChoices(group[..j], permitted)
      {
        if permitted.AllFields? || group[j].attr in permitted.fields {
          choices := choices + [Enabled(group[j].attr, group[j].caption)];
        } else {
          choices := choices + [Disabled(group[j].attr, group[j].caption)];
        }
        assert group[..j + 1][..j] == group[..j];
      }
      assert group[..|group|] == group;
    }

    /** The initial selection of one group. */
    method BuildInitial(group: seq<FieldDef>) returns (initial: seq<string>)
      ensures initial == InitialOf(group, permitted)
    {
      initial := [];
      for j := 0 to |group|
        invariant initial == InitialOf(group[..j], permitted)
      {
        if permitted.AllFields? || group[j].attr in permitted.fields {
          initial := initial + [group[j].attr];
        }
        assert group[..j + 1][..j] == group[..j];
      }
      assert group[..|group|] == group;
    }

    /** `build_layouts`: the static rows, the select-all row when there are blocks, then one block per field group. */
    method BuildLayouts()
      modifies this
      ensures layouts == Layouts(fields, staticFields)
      ensures fields == old(fields)
    {
      var staticLayout := [FieldsRow(["recipients", "filename"])];
      var dynamic: seq<Block> := [];
      for i := 0 to |fields|
        invariant dynamic == Blocks(fields[..i], staticFields)
      {
        var key := fields[i].0;
        if StartsWith(key, "field") && key !in staticFields {
          dynamic := dynamic + [Block(Strip(key, FIELD_CHARS), key)];
        }
        assert fields[..i + 1][..i] == fields[..i];
      }
      assert fields[..|fields|] == fields;
      if |dynamic| > 0 {
        staticLayout := staticLayout + [FieldsRow(["select_all"])];
      }
      layouts := staticLayout + [BlocksRow(dynamic)];
    }

    /** The loop of `clean`: pops the "group" entries and collects the values of the other non-static ones. */
    method PopGroups(data: seq<(string, FormValue)>) returns (kept: seq<(string, FormValue)>, exportFields: seq<FormValue>)
      ensures kept == Ungrouped(data)
      ensures exportFields == ExportValues(data, staticFields)
    {
      kept := [];
      exportFields := [];
      for i := 0 to |data|
        invariant kept == Ungrouped(data[..i])
        invariant exportFields == ExportValues(data[..i], staticFields)
      {
        var key := data[i].0;
        if !StartsWith(key, "group") {
          kept := kept + [data[i]];
          if key !in staticFields {
            exportFields := exportFields + [data[i].1];
          }
        }
        assert data[..i + 1][..i] == data[..i];
      }
      assert data[..|data|] == data;
    }

    /**
     * `clean`: `select_all` is popped (KeyError when absent); with
     * selectable fields, every "group" entry is popped and a
     * ValidationError is raised unless some remaining non-static entry is
     * truthy.
     */
    method Clean(cleaned: seq<(string, FormValue)>) returns (r: Result<seq<(string, FormValue)>>)
      ensures "select_all" !in Keys(cleaned) ==> r == Err(KeyError)
      ensures "select_all" in Keys(cleaned) && |selectable| == 0 ==> r == Ok(WithoutKey(cleaned, "select_all"))
      ensures "select_all" in Keys(cleaned) && |selectable| > 0 ==>
        ((r.Err? <==> !AnyTruthy(ExportValues(WithoutKey(cleaned, "select_all"), staticFields)))
         && (r.Err? ==> r.error == ValidationError(AT_LEAST_ONE))
         && (r.Ok? ==> r.value == Ungrouped(WithoutKey(cleaned, "select_all"))))
    {
      if "select_all" !in Keys(cleaned) {
        return Err(KeyError);
      }
      var data := WithoutKey(cleaned, "select_all");
      if |selectable| == 0 {
        return Ok(data);
      }
      var kept, exportFields := PopGroups(data);
      var anyChosen := AnyChosen(exportFields);
      if !anyChosen {
        return Err(ValidationError(AT_LEAST_ONE));
      }
      return Ok(kept);
    }
  }
}
