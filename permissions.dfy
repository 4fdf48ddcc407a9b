/**
 * The export-field permission algebra of `ExportFieldsPermissionsMixin`
 * (outputs/mixins.py) and the permitted-fields lookup used by the
 * field-selection view (`SelectExportMixin`).
 *
 * A permission grants, per exporter key "app.Model.Format", a list of field
 * attributes. Users and groups each store one such map, as a dict or as a
 * JSON string.
 */
module ExportPermissions {
  import opened Common

  /** Exporter key ("app.Model.Format") to permitted field attributes. */
  type PermissionMap = map<string, seq<string>>

  /**
   * A Python value as these helpers see it. `TextV(parsed)` is a non-empty
   * `str` whose `json.loads` gives `parsed`, or raises ValueError when
   * `parsed` is None (the text is not JSON); `EmptyTextV` is the empty
   * `str`, which is falsy and not JSON. `OtherV(truthy)` is any other value
   * (a number, a bool, ...) with its Python truthiness. Parsing itself is not
   * modelled.
   */
  datatype Value =
    | DictV(perm: PermissionMap)
    | TextV(parsed: Option<Value>)
    | EmptyTextV
    | ListV(items: seq<Value>)
    | TupleV(items: seq<Value>)
    | QuerySetV(items: seq<Value>)
    | NoneV
    | OtherV(truthy: bool)

  /** `isinstance(v, (list, tuple, QuerySet))`. */
  predicate IsSequence(v: Value)
  {
    v.ListV? || v.TupleV? || v.QuerySetV?
  }

  /** `isinstance(v, str)`. */
  predicate IsText(v: Value)
  {
    v.TextV? || v.EmptyTextV?
  }

  /** A string that `json.loads` rejects with ValueError. */
  predicate NotJson(v: Value)
  {
    v == EmptyTextV || v == TextV(None)
  }

  /** Python truthiness of a stored permission value. */
  predicate Truthy(v: Value)
  {
    match v
    case DictV(p) => p != map[]
    case TextV(_) => true
    case EmptyTextV => false
    case ListV(items) => items != []
    case TupleV(items) => items != []
    case QuerySetV(items) => items != []
    case NoneV => false
    case OtherV(truthy) => truthy
  }

  /** `json.loads(v)`: only a string can be parsed. */
  function JsonLoads(v: Value): (r: Result<Value>)
    ensures r.Ok? <==> v.TextV? && v.parsed.Some?
    ensures r.Err? ==> (r.error == ValueError <==> NotJson(v))
  {
    match v
    case TextV(Some(x)) => Ok(x)
    case TextV(None) => Err(ValueError)
    case EmptyTextV => Err(ValueError)
    case _ => Err(TypeError)
  }

  /**
   * The ways a stored value denotes the permission map `p`: the dict
   * itself, a JSON text of it, or a JSON text of that text (values read
   * back from a queryset are encoded twice).
   */
  ghost predicate Encodes(v: Value, p: PermissionMap)
  {
    v == DictV(p) || v == TextV(Some(DictV(p))) || v == TextV(Some(TextV(Some(DictV(p)))))
  }

  /** One pass of the loop body of `load_export_fields_permissions`. */
  function LoadOne(v: Value): (r: Result<PermissionMap>)
    ensures r.Ok? ==> Encodes(v, r.value)
    ensures forall p :: Encodes(v, p) ==> r == Ok(p)
    ensures r.Err? ==> r.error == TypeError || r.error == ValueError
    ensures r == Err(ValueError) <==> NotJson(v) || (v.TextV? && v.parsed.Some? && NotJson(v.parsed.value))
  {
    var once := if v.DictV? then Ok(v) else JsonLoads(v);
    if once.Err? then Err(once.error)
    else
      var twice := if IsText(once.value) then JsonLoads(once.value) else once;
      if twice.Err? then Err(twice.error)
      else if twice.value.DictV? then Ok(twice.value.perm)
      else Err(TypeError)
  }

  /** The elements the loop visits: a single string is wrapped in a tuple. */
  function Elements(permissions: Value): seq<Value>
    requires IsText(permissions) || IsSequence(permissions)
  {
    if IsText(permissions) then [permissions] else permissions.items
  }

  /**
   * `load_export_fields_permissions`: a string, list, tuple or queryset of
   * stored permissions becomes a list of permission maps, one per element.
   */
  method Load(permissions: Value) returns (r: Result<seq<PermissionMap>>)
    ensures permissions.DictV? ==> r == Err(TypeError)
    ensures !IsText(permissions) && !IsSequence(permissions) ==> r == Err(TypeError)
    ensures IsText(permissions) && r.Ok? ==> |r.value| == 1
    ensures IsText(permissions) || IsSequence(permissions) ==>
      var items := Elements(permissions);
      && (r.Ok? <==> forall i :: 0 <= i < |items| ==> LoadOne(items[i]).Ok?)
      && (r.Ok? ==> |r.value| == |items| && forall i :: 0 <= i < |items| ==> Encodes(items[i], r.value[i]))
      && (r.Err? ==> exists i :: 0 <= i < |items| && LoadOne(items[i]) == Err(r.error)
                               && forall j :: 0 <= j < i ==> LoadOne(items[j]).Ok?)
  {
    if !IsText(permissions) && !IsSequence(permissions) {
      return Err(TypeError);
    }
    var items := Elements(permissions);
    var loaded: seq<PermissionMap> := [];
    var i := 0;
    while i < |items|
      invariant 0 <= i <= |items|
      invariant |loaded| == i
      invariant forall j :: 0 <= j < i ==> LoadOne(items[j]) == Ok(loaded[j])
    {
      var one := LoadOne(items[i]);
      if one.Err? {
        return Err(one.error);
      }
      loaded := loaded + [one.value];
      i := i + 1;
    }
    return Ok(loaded);
  }

  // ---------------------------------------------------------------------
  // combine_export_fields_permissions
  // ---------------------------------------------------------------------

  /** The argument of `combine`: a list, tuple or queryset of maps, or anything else. */
  datatype Container<T> = ListOf(items: seq<T>) | TupleOf(items: seq<T>) | QuerySetOf(items: seq<T>) | NotASequence

  /** `acc` after the inner loop has merged the keys `ks` of `p` into it. */
  function MergeInto(acc: map<string, set<string>>, p: PermissionMap, ks: set<string>): map<string, set<string>>
    requires ks <= p.Keys
  {
    map k | k in acc.Keys + ks :: (if k in acc then acc[k] else {}) + (if k in ks then Elems(p[k]) else {})
  }

  /** Merging no keys leaves the accumulator as it is. */
  lemma MergeNothing(acc: map<string, set<string>>, p: PermissionMap)
    ensures MergeInto(acc, p, {}) == acc
  {
    var m := MergeInto(acc, p, {});
    assert m.Keys == acc.Keys;
    forall k | k in acc ensures m[k] == acc[k] {
    }
  }

  /** Merging one more key updates just that key's set. */
  lemma MergeStep(acc: map<string, set<string>>, p: PermissionMap, done: set<string>, x: string)
    requires done <= p.Keys && x in p && x !in done
    ensures var m := MergeInto(acc, p, done);
      MergeInto(acc, p, done + {x}) == m[x := (if x in m then m[x] else {}) + Elems(p[x])]
  {
    var m := MergeInto(acc, p, done);
    var m' := MergeInto(acc, p, done + {x});
    var u := m[x := (if x in m then m[x] else {}) + Elems(p[x])];
    assert m'.Keys == u.Keys;
    forall k | k in u ensures m'[k] == u[k] {
    }
  }

  /** The per-key field sets after the outer loop has visited all of `ps`. */
  function UnionOf(ps: seq<PermissionMap>): map<string, set<string>>
  {
    if |ps| == 0 then map[]
    else
      var last := ps[|ps| - 1];
      MergeInto(UnionOf(ps[..|ps| - 1]), last, last.Keys)
  }

  /** The union has exactly the keys of the inputs, and per key the union of their fields. */
  lemma {:induction false} UnionOfCharacterised(ps: seq<PermissionMap>, k: string, f: string)
    ensures k in UnionOf(ps) <==> exists i :: 0 <= i < |ps| && k in ps[i]
    ensures k in UnionOf(ps) ==>
      (f in UnionOf(ps)[k] <==> exists i :: 0 <= i < |ps| && k in ps[i] && f in ps[i][k])
    decreases |ps|
  {
    if |ps| > 0 {
      var init, last := ps[..|ps| - 1], ps[|ps| - 1];
      UnionOfCharacterised(init, k, f);
      if k in UnionOf(ps) && f in UnionOf(ps)[k] {
        if !(k in UnionOf(init) && f in UnionOf(init)[k]) {
          assert k in last && f in last[k];
        }
      }
      assert forall i :: 0 <= i < |init| ==> init[i] == ps[i];
    }
  }

  /**
   * `combine_export_fields_permissions`: one map is returned as it is;
   * otherwise the keys are those of any input and each key's fields are
   * the union of that key's fields across the inputs, without repeats
   * (their order is that of a Python set, which the model leaves open).
   */
  method Combine(permissions: Container<PermissionMap>) returns (r: Result<PermissionMap>)
    ensures permissions.NotASequence? ==> r == Err(TypeError)
    ensures !permissions.NotASequence? && |permissions.items| == 1 ==> r == Ok(permissions.items[0])
    ensures !permissions.NotASequence? && |permissions.items| != 1 ==>
      var ps := permissions.items;
      && r.Ok?
      && (forall k :: k in r.value <==> exists i :: 0 <= i < |ps| && k in ps[i])
      && (forall k, f :: k in r.value ==>
            (f in r.value[k] <==> exists i :: 0 <= i < |ps| && k in ps[i] && f in ps[i][k]))
      && (forall k :: k in r.value ==> NoDup(r.value[k]))
  {
    if permissions.NotASequence? {
      return Err(TypeError);
    }
    var ps := permissions.items;
    if |ps| == 1 {
      return Ok(ps[0]);
    }
    var result := UniteFieldSets(ps);
    var listed := ListValues(result);
    forall k | true
      ensures k in listed <==> exists i :: 0 <= i < |ps| && k in ps[i]
    {
      UnionOfCharacterised(ps, k, "");
    }
    forall k, f | k in listed
      ensures f in listed[k] <==> exists i :: 0 <= i < |ps| && k in ps[i] && f in ps[i][k]
    {
      UnionOfCharacterised(ps, k, f);
    }
    return Ok(listed);
  }

  /** The two nested loops of `combine`: every key's fields of every map are added to its set. */
  method UniteFieldSets(ps: seq<PermissionMap>) returns (result: map<string, set<string>>)
    ensures result == UnionOf(ps)
  {
    result := map[];
    var i := 0;
    while i < |ps|
      invariant 0 <= i <= |ps|
      invariant result == UnionOf(ps[..i])
    {
      result := MergeKeys(result, ps[i]);
      assert ps[..i + 1][..i] == ps[..i];
      i := i + 1;
    }
    assert ps[..|ps|] == ps;
  }

  /** The inner loop of `combine`: the fields of each key of `p` are added to that key's set. */
  method MergeKeys(acc: map<string, set<string>>, p: PermissionMap) returns (result: map<string, set<string>>)
    ensures result == MergeInto(acc, p, p.Keys)
  {
    result := acc;
    var todo := p.Keys;
    ghost var done: set<string> := {};
    MergeNothing(acc, p);
    while todo != {}
      invariant done !! todo && done + todo == p.Keys
      invariant result == MergeInto(acc, p, done)
      decreases todo
    {
      var exporter :| exporter in todo;
      MergeStep(acc, p, done, exporter);
      var before := if exporter in result then result[exporter] else {};
      result := result[exporter := before + Elems(p[exporter])];
      done := done + {exporter};
      todo := todo - {exporter};
    }
  }

  /** The last loop of `combine`: each set becomes a list. */
  method ListValues(sets: map<string, set<string>>) returns (listed: PermissionMap)
    ensures listed.Keys == sets.Keys
    ensures forall k :: k in listed ==> Elems(listed[k]) == sets[k] && NoDup(listed[k])
  {
    listed := map[];
    var pending := sets.Keys;
    while pending != {}
      invariant pending <= sets.Keys
      invariant listed.Keys == sets.Keys - pending
      invariant forall k :: k in listed ==> Elems(listed[k]) == sets[k] && NoDup(listed[k])
      decreases pending
    {
      var key :| key in pending;
      var fields := SetToList(sets[key]);
      listed := listed[key := fields];
      pending := pending - {key};
    }
  }

  /** `list(s)`: the elements of a set, once each, in an order the model leaves open. */
  method SetToList(s: set<string>) returns (l: seq<string>)
    ensures Elems(l) == s
    ensures NoDup(l)
  {
    l := [];
    var rest := s;
    while rest != {}
      invariant rest <= s
      invariant Elems(l) == s - rest
      invariant NoDup(l)
      decreases rest
    {
      var x :| x in rest;
      assert Elems(l + [x]) == Elems(l) + {x};
      l := l + [x];
      rest := rest - {x};
    }
  }

  // ---------------------------------------------------------------------
  // substract_export_fields_permissions
  // ---------------------------------------------------------------------

  /** What `first - second` promises for one exporter key of `first`. */
  ghost predicate SubtractedAt(first: PermissionMap, second: PermissionMap, r: PermissionMap, k: string)
    requires k in first
  {
    if k !in second then k in r && r[k] == first[k]
    else if Elems(first[k]) <= Elems(second[k]) then k !in r
    else k in r && Elems(r[k]) == Elems(first[k]) - Elems(second[k]) && NoDup(r[k])
  }

  /** `r` is `first - second`: a key is dropped when its fields are all covered by `second`. */
  ghost predicate Subtracted(first: PermissionMap, second: PermissionMap, r: PermissionMap)
  {
    && r.Keys <= first.Keys
    && forall k :: k in first ==> SubtractedAt(first, second, r, k)
  }

  /** `substract_export_fields_permissions(first, second)`. */
  method Subtract(first: Value, second: Value) returns (r: Result<PermissionMap>)
    ensures !first.DictV? || !second.DictV? ==> r == Err(TypeError)
    ensures first.DictV? && second.DictV? ==> r.Ok? && Subtracted(first.perm, second.perm, r.value)
  {
    if !first.DictV? || !second.DictV? {
      return Err(TypeError);
    }
    var a, b := first.perm, second.perm;
    var result := a;
    var todo := a.Keys;
    while todo != {}
      invariant todo <= a.Keys
      invariant result.Keys <= a.Keys
      invariant forall k :: k in todo ==> k in result && result[k] == a[k]
      invariant forall k :: k in a && k !in todo ==> SubtractedAt(a, b, result, k)
      decreases todo
    {
      var exporter :| exporter in todo;
      if exporter in b {
        if Elems(a[exporter]) <= Elems(b[exporter]) {
          result := map k | k in result && k != exporter :: result[k];
        } else {
          var rest := SetToList(Elems(a[exporter]) - Elems(b[exporter]));
          result := result[exporter := rest];
        }
      }
      todo := todo - {exporter};
    }
    return Ok(result);
  }

  /** Whatever the subtraction removed is covered by `second`: combining the two restores `first`'s fields. */
  lemma SubtractThenCombineCovers(first: PermissionMap, second: PermissionMap, r: PermissionMap, k: string, f: string)
    requires Subtracted(first, second, r)
    requires k in first && f in first[k]
    ensures k in UnionOf([r, second]) && f in UnionOf([r, second])[k]
  {
    assert SubtractedAt(first, second, r, k);
    UnionOfCharacterised([r, second], k, f);
    if k in r && f in r[k] {
      assert [r, second][0] == r;
    } else {
      assert [r, second][1] == second;
    }
  }

  /** What remains of a key after subtraction shares no field with `second`. */
  lemma SubtractedDisjoint(first: PermissionMap, second: PermissionMap, r: PermissionMap, k: string)
    requires Subtracted(first, second, r)
    requires k in r && k in second
    ensures Elems(r[k]) !! Elems(second[k])
  {
    assert SubtractedAt(first, second, r, k);
  }

  // ---------------------------------------------------------------------
  // SelectExportMixin.get_permitted_fields and get_form_kwargs
  // ---------------------------------------------------------------------

  /** The exporter key of a model and format: `'.'.join([app, model, format])`. */
  function ExporterKey(app: string, model: string, format: string): string
  {
    app + "." + model + "." + format
  }

  /** An exporter key splits back into its app, model and format. */
  lemma ExporterKeySplits(app: string, model: string, format: string)
    requires '.' !in app && '.' !in model && '.' !in format
    ensures Split(ExporterKey(app, model, format), '.') == [app, model, format]
  {
    var parts := [app, model, format];
    assert parts[1..][1..] == [format];
    assert Join(parts[1..], '.') == model + "." + format;
    assert Join(parts, '.') == app + "." + (model + "." + format);
    assert ExporterKey(app, model, format) == app + "." + (model + "." + format);
    SplitJoin(parts, '.');
  }

  /** The `permitted_fields` handed to the field-choice form: True or a list. */
  datatype Permitted = AllFields | Only(fields: seq<string>)

  /** The stored permissions that `get_permitted_fields` collects: the user's own (when truthy), then the groups'. */
  function Collected(userPermissions: Value, groupPermissions: seq<Value>): seq<Value>
  {
    (if Truthy(userPermissions) then [userPermissions] else []) + groupPermissions
  }

  /** A falsy user value (None, "", {}, [], 0, False) is skipped: only the groups' values are collected. */
  lemma FalsyUserSkipped(userPermissions: Value, groupPermissions: seq<Value>)
    requires !Truthy(userPermissions)
    ensures Collected(userPermissions, groupPermissions) == groupPermissions
  {
  }

  /** A truthy user value is collected first, ahead of the groups' values. */
  lemma TruthyUserFirst(userPermissions: Value, groupPermissions: seq<Value>)
    requires Truthy(userPermissions)
    ensures Collected(userPermissions, groupPermissions) == [userPermissions] + groupPermissions
  {
  }

  /**
   * The permitted list for `key` in the combination of `maps` (one map is
   * used as it is; several are united, so only the field set is fixed).
   */
  ghost predicate PermittedFor(maps: seq<PermissionMap>, key: string, fields: seq<string>)
  {
    if |maps| == 1 then fields == (if key in maps[0] then maps[0][key] else [])
    else
      && NoDup(fields)
      && forall f :: f in fields <==> exists i :: 0 <= i < |maps| && key in maps[i] && f in maps[i][key]
  }

  /** Nothing is permitted by the combination of `maps`. */
  ghost predicate NoneGranted(maps: seq<PermissionMap>)
  {
    if |maps| == 1 then maps[0] == map[] else forall i :: 0 <= i < |maps| ==> maps[i] == map[]
  }

  /** Every collected value loads. */
  ghost predicate AllLoad(raw: seq<Value>)
  {
    forall i :: 0 <= i < |raw| ==> LoadOne(raw[i]).Ok?
  }

  /** The permission maps the collected values load to. */
  ghost function LoadedMaps(raw: seq<Value>): seq<PermissionMap>
    requires AllLoad(raw)
  {
    seq(|raw|, i requires 0 <= i < |raw| => LoadOne(raw[i]).value)
  }

  /**
   * The outcome of the lookup once the maps are loaded: [] when nothing is
   * granted at all, ValueError for a model label that is not "app.Model",
   * otherwise the fields granted under "app.Model." + format.capitalize().
   */
  ghost predicate Granted(maps: seq<PermissionMap>, modelLabel: string, exportFormat: string, r: Result<seq<string>>)
  {
    var parts := Split(modelLabel, '.');
    if NoneGranted(maps) then r == Ok([])
    else if |parts| != 2 then r == Err(ValueError)
    else r.Ok? && PermittedFor(maps, ExporterKey(parts[0], parts[1], Capitalize(exportFormat)), r.value)
  }

  /**
   * `get_permitted_fields`: the fields the user's and groups' permissions
   * grant for the exporter of `modelLabel` ("app.Model") in
   * `exportFormat`, looked up under "app.Model." + format.capitalize();
   * [] when the exporter has no selectable fields, nothing is granted, or
   * the key is missing.
   */
  method PermittedFields(hasSelectableFields: bool, userPermissions: Value, groupPermissions: seq<Value>,
                         modelLabel: string, exportFormat: string)
    returns (r: Result<seq<string>>)
    ensures !hasSelectableFields ==> r == Ok([])
    ensures hasSelectableFields && !AllLoad(Collected(userPermissions, groupPermissions)) ==>
      var raw := Collected(userPermissions, groupPermissions);
      r.Err? && exists i :: 0 <= i < |raw| && LoadOne(raw[i]) == Err(r.error)
    ensures hasSelectableFields && AllLoad(Collected(userPermissions, groupPermissions)) ==>
      Granted(LoadedMaps(Collected(userPermissions, groupPermissions)), modelLabel, exportFormat, r)
  {
    if !hasSelectableFields {
      return Ok([]);
    }
    var raw := Collected(userPermissions, groupPermissions);
    var loaded := Load(ListV(raw));
    if loaded.Err? {
      return Err(loaded.error);
    }
    var maps := loaded.value;
    assert maps == LoadedMaps(raw);
    var combined := Combine(ListOf(maps));
    var permissions := combined.value;
    if permissions == map[] {
      if |maps| != 1 {
        forall i | 0 <= i < |maps| ensures maps[i] == map[] {
          forall k | true ensures k !in maps[i] {
            assert k !in permissions;
          }
          assert maps[i].Keys == {};
        }
      }
      return Ok([]);
    }
    if |maps| != 1 {
      var k :| k in permissions;
      var i :| 0 <= i < |maps| && k in maps[i];
      assert maps[i] != map[];
    }
    var parts := Split(modelLabel, '.');
    if |parts| != 2 {
      return Err(ValueError);
    }
    var exporterKey := ExporterKey(parts[0], parts[1], Capitalize(exportFormat));
    if exporterKey in permissions {
      return Ok(permissions[exporterKey]);
    }
    if |maps| != 1 {
      forall i | 0 <= i < |maps| ensures exporterKey !in maps[i] {
      }
    }
    return Ok([]);
  }

  /**
   * With a falsy user value and one group granting `groups`, the lookup is
   * that group's list for the exporter key: the user value is never loaded.
   */
  lemma FalsyUserGroupOnly(userPermissions: Value, groups: PermissionMap, modelLabel: string, exportFormat: string,
                           r: Result<seq<string>>)
    requires !Truthy(userPermissions) && groups != map[]
    requires |Split(modelLabel, '.')| == 2
    ensures AllLoad(Collected(userPermissions, [DictV(groups)]))
    ensures var parts := Split(modelLabel, '.');
      var key := ExporterKey(parts[0], parts[1], Capitalize(exportFormat));
      (Granted(LoadedMaps(Collected(userPermissions, [DictV(groups)])), modelLabel, exportFormat, r)
       <==> r == Ok(if key in groups then groups[key] else []))
  {
    var raw := Collected(userPermissions, [DictV(groups)]);
    assert raw == [DictV(groups)];
    assert Encodes(DictV(groups), groups);
    assert LoadedMaps(raw) == [groups];
  }

  /**
   * `get_form_kwargs`' `permitted_fields`: True for an active superuser,
   * otherwise the outcome of `get_permitted_fields`, wrapped as a list.
   */
  method FormPermittedFields(isActive: bool, isSuperuser: bool, hasSelectableFields: bool,
                             userPermissions: Value, groupPermissions: seq<Value>,
                             modelLabel: string, exportFormat: string)
    returns (r: Result<Permitted>)
    ensures isActive && isSuperuser ==> r == Ok(AllFields)
    ensures !(isActive && isSuperuser) && r.Ok? ==> r.value.Only?
    ensures !(isActive && isSuperuser) && !hasSelectableFields ==> r == Ok(Only([]))
    ensures !(isActive && isSuperuser) && hasSelectableFields && !AllLoad(Collected(userPermissions, groupPermissions)) ==>
      var raw := Collected(userPermissions, groupPermissions);
      r.Err? && exists i :: 0 <= i < |raw| && LoadOne(raw[i]) == Err(r.error)
    ensures !(isActive && isSuperuser) && hasSelectableFields && AllLoad(Collected(userPermissions, groupPermissions)) ==>
      Granted(LoadedMaps(Collected(userPermissions, groupPermissions)), modelLabel, exportFormat,
              if r.Ok? then Ok(r.value.fields) else Err(r.error))
  {
    if isActive && isSuperuser {
      return Ok(AllFields);
    }
    var fields := PermittedFields(hasSelectableFields, userPermissions, groupPermissions, modelLabel, exportFormat);
    if fields.Err? {
      return Err(fields.error);
    }
    return Ok(Only(fields.value));
  }
}
