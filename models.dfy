/**
 * The parts of outputs/models.py with logic of their own: the dotted path
 * of an export's exporter class, the filtering of the exporter's
 * constructor arguments, the labels of the exported fields, the app label
 * of an export, and the scheduler's cron string, routine description and
 * job bookkeeping. The ORM, `import_string`, `inspect.signature` and the
 * RQ scheduler are outside the model: their answers are parameters, and the
 * scheduler's job registry is a small class of its own.
 */
module OutputsModels {
  import opened Common

  // ---------------------------------------------------------------------
  // AbstractExport.get_exporter_class: the exporter's dotted path
  // ---------------------------------------------------------------------

  /** The value `OUTPUTS_EXPORTERS_MODULE_MAPPING` holds for a model label. */
  datatype ModuleEntry =
    | Absent                                        // no entry
    | NoneEntry                                     // an entry that is None
    | Module(path: string)                          // one module for every context
    | ByContext(modules: map<string, Option<string>>)  // a module (or None) per context

  /**
   * The module holding the exporters: the mapped module when it is a
   * non-empty string, the context's entry when the mapping is per context,
   * and otherwise (no entry, None, "" or no module for the context) the
   * model's package with `.exporters` appended.
   */
  function ExporterModule(entry: ModuleEntry, context: string, modelModule: string): (m: string)
    ensures entry.Module? && entry.path != "" ==> m == entry.path
    ensures entry.ByContext? && context in entry.modules && Truthy(entry.modules[context]) ==> m == entry.modules[context].value
    ensures || entry.Absent? || entry.NoneEntry? || (entry.Module? && entry.path == "")
            || (entry.ByContext? && (context !in entry.modules || !Truthy(entry.modules[context])))
            ==> m == DropLast(modelModule, '.') + ".exporters"
  {
    var mapped := match entry
      case Absent => ""
      case NoneEntry => ""
      case Module(path) => path
      case ByContext(modules) => if context in modules && modules[context].Some? then modules[context].value else "";
    if mapped != "" then mapped else DropLast(modelModule, '.') + ".exporters"
  }

  /** The exporter class name: model name, titled format without '_', titled context, "Exporter". */
  function ExporterClassName(modelName: string, format: string, context: string): string
  {
    modelName + Remove(Title(format), '_') + Title(context) + "Exporter"
  }

  /** The dotted path `get_exporter_class` imports. */
  function ExporterPath(entry: ModuleEntry, modelModule: string, modelName: string, context: string, format: string): string
  {
    ExporterModule(entry, context, modelModule) + "." + ExporterClassName(modelName, format, context)
  }

  /** Without a mapping, the exporters of `pkg.models` live in `pkg.exporters`. */
  lemma FallbackModule(package: string, context: string)
    ensures ExporterModule(Absent, context, package + ".models") == package + ".exporters"
  {
    assert package + ".models" == package + ['.'] + "models";
    RSplitConcat(package, '.', "models");
  }

  /**
   * `import_string` splits the path at its last dot: the module is the
   * chosen exporter module, and the class is the built class name, as long
   * as the model name, format and context contain no dot.
   */
  lemma ExporterPathSplits(entry: ModuleEntry, modelModule: string, modelName: string, context: string, format: string)
    requires '.' !in modelName && '.' !in format && '.' !in context
    ensures DropLast(ExporterPath(entry, modelModule, modelName, context, format), '.') == ExporterModule(entry, context, modelModule)
    ensures LastPart(ExporterPath(entry, modelModule, modelName, context, format), '.') == ExporterClassName(modelName, format, context)
  {
    var name := ExporterClassName(modelName, format, context);
    assert '.' !in Title(format) by {
      forall i | 0 <= i < |format| ensures Title(format)[i] != '.' {
        assert format[i] in format;
      }
    }
    assert '.' !in Title(context) by {
      forall i | 0 <= i < |context| ensures Title(context)[i] != '.' {
        assert context[i] in context;
      }
    }
    assert '.' !in Remove(Title(format), '_');
    assert '.' !in "Exporter";
    assert '.' !in name by {
      assert name == modelName + Remove(Title(format), '_') + Title(context) + "Exporter";
    }
    RSplitConcat(ExporterModule(entry, context, modelModule), '.', name);
  }

  // ---------------------------------------------------------------------
  // AbstractExport.exporter: the constructor arguments kept
  // ---------------------------------------------------------------------

  /**
   * The `exporter` property's loop: a parameter the exporter's constructor
   * does not name is dropped, unless the constructor takes `**kwargs`.
   */
  method FilterParams<V>(params: map<string, V>, arguments: set<string>) returns (kept: map<string, V>)
    ensures kept.Keys <= params.Keys
    ensures forall k :: k in kept ==> kept[k] == params[k]
    ensures forall k :: k in params ==> (k in kept <==> k in arguments || "kwargs" in arguments)
  {
    kept := params;
    var keys := params.Keys;
    while keys != {}
      invariant keys <= params.Keys
      invariant kept.Keys <= params.Keys
      invariant forall k :: k in kept ==> kept[k] == params[k]
      invariant forall k :: k in params && k !in keys ==> (k in kept <==> k in arguments || "kwargs" in arguments)
      invariant forall k :: k in keys ==> k in kept
      decreases keys
    {
      var key :| key in keys;
      if key !in arguments && "kwargs" !in arguments {
        kept := kept - {key};
      }
      keys := keys - {key};
    }
  }

  // ---------------------------------------------------------------------
  // AbstractExport.get_fields_labels
  // ---------------------------------------------------------------------

  /**
   * The exporter's selectable fields merged with its iterative sets' groups,
   * as the `update` loop leaves them: None when the exporter has no
   * selectable fields (the update then fails and is skipped).
   */
  function MergedSelectable(selectable: Option<FieldGroups>, iterative: Option<seq<FieldGroups>>): Option<FieldGroups>
  {
    if selectable.None? then None
    else if iterative.None? then selectable
    else Some(UpdateAll(selectable.value, iterative.value))
  }

  /** `d.update(s)` for each s in turn. */
  function UpdateAll(d: FieldGroups, sets: seq<FieldGroups>): FieldGroups
  {
    if |sets| == 0 then d else Update(UpdateAll(d, sets[..|sets| - 1]), sets[|sets| - 1])
  }

  /** The label of the last field declared with attribute `attr`, if any. */
  function LastLabel(fields: seq<FieldDef>, attr: string): Option<string>
  {
    if |fields| == 0 then None
    else if fields[|fields| - 1].attr == attr then Some(fields[|fields| - 1].caption)
    else LastLabel(fields[..|fields| - 1], attr)
  }

  /**
   * No label exactly when no field has the attribute; otherwise the label
   * of a field with that attribute that no later field redefines.
   */
  lemma {:induction false} LastLabelCharacterised(fields: seq<FieldDef>, attr: string)
    ensures LastLabel(fields, attr).None? <==> forall i :: 0 <= i < |fields| ==> fields[i].attr != attr
    ensures LastLabel(fields, attr).Some? ==>
      exists i :: 0 <= i < |fields| && fields[i] == FieldDef(attr, LastLabel(fields, attr).value, fields[i].width)
                  && forall j :: i < j < |fields| ==> fields[j].attr != attr
    decreases |fields|
  {
    if |fields| > 0 {
      var n := |fields| - 1;
      var init := fields[..n];
      if fields[n].attr == attr {
        assert fields[n] == FieldDef(attr, LastLabel(fields, attr).value, fields[n].width);
      } else {
        LastLabelCharacterised(init, attr);
        assert forall i :: 0 <= i < n ==> init[i] == fields[i];
        if LastLabel(fields, attr).Some? {
          var i :| 0 <= i < n && init[i] == FieldDef(attr, LastLabel(init, attr).value, init[i].width)
                   && forall j :: i < j < n ==> init[j].attr != attr;
          assert fields[i] == FieldDef(attr, LastLabel(fields, attr).value, fields[i].width);
        }
      }
    }
  }

  /** The dict the labelling loop builds: attribute to label, the last definition winning. */
  ghost function LabelMap(fields: seq<FieldDef>): map<string, string>
  {
    if |fields| == 0 then map[]
    else LabelMap(fields[..|fields| - 1])[fields[|fields| - 1].attr := fields[|fields| - 1].caption]
  }

  /** Entering one more field sets its attribute's label. */
  lemma LabelMapSnoc(fields: seq<FieldDef>, f: FieldDef)
    ensures LabelMap(fields + [f]) == LabelMap(fields)[f.attr := f.caption]
  {
    assert (fields + [f])[..|fields|] == fields;
  }

  /** The dict holds, for each attribute, the label of its last definition. */
  lemma {:induction false} LabelMapLast(fields: seq<FieldDef>, attr: string)
    ensures attr in LabelMap(fields) <==> LastLabel(fields, attr).Some?
    ensures attr in LabelMap(fields) ==> LabelMap(fields)[attr] == LastLabel(fields, attr).value
    decreases |fields|
  {
    if |fields| > 0 {
      LabelMapLast(fields[..|fields| - 1], attr);
    }
  }

  /** The label `get_fields_labels` reports for one exported field. */
  function FieldLabel(groups: Option<FieldGroups>, field: string): string
  {
    if groups.None? then field
    else match LastLabel(FlattenValues(groups.value), field)
      case Some(caption) => caption
      case None => field
  }

  /** A field declared last with a label is reported with that label, whatever came before. */
  lemma LaterDefinitionWins(groups: FieldGroups, name: string, fields: seq<FieldDef>, f: FieldDef)
    ensures FieldLabel(Some(groups + [(name, fields + [f])]), f.attr) == f.caption
  {
    var d := groups + [(name, fields + [f])];
    assert d[..|d| - 1] == groups;
    var flat := FlattenValues(d);
    assert flat == FlattenValues(groups) + (fields + [f]);
    assert flat[|flat| - 1] == f;
  }

  /** The `update` loop of `get_fields_labels`: each iterative set's groups merged in turn. */
  method MergeIterative(selectable: FieldGroups, sets: seq<FieldGroups>) returns (groups: FieldGroups)
    ensures groups == UpdateAll(selectable, sets)
  {
    groups := selectable;
    for s := 0 to |sets|
      invariant groups == UpdateAll(selectable, sets[..s])
    {
      groups := Update(groups, sets[s]);
      assert sets[..s + 1][..s] == sets[..s];
    }
    assert sets[..|sets|] == sets;
  }

  /** The inner labelling loop: one group's fields entered into the dict. */
  method AddGroupLabels(withLabels: map<string, string>, ghost seen: seq<FieldDef>, group: seq<FieldDef>)
    returns (withLabels': map<string, string>)
    requires withLabels == LabelMap(seen)
    ensures withLabels' == LabelMap(seen + group)
  {
    withLabels' := withLabels;
    assert seen + group[..0] == seen;
    for j := 0 to |group|
      invariant withLabels' == LabelMap(seen + group[..j])
    {
      assert seen + group[..j + 1] == (seen + group[..j]) + [group[j]];
      LabelMapSnoc(seen + group[..j], group[j]);
      withLabels' := withLabels'[group[j].attr := group[j].caption];
    }
    assert group[..|group|] == group;
  }

  /** The outer labelling loop: attribute to label over all groups, the last definition winning. */
  method BuildLabelMap(groups: FieldGroups) returns (withLabels: map<string, string>)
    ensures withLabels == LabelMap(FlattenValues(groups))
  {
    withLabels := map[];
    for g := 0 to |groups|
      invariant withLabels == LabelMap(FlattenValues(groups[..g]))
    {
      withLabels := AddGroupLabels(withLabels, FlattenValues(groups[..g]), groups[g].1);
      assert groups[..g + 1][..g] == groups[..g];
    }
    assert groups[..|groups|] == groups;
  }

  /**
   * `get_fields_labels`: one label per exported field, in order; the
   * label of the field's last definition among the merged groups, or the
   * field name itself when it is not defined. An AttributeError from
   * `selectable_fields()` counts as no fields; the NotImplementedError of
   * an exporter that does not override it is not caught.
   */
  method GetFieldsLabels(selectable: Selectable, iterative: Option<seq<FieldGroups>>, fields: seq<string>)
    returns (r: Result<seq<string>>)
    ensures r.Err? <==> selectable.NotOverridden?
    ensures r.Err? ==> r.error == NotImplementedError
    ensures r.Ok? ==> |r.value| == |fields|
    ensures r.Ok? ==> forall i :: 0 <= i < |fields| ==>
      r.value[i] == FieldLabel(MergedSelectable(if selectable.Declared? then Some(selectable.groups) else None, iterative), fields[i])
  {
    if selectable.NotOverridden? {
      return Err(NotImplementedError);
    }
    var declared := if selectable.Declared? then Some(selectable.groups) else None;
    var merged := declared;
    if declared.Some? && iterative.Some? {
      var groups := MergeIterative(declared.value, iterative.value);
      merged := Some(groups);
    }
    assert merged == MergedSelectable(declared, iterative);
    var withLabels: map<string, string> := map[];
    if merged.Some? {
      withLabels := BuildLabelMap(merged.value);
    }
    var labels := [];
    for i := 0 to |fields|
      invariant |labels| == i
      invariant forall k :: 0 <= k < i ==> labels[k] == FieldLabel(merged, fields[k])
    {
      var field := fields[i];
      if merged.Some? {
        LabelMapLast(FlattenValues(merged.value), field);
      }
      labels := labels + [if field in withLabels then withLabels[field] else field];
    }
    return Ok(labels);
  }

  // ---------------------------------------------------------------------
  // Export.get_app_label
  // ---------------------------------------------------------------------

  const CONTEXT_LIST := "LIST"
  const CONTEXT_STATISTICS := "STATISTICS"
  const CONTEXT_DETAIL := "DETAIL"

  /**
   * The app label of an export: in the list and detail contexts the content
   * type's app label, with `invoicing` read as `billing` and `exports` as
   * `outputs`; in other contexts the second-to-last dotted component of the
   * module the mapping gives for that context.
   */
  function GetAppLabel(context: string, contentTypeAppLabel: string, entry: ModuleEntry): (r: Result<string>)
    ensures context in {CONTEXT_LIST, CONTEXT_DETAIL} ==> r.Ok?
    ensures context in {CONTEXT_LIST, CONTEXT_DETAIL} && contentTypeAppLabel == "invoicing" ==> r == Ok("billing")
    ensures context in {CONTEXT_LIST, CONTEXT_DETAIL} && contentTypeAppLabel == "exports" ==> r == Ok("outputs")
    ensures context in {CONTEXT_LIST, CONTEXT_DETAIL} && contentTypeAppLabel !in {"invoicing", "exports"} ==> r == Ok(contentTypeAppLabel)
    ensures context !in {CONTEXT_LIST, CONTEXT_DETAIL} ==>
      (r == Err(KeyError) <==> entry.Absent? || (entry.ByContext? && context !in entry.modules))
    ensures r == Err(TypeError) <==> context !in {CONTEXT_LIST, CONTEXT_DETAIL} && (entry.Module? || entry.NoneEntry?)
    ensures r == Err(AttributeError) <==>
      context !in {CONTEXT_LIST, CONTEXT_DETAIL} && entry.ByContext? && context in entry.modules && entry.modules[context].None?
    ensures r.Ok? && context !in {CONTEXT_LIST, CONTEXT_DETAIL} ==> '.' !in r.value
  {
    if context == CONTEXT_LIST || context == CONTEXT_DETAIL then
      if contentTypeAppLabel == "invoicing" then Ok("billing")
      else if contentTypeAppLabel == "exports" then Ok("outputs")
      else Ok(contentTypeAppLabel)
    else
      match entry
        case Absent => Err(KeyError)
        case NoneEntry => Err(TypeError)  // None indexed by a string
        case Module(_) => Err(TypeError)  // a string indexed by a string
        case ByContext(modules) =>
          if context !in modules then Err(KeyError)
          else if modules[context].None? then Err(AttributeError)  // None has no `split`
          else
            var parts := Split(modules[context].value, '.');
            if |parts| < 2 then Err(IndexError) else Ok(parts[|parts| - 2])
  }

  /** The app label of a mapped module `project.app.tail` is `app`. */
  lemma AppLabelOfModule(context: string, contentTypeAppLabel: string, modules: map<string, Option<string>>,
                         project: string, app: string, tail: string)
    requires context !in {CONTEXT_LIST, CONTEXT_DETAIL}
    requires context in modules && modules[context] == Some(project + "." + app + "." + tail)
    requires '.' !in project && '.' !in app && '.' !in tail
    ensures GetAppLabel(context, contentTypeAppLabel, ByContext(modules)) == Ok(app)
  {
    assert project + "." + app + "." + tail == project + ['.'] + app + ['.'] + tail;
    SplitTriple(project, '.', app, tail);
  }

  // ---------------------------------------------------------------------
  // Scheduler: cron string, routine description, job bookkeeping
  // ---------------------------------------------------------------------

  const ROUTINE_DAILY := "DAILY"
  const ROUTINE_WEEKLY := "WEEKLY"
  const ROUTINE_MONTHLY := "MONTHLY"

  /**
   * `Scheduler.cron`: the crontab line of a routine, at 05:00 UTC every
   * day, every Monday, or on the first of the month; NotImplementedError
   * for any other routine.
   */
  function Cron(routine: string): (r: Result<string>)
    ensures r.Err? <==> routine !in {ROUTINE_DAILY, ROUTINE_WEEKLY, ROUTINE_MONTHLY}
    ensures r.Err? ==> r.error == NotImplementedError
  {
    if routine == ROUTINE_DAILY then Ok("0 5 * * *")
    else if routine == ROUTINE_WEEKLY then Ok("0 5 * * 1")
    else if routine == ROUTINE_MONTHLY then Ok("0 5 1 * *")
    else Err(NotImplementedError)
  }

  /** The five fields of a crontab line (minute, hour, day of month, month, day of week). */
  datatype CronFields = CronFields(minute: string, hour: string, dayOfMonth: string, month: string, dayOfWeek: string)

  /** A crontab line with its five fields separated by single spaces. */
  function CronLine(f: CronFields): string
  {
    f.minute + " " + f.hour + " " + f.dayOfMonth + " " + f.month + " " + f.dayOfWeek
  }

  /**
   * Each routine's line is a crontab entry at minute 0 of hour 5, every
   * month, with the day of month and day of week the routine names.
   */
  lemma CronSchedules(routine: string)
    requires Cron(routine).Ok?
    ensures Cron(routine).value == CronLine(CronFields("0", "5",
      if routine == ROUTINE_MONTHLY then "1" else "*", "*",
      if routine == ROUTINE_WEEKLY then "1" else "*"))
  {
  }

  /** Different routines run at different times. */
  lemma CronDistinct(r1: string, r2: string)
    requires Cron(r1).Ok? && Cron(r2).Ok? && r1 != r2
    ensures Cron(r1).value != Cron(r2).value
  {
    var l1, l2 := Cron(r1).value, Cron(r2).value;
    assert l1[4] != l2[4] || l1[8] != l2[8];
  }

  /** `ROUTINE_DESCRIPTIONS`. */
  const ROUTINE_DESCRIPTIONS: map<string, string> :=
    map[ROUTINE_DAILY := "at 8:00", ROUTINE_WEEKLY := "on Monday", ROUTINE_MONTHLY := "on the first day"]

  /** `routine_description`: the description of a routine, None for one without. */
  function RoutineDescription(routine: string): (r: Option<string>)
    ensures r.None? <==> routine !in ROUTINE_DESCRIPTIONS
  {
    if routine in ROUTINE_DESCRIPTIONS then Some(ROUTINE_DESCRIPTIONS[routine]) else None
  }

  /** Exactly the routines that can be scheduled are described. */
  lemma DescribedIffSchedulable(routine: string)
    ensures RoutineDescription(routine).Some? <==> Cron(routine).Ok?
  {
  }

  /** The registry once a scheduler's job, if it is registered, has been deleted. */
  function WithoutJob(jobs: map<string, CronJob>, jobId: string): map<string, CronJob>
  {
    if jobId != "" && jobId in jobs then jobs - {jobId} else jobs
  }

  /** A job the RQ scheduler holds: its crontab line and the scheduler it runs. */
  datatype CronJob = CronJob(cron: string, schedulerId: nat)

  /** The RQ scheduler's registry of cron jobs, by job ID. */
  class JobStore {
    var jobs: map<string, CronJob>

    constructor(jobs: map<string, CronJob>)
      ensures this.jobs == jobs
    {
      this.jobs := jobs;
    }

    /** `job.delete()`. */
    method Delete(id: string)
      modifies this
      ensures jobs == old(jobs) - {id}
    {
      jobs := jobs - {id};
    }

    /** `scheduler.cron(...)`: registers a job under the fresh ID the scheduler draws. */
    method Register(id: string, job: CronJob)
      modifies this
      ensures jobs == old(jobs)[id := job]
    {
      jobs := jobs[id := job];
    }
  }

  /** A time stamp (`now()`), left abstract. */
  type Time = nat

  /** The state of a `Scheduler` row the modelled methods read and write. */
  class Scheduler {
    const id: nat
    var routine: string
    var isActive: bool
    var jobId: string
    var executions: seq<Time>

    constructor(id: nat, routine: string, isActive: bool)
      ensures this.id == id && this.routine == routine && this.isActive == isActive
      ensures jobId == "" && executions == []
    {
      this.id := id;
      this.routine := routine;
      this.isActive := isActive;
      jobId := "";
      executions := [];
    }

    /** `is_scheduled`: the job ID is set and the scheduler still holds that job. */
    predicate IsScheduled(store: JobStore)
      reads this, store
      ensures jobId == "" ==> !IsScheduled(store)
    {
      jobId != "" && jobId in store.jobs
    }

    /** `cancel_schedule`: the scheduled job, if any, is deleted. */
    method CancelSchedule(store: JobStore)
      modifies store
      ensures store.jobs == WithoutJob(old(store.jobs), jobId)
    {
      if IsScheduled(store) {
        store.Delete(jobId);
      }
    }

    /**
     * `schedule`: the previous job is cancelled; an active scheduler then
     * registers a job with its routine's crontab line and keeps the new
     * job's ID, an inactive one clears its job ID. A routine without a
     * crontab line raises NotImplementedError once the old job is gone.
     * `freshId` is the ID the RQ scheduler draws for the new job.
     */
    method Schedule(store: JobStore, freshId: string) returns (r: Outcome)
      requires freshId != "" && freshId !in store.jobs
      modifies this, store
      ensures r.Fail? <==> isActive && Cron(routine).Err?
      ensures r.Fail? ==> r.error == NotImplementedError && jobId == old(jobId) && !IsScheduled(store)
      ensures r.Pass? ==> (jobId == "" <==> !isActive)
      ensures r.Pass? ==> (IsScheduled(store) <==> isActive)
      ensures r.Pass? && isActive ==> jobId == freshId
      ensures r.Pass? && isActive ==> store.jobs == WithoutJob(old(store.jobs), old(jobId))[freshId := CronJob(Cron(routine).value, id)]
      ensures r.Pass? && !isActive ==> store.jobs == WithoutJob(old(store.jobs), old(jobId))
      ensures routine == old(routine) && isActive == old(isActive) && executions == old(executions)
    {
      CancelSchedule(store);
      if isActive {
        var cron := Cron(routine);
        if cron.Err? {
          return Fail(cron.error);
        }
        store.Register(freshId, CronJob(cron.value, id));
        jobId := freshId;
      } else {
        jobId := "";
      }
      return Pass;
    }

    /** `schedule_export`'s bookkeeping: the run's time is appended to `executions`. */
    method RecordExecution(at: Time)
      modifies this
      ensures executions == old(executions) + [at]
      ensures routine == old(routine) && isActive == old(isActive) && jobId == old(jobId)
    {
      executions := executions + [at];
    }
  }

  // ---------------------------------------------------------------------
  // Export: the status a run moves through
  // ---------------------------------------------------------------------

  /** `Export.STATUSES`. */
  datatype Status = Pending | Processing | Failed | Finished

  /**
   * The fields of an `Export` row a mailing run reads, and its status.
   * `hasCreator` is false when the nullable `creator` is None.
   */
  class ExportRecord {
    const id: nat
    const hasCreator: bool
    const total: nat
    const sendSeparately: bool
    const recipientsEmails: seq<string>
    const verboseNamePlural: string
    var status: Status

    /** A new export is PENDING. */
    constructor(id: nat, hasCreator: bool, total: nat, sendSeparately: bool, recipientsEmails: seq<string>, verboseNamePlural: string)
      ensures this.id == id && this.hasCreator == hasCreator && this.total == total && this.sendSeparately == sendSeparately
      ensures this.recipientsEmails == recipientsEmails && this.verboseNamePlural == verboseNamePlural
      ensures status == Pending
    {
      this.id := id;
      this.hasCreator := hasCreator;
      this.total := total;
      this.sendSeparately := sendSeparately;
      this.recipientsEmails := recipientsEmails;
      this.verboseNamePlural := verboseNamePlural;
      status := Pending;
    }
  }
}
