/** The workflow editor: one "deal stage changed" automation that drafts a
    patient e-mail when a deal moves between two pipeline stages. The page
    keeps a form; saving writes the workflow row and its single
    `draft_email_patient` action to the `workflows` and `workflow_actions`
    tables, which this model holds in memory. */
module WorkflowEditor {
  import opened Wrappers
  import opened Text
  import opened Seqs
  import WorkflowList

  type Stage = WorkflowList.Stage

  const DealStageChanged := "deal_stage_changed"
  const DraftEmailPatient := "draft_email_patient"
  const DefaultName := "Deal: Request info \U{2192} Request processed"
  const UnnamedWorkflow := "Deal stage change automation"
  const DefaultSubject := "Your information request has been processed"
  const DefaultBody := "Hi {{patient.first_name}}\n\nWe wanted to let you know that your request for information has now been processed.\n\nDeal: {{deal.title}}\nPipeline: {{deal.pipeline}}\n\nBest regards,\nYour clinic team"
  const InfoStageName := "request for information"
  const ProcessedStageName := "request processed"
  const MissingToStage := "Please select the 'to' stage."
  const CreateFailed := "Failed to create workflow."
  const SaveFailed := "Failed to save workflow."
  const LoadFailed := "Failed to load workflows."
  const Saved := "Workflow saved. A draft email will be created when a deal moves between the selected stages."
  const EmailSortOrder := 1

  /** A workflow's trigger configuration; `None` is an absent or `null` entry. */
  datatype TriggerConfig = TriggerConfig(fromStageId: Option<string>, toStageId: Option<string>, pipeline: Option<string>)

  /** An e-mail action's templates; `None` is an absent entry. */
  datatype EmailConfig = EmailConfig(subjectTemplate: Option<string>, bodyTemplate: Option<string>)

  /** A `workflows` row; a falsy `config` is `None`. */
  datatype WorkflowRecord = WorkflowRecord(id: nat, name: string, triggerType: string, active: bool,
                                           config: Option<TriggerConfig>)

  /** A `workflow_actions` row; a falsy `config` is `None`. */
  datatype ActionRecord = ActionRecord(id: nat, workflowId: nat, actionType: string, config: Option<EmailConfig>,
                                       sortOrder: int)

  /** The editor's form. */
  datatype Form = Form(workflowId: Option<nat>, name: string, active: bool, fromStageId: string,
                       toStageId: string, pipeline: string, subjectTemplate: string, bodyTemplate: string)

  /** How loading ended. */
  datatype LoadOutcome = Loaded | LoadThrew(message: Option<string>)

  /** Which datastore call of a save fails, and with what message. */
  datatype Fault =
    | NoFault
    | WorkflowWriteFails(message: Option<string>)
    | ActionQueryFails(message: Option<string>)
    | ActionWriteFails(message: Option<string>)

  /** The form before anything was loaded. */
  const InitialForm := Form(None, DefaultName, true, "", "", "", DefaultSubject, DefaultBody)

  // ---------------------------------------------------------------------
  // Normalising the form
  // ---------------------------------------------------------------------

  /** The saved name: the trimmed name, or the fixed fallback when blank. */
  function SavedName(name: string): (r: string)
    ensures r != ""
    ensures IsBlank(name) ==> r == UnnamedWorkflow
    ensures !IsBlank(name) ==> r == Trim(name)
  {
    var trimmed := Trim(name);
    if trimmed == "" then UnnamedWorkflow else trimmed
  }

  /** The saved trigger configuration: an empty from stage and a blank
      pipeline become `null`; the to stage is kept as it is. */
  function SavedConfig(f: Form): (c: TriggerConfig)
    ensures c.fromStageId.None? <==> f.fromStageId == ""
    ensures c.fromStageId.Some? ==> c.fromStageId.value == f.fromStageId
    ensures c.toStageId == Some(f.toStageId)
    ensures c.pipeline.None? <==> IsBlank(f.pipeline)
    ensures c.pipeline.Some? ==> c.pipeline.value == Trim(f.pipeline)
  {
    var pipeline := Trim(f.pipeline);
    TriggerConfig(if f.fromStageId == "" then None else Some(f.fromStageId), Some(f.toStageId),
                  if pipeline == "" then None else Some(pipeline))
  }

  /** The templates the save writes. */
  function SavedTemplates(f: Form): EmailConfig {
    EmailConfig(Some(f.subjectTemplate), Some(f.bodyTemplate))
  }

  // ---------------------------------------------------------------------
  // The tables
  // ---------------------------------------------------------------------

  /** `update(...).eq("id", id)` on the workflows table. */
  function UpdateWorkflow(ws: seq<WorkflowRecord>, id: nat, name: string, active: bool, config: TriggerConfig)
    : (r: seq<WorkflowRecord>)
    ensures |r| == |ws|
    ensures forall i :: 0 <= i < |ws| ==>
              r[i] == if ws[i].id == id then ws[i].(name := name, active := active, config := Some(config)) else ws[i]
  {
    if ws == [] then []
    else [if ws[0].id == id then ws[0].(name := name, active := active, config := Some(config)) else ws[0]]
         + UpdateWorkflow(ws[1..], id, name, active, config)
  }

  /** `update({ config }).eq("id", id)` on the actions table. */
  function UpdateActionConfig(as_: seq<ActionRecord>, id: nat, config: EmailConfig): (r: seq<ActionRecord>)
    ensures |r| == |as_|
    ensures forall i :: 0 <= i < |as_| ==>
              r[i] == if as_[i].id == id then as_[i].(config := Some(config)) else as_[i]
  {
    if as_ == [] then []
    else [if as_[0].id == id then as_[0].(config := Some(config)) else as_[0]]
         + UpdateActionConfig(as_[1..], id, config)
  }

  /** The e-mail action rows of one workflow. */
  function IsEmailActionOf(workflowId: nat): ActionRecord -> bool {
    (a: ActionRecord) => a.workflowId == workflowId && a.actionType == DraftEmailPatient
  }

  /** At most one e-mail action row belongs to the workflow. */
  ghost predicate AtMostOneEmailAction(as_: seq<ActionRecord>, workflowId: nat) {
    forall i, j ::
      0 <= i < |as_| && 0 <= j < |as_| && IsEmailActionOf(workflowId)(as_[i]) && IsEmailActionOf(workflowId)(as_[j])
      ==> i == j
  }

  ghost predicate UniqueActionIds(as_: seq<ActionRecord>) {
    forall i, j :: 0 <= i < |as_| && 0 <= j < |as_| && as_[i].id == as_[j].id ==> i == j
  }

  /** The actions table after the e-mail step of a save: the first e-mail
      action of the workflow gets the new templates, or a new one is added
      with id `freshId`. */
  function UpsertEmailAction(as_: seq<ActionRecord>, workflowId: nat, templates: EmailConfig, freshId: nat)
    : seq<ActionRecord>
  {
    var found := Find(as_, IsEmailActionOf(workflowId));
    if found.Some? then UpdateActionConfig(as_, found.value.id, templates)
    else as_ + [ActionRecord(freshId, workflowId, DraftEmailPatient, Some(templates), EmailSortOrder)]
  }

  /** Starting from at most one e-mail action of the workflow, the upsert
      leaves exactly one, holding the new templates; every other row is
      unchanged, and an existing row keeps its id, type and sort order. */
  lemma UpsertLeavesOneEmailAction(as_: seq<ActionRecord>, workflowId: nat, templates: EmailConfig, freshId: nat)
    requires UniqueActionIds(as_)
    requires AtMostOneEmailAction(as_, workflowId)
    ensures var r := UpsertEmailAction(as_, workflowId, templates, freshId);
            exists a :: Filter(r, IsEmailActionOf(workflowId)) == [a] && a.config == Some(templates)
    ensures var r := UpsertEmailAction(as_, workflowId, templates, freshId);
            forall i :: 0 <= i < |as_| && !IsEmailActionOf(workflowId)(as_[i]) ==> r[i] == as_[i]
  {
    var p := IsEmailActionOf(workflowId);
    var r := UpsertEmailAction(as_, workflowId, templates, freshId);
    FindIsFirst(as_, p);
    var k := FirstIndex(as_, p);
    if k < |as_| {
      forall j | 0 <= j < |r| && j != k ensures !p(r[j]) {
        assert r[j] == as_[j];
      }
      FilterSingle(r, p, k);
      assert Filter(r, p) == [r[k]];
    } else {
      FilterSingle(r, p, |as_|);
      assert Filter(r, p) == [r[|as_|]];
    }
  }

  /** The upsert with an id above every stored one keeps the action ids
      distinct, and every id stays below the next fresh one. */
  lemma UpsertKeepsUniqueIds(as_: seq<ActionRecord>, workflowId: nat, templates: EmailConfig, freshId: nat)
    requires UniqueActionIds(as_)
    requires forall i :: 0 <= i < |as_| ==> as_[i].id < freshId
    ensures var r := UpsertEmailAction(as_, workflowId, templates, freshId);
            UniqueActionIds(r) && forall i :: 0 <= i < |r| ==> r[i].id <= freshId
  {
    var r := UpsertEmailAction(as_, workflowId, templates, freshId);
    if Find(as_, IsEmailActionOf(workflowId)).None? {
      forall i, j | 0 <= i < |r| && 0 <= j < |r| && r[i].id == r[j].id ensures i == j {
        if i < |as_| && j < |as_| {
          assert r[i] == as_[i] && r[j] == as_[j];
        }
      }
    }
  }

  /** With no e-mail action yet, exactly the new row is added, with sort
      order 1. */
  lemma UpsertInsertsWhenAbsent(as_: seq<ActionRecord>, workflowId: nat, templates: EmailConfig, freshId: nat)
    requires forall i :: 0 <= i < |as_| ==> !IsEmailActionOf(workflowId)(as_[i])
    ensures UpsertEmailAction(as_, workflowId, templates, freshId)
            == as_ + [ActionRecord(freshId, workflowId, DraftEmailPatient, Some(templates), EmailSortOrder)]
  {
  }

  /** The id a save writes under: the form's workflow, or `freshId` on the
      first save. */
  function SavedId(f: Form, freshId: nat): nat {
    if f.workflowId.Some? then f.workflowId.value else freshId
  }

  /** The workflows table after the workflow step of a save: a new row on
      the first save, otherwise the form's workflow row rewritten. */
  function WrittenWorkflows(ws: seq<WorkflowRecord>, f: Form, freshId: nat): seq<WorkflowRecord> {
    if f.workflowId.None? then
      ws + [WorkflowRecord(freshId, SavedName(f.name), DealStageChanged, f.active, Some(SavedConfig(f)))]
    else UpdateWorkflow(ws, f.workflowId.value, SavedName(f.name), f.active, SavedConfig(f))
  }

  /** The first save adds exactly one stage-change workflow; a save with a
      workflow id rewrites that row in place and never adds one. */
  lemma SaveAddsAtMostOneWorkflow(ws: seq<WorkflowRecord>, f: Form, freshId: nat)
    ensures f.workflowId.None? ==>
              var r := WrittenWorkflows(ws, f, freshId);
              |r| == |ws| + 1 && r[..|ws|] == ws && r[|ws|].id == freshId && r[|ws|].triggerType == DealStageChanged
    ensures f.workflowId.Some? ==>
              var r := WrittenWorkflows(ws, f, freshId);
              && |r| == |ws|
              && forall i :: 0 <= i < |ws| ==>
                   r[i].id == ws[i].id && r[i].triggerType == ws[i].triggerType
                   && (ws[i].id == f.workflowId.value ==> r[i].name == SavedName(f.name) && r[i].active == f.active
                                                          && r[i].config == Some(SavedConfig(f)))
                   && (ws[i].id != f.workflowId.value ==> r[i] == ws[i])
  {
  }

  // ---------------------------------------------------------------------
  // Loading
  // ---------------------------------------------------------------------

  function IsStageChangeWorkflow(w: WorkflowRecord): bool {
    w.triggerType == DealStageChanged
  }

  function StageNamed(fragment: string): Stage -> bool {
    (s: Stage) => Contains(Lower(s.name), fragment)
  }

  /** A stored template replaces the form's only when it is nonempty. */
  function Override(stored: Option<string>, current: string): (r: string)
    ensures stored.Some? && stored.value != "" ==> r == stored.value
    ensures stored.None? || stored.value == "" ==> r == current
  {
    if stored.Some? && stored.value != "" then stored.value else current
  }

  /** The form after loading: the first stage-change workflow fills it,
      and its e-mail action's nonempty templates replace the defaults; with
      no such workflow only the two stages are preset, to the first stage
      whose name mentions "request for information" and "request processed". */
  ghost predicate LoadedForm(f: Form, before: Form, stages: seq<Stage>, ws: seq<WorkflowRecord>,
                             as_: seq<ActionRecord>)
  {
    var existing := Find(ws, IsStageChangeWorkflow);
    if existing.Some? then
      var w := existing.value;
      var c := w.config.GetOr(TriggerConfig(None, None, None));
      var action := Find(as_, IsEmailActionOf(w.id));
      var e := if action.Some? then action.value.config.GetOr(EmailConfig(None, None)) else EmailConfig(None, None);
      f == Form(Some(w.id), w.name, w.active, c.fromStageId.GetOr(""), c.toStageId.GetOr(""),
                c.pipeline.GetOr(""), Override(e.subjectTemplate, before.subjectTemplate),
                Override(e.bodyTemplate, before.bodyTemplate))
    else
      var info := Find(stages, StageNamed(InfoStageName));
      var processed := Find(stages, StageNamed(ProcessedStageName));
      f == before.(fromStageId := if info.Some? then info.value.id else before.fromStageId,
                   toStageId := if processed.Some? then processed.value.id else before.toStageId)
  }

  /** Fills the form from a stored workflow and its e-mail action. */
  method FormFromWorkflow(before: Form, w: WorkflowRecord, as_: seq<ActionRecord>) returns (form: Form)
    ensures var c := w.config.GetOr(TriggerConfig(None, None, None));
            var action := Find(as_, IsEmailActionOf(w.id));
            var e := if action.Some? then action.value.config.GetOr(EmailConfig(None, None)) else EmailConfig(None, None);
            form == Form(Some(w.id), w.name, w.active, c.fromStageId.GetOr(""), c.toStageId.GetOr(""),
                         c.pipeline.GetOr(""), Override(e.subjectTemplate, before.subjectTemplate),
                         Override(e.bodyTemplate, before.bodyTemplate))
  {
    var config := w.config.GetOr(TriggerConfig(None, None, None));
    form := before.(workflowId := Some(w.id), name := w.name, active := w.active,
                    fromStageId := config.fromStageId.GetOr(""), toStageId := config.toStageId.GetOr(""),
                    pipeline := config.pipeline.GetOr(""));
    var action := Find(as_, IsEmailActionOf(w.id));
    if action.Some? {
      var actionConfig := action.value.config.GetOr(EmailConfig(None, None));
      if actionConfig.subjectTemplate.Some? && actionConfig.subjectTemplate.value != "" {
        form := form.(subjectTemplate := actionConfig.subjectTemplate.value);
      }
      if actionConfig.bodyTemplate.Some? && actionConfig.bodyTemplate.value != "" {
        form := form.(bodyTemplate := actionConfig.bodyTemplate.value);
      }
    }
  }

  /** With no stored workflow, presets the two stages from their names. */
  method FormWithDefaultStages(before: Form, stages: seq<Stage>) returns (form: Form)
    ensures var info := Find(stages, StageNamed(InfoStageName));
            var processed := Find(stages, StageNamed(ProcessedStageName));
            form == before.(fromStageId := if info.Some? then info.value.id else before.fromStageId,
                            toStageId := if processed.Some? then processed.value.id else before.toStageId)
  {
    form := before;
    var infoStage := Find(stages, StageNamed(InfoStageName));
    var processedStage := Find(stages, StageNamed(ProcessedStageName));
    if infoStage.Some? {
      form := form.(fromStageId := infoStage.value.id);
    }
    if processedStage.Some? {
      form := form.(toStageId := processedStage.value.id);
    }
  }

  /** The page with its form and the two tables it edits. */
  class Editor {
    var stages: seq<Stage>
    var workflows: seq<WorkflowRecord>
    var actions: seq<ActionRecord>
    var nextId: nat
    var form: Form
    var error: Option<string>
    var success: Option<string>

    /** Every stored id lies below `nextId`, so the next one is fresh. */
    ghost predicate Valid()
      reads this
    {
      && (forall i :: 0 <= i < |workflows| ==> workflows[i].id < nextId)
      && (forall i :: 0 <= i < |actions| ==> actions[i].id < nextId)
    }

    constructor (stages: seq<Stage>, workflows: seq<WorkflowRecord>, actions: seq<ActionRecord>, nextId: nat)
      requires forall i :: 0 <= i < |workflows| ==> workflows[i].id < nextId
      requires forall i :: 0 <= i < |actions| ==> actions[i].id < nextId
      ensures Valid()
      ensures this.stages == stages && this.workflows == workflows && this.actions == actions
      ensures this.nextId == nextId
      ensures form == InitialForm && error == None && success == None
    {
      this.stages := stages;
      this.workflows := workflows;
      this.actions := actions;
      this.nextId := nextId;
      form := InitialForm;
      error := None;
      success := None;
    }

    /** Fills the form from the stored rows. */
    method Load(outcome: LoadOutcome)
      requires Valid()
      modifies this
      ensures Valid()
      ensures stages == old(stages) && workflows == old(workflows) && actions == old(actions) && nextId == old(nextId)
      ensures success == old(success)
      ensures outcome.LoadThrew? ==> form == old(form) && error == Some(outcome.message.GetOr(LoadFailed))
      ensures outcome.Loaded? ==> error == None && LoadedForm(form, old(form), stages, workflows, actions)
    {
      error := None;
      if outcome.LoadThrew? {
        error := Some(outcome.message.GetOr(LoadFailed));
        return;
      }
      var existing := Find(workflows, IsStageChangeWorkflow);
      if existing.Some? {
        form := FormFromWorkflow(form, existing.value, actions);
      } else {
        form := FormWithDefaultStages(form, stages);
      }
    }

    /** The form's submit handler. Without a 'to' stage nothing is written;
        otherwise the workflow row is inserted (first save) or updated,
        then the e-mail action is updated or inserted. A failing call stops
        the save at that point with its message. */
    method Submit(fault: Fault)
      requires Valid()
      modifies this
      ensures Valid()
      ensures stages == old(stages)
      ensures old(form).toStageId == "" ==>
                error == Some(MissingToStage) && success == old(success) && form == old(form)
                && workflows == old(workflows) && actions == old(actions) && nextId == old(nextId)
      ensures old(form).toStageId != "" && fault.NoFault? ==> error == None && success == Some(Saved)
      ensures old(form).toStageId != "" && !fault.NoFault? ==> success == None && error.Some?
      ensures old(form).toStageId != "" && !fault.WorkflowWriteFails? ==>
                && workflows == WrittenWorkflows(old(workflows), old(form), old(nextId))
                && form == old(form).(workflowId := Some(SavedId(old(form), old(nextId))))
      ensures old(form).toStageId != "" && fault.WorkflowWriteFails? ==>
                && workflows == old(workflows) && actions == old(actions) && nextId == old(nextId) && form == old(form)
                && error == Some(fault.message.GetOr(if old(form).workflowId.None? then CreateFailed else SaveFailed))
      ensures old(form).toStageId != "" && (fault.ActionQueryFails? || fault.ActionWriteFails?) ==>
                actions == old(actions) && error == Some(fault.message.GetOr(SaveFailed))
      ensures old(form).toStageId != "" && fault.NoFault? ==>
                actions == UpsertEmailAction(old(actions), SavedId(old(form), old(nextId)), SavedTemplates(old(form)),
                                             if old(form).workflowId.Some? then old(nextId) else old(nextId) + 1)
    {
      if form.toStageId == "" {
        error := Some(MissingToStage);
        return;
      }
      Save(fault);
    }

    /** A submit that passed the 'to' stage check. */
    method Save(fault: Fault)
      requires Valid() && form.toStageId != ""
      modifies this
      ensures Valid()
      ensures stages == old(stages)
      ensures fault.NoFault? ==> error == None && success == Some(Saved)
      ensures !fault.NoFault? ==> success == None && error.Some?
      ensures !fault.WorkflowWriteFails? ==>
                && workflows == WrittenWorkflows(old(workflows), old(form), old(nextId))
                && form == old(form).(workflowId := Some(SavedId(old(form), old(nextId))))
      ensures fault.WorkflowWriteFails? ==>
                && workflows == old(workflows) && actions == old(actions) && nextId == old(nextId) && form == old(form)
                && error == Some(fault.message.GetOr(if old(form).workflowId.None? then CreateFailed else SaveFailed))
      ensures fault.ActionQueryFails? || fault.ActionWriteFails? ==>
                actions == old(actions) && error == Some(fault.message.GetOr(SaveFailed))
      ensures fault.NoFault? ==>
                actions == UpsertEmailAction(old(actions), SavedId(old(form), old(nextId)), SavedTemplates(old(form)),
                                             if old(form).workflowId.Some? then old(nextId) else old(nextId) + 1)
    {
      error := None;
      success := None;
      var id := WriteWorkflow(fault);
      if id.None? {
        return;
      }
      ActionStep(fault, id.value);
    }

    /** The e-mail step after the workflow was written: a failing action
        query or write stops with its message, otherwise the action is
        saved and the success message shown. */
    method ActionStep(fault: Fault, workflowId: nat)
      requires Valid() && !fault.WorkflowWriteFails?
      modifies this
      ensures Valid()
      ensures workflows == old(workflows) && stages == old(stages) && form == old(form)
      ensures fault.NoFault? ==>
                && error == old(error) && success == Some(Saved)
                && actions == UpsertEmailAction(old(actions), workflowId, SavedTemplates(old(form)), old(nextId))
      ensures !fault.NoFault? ==>
                && actions == old(actions) && nextId == old(nextId) && success == old(success)
                && error == Some(fault.message.GetOr(SaveFailed))
    {
      if fault.ActionQueryFails? || fault.ActionWriteFails? {
        error := Some(fault.message.GetOr(SaveFailed));
        return;
      }
      SaveEmailAction(workflowId, SavedTemplates(form));
      success := Some(Saved);
    }

    /** The workflow step of a save: insert on the first save, update
        afterwards. `None` when the write failed. */
    method WriteWorkflow(fault: Fault) returns (id: Option<nat>)
      requires Valid()
      modifies this
      ensures Valid()
      ensures actions == old(actions) && stages == old(stages) && success == old(success)
      ensures fault.WorkflowWriteFails? ==>
                && id.None? && workflows == old(workflows) && nextId == old(nextId) && form == old(form)
                && error == Some(fault.message.GetOr(if old(form).workflowId.None? then CreateFailed else SaveFailed))
      ensures !fault.WorkflowWriteFails? ==>
                && error == old(error) && id == Some(SavedId(old(form), old(nextId)))
                && workflows == WrittenWorkflows(old(workflows), old(form), old(nextId))
                && form == old(form).(workflowId := id)
                && nextId == if old(form).workflowId.None? then old(nextId) + 1 else old(nextId)
    {
      var trimmedName := SavedName(form.name);
      var config := SavedConfig(form);
      id := form.workflowId;
      if id.None? {
        if fault.WorkflowWriteFails? {
          error := Some(fault.message.GetOr(CreateFailed));
          return;
        }
        var newId := InsertWorkflow(trimmedName, config);
        id := Some(newId);
        form := form.(workflowId := id);
      } else {
        if fault.WorkflowWriteFails? {
          error := Some(fault.message.GetOr(SaveFailed));
          id := None;
          return;
        }
        workflows := UpdateWorkflow(workflows, id.value, trimmedName, form.active, config);
      }
    }

    /** `insert` into the workflows table with a fresh id. */
    method InsertWorkflow(name: string, config: TriggerConfig) returns (id: nat)
      requires Valid()
      modifies this
      ensures Valid()
      ensures id == old(nextId) && nextId == old(nextId) + 1
      ensures workflows == old(workflows) + [WorkflowRecord(id, name, DealStageChanged, form.active, Some(config))]
      ensures actions == old(actions) && stages == old(stages) && form == old(form)
      ensures error == old(error) && success == old(success)
    {
      id := nextId;
      workflows := workflows + [WorkflowRecord(id, name, DealStageChanged, form.active, Some(config))];
      nextId := nextId + 1;
    }

    /** The e-mail step: the first e-mail action of the workflow gets the
        templates, or one is inserted with sort order 1. */
    method SaveEmailAction(workflowId: nat, templates: EmailConfig)
      requires Valid()
      modifies this
      ensures Valid()
      ensures actions == UpsertEmailAction(old(actions), workflowId, templates, old(nextId))
      ensures workflows == old(workflows) && stages == old(stages) && form == old(form)
      ensures error == old(error) && success == old(success)
    {
      var existing := Find(actions, IsEmailActionOf(workflowId));
      if existing.Some? {
        UpdateKeepsIds(actions, existing.value.id, templates);
        actions := UpdateActionConfig(actions, existing.value.id, templates);
      } else {
        actions := actions + [ActionRecord(nextId, workflowId, DraftEmailPatient, Some(templates), EmailSortOrder)];
        nextId := nextId + 1;
      }
    }
  }

  /** Updating a config changes no id. */
  lemma UpdateKeepsIds(as_: seq<ActionRecord>, id: nat, config: EmailConfig)
    ensures forall i :: 0 <= i < |as_| ==> UpdateActionConfig(as_, id, config)[i].id == as_[i].id
  {
  }
}
