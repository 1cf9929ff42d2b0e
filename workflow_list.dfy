/** The "All workflows" page: every automation of the clinic, with the
    stages that trigger it and how its patient e-mail is sent, and the
    confirmation dialog that deletes a workflow. */
module WorkflowList {
  import opened Wrappers
  import opened Text
  import opened Seqs
  import opened Backend

  /** A pipeline stage of a deal. */
  datatype Stage = Stage(id: string, name: string, kind: string, sortOrder: int)

  /** The part of a workflow's free-form configuration the page reads.
      `None` is an absent or `null` entry. */
  datatype WorkflowConfig = WorkflowConfig(fromStageId: Option<string>, toStageId: Option<string>, pipeline: Option<string>)

  /** A `workflows` row; a falsy `config` is `None`. */
  datatype WorkflowRow = WorkflowRow(id: string, name: string, triggerType: string, active: bool,
                                     config: Option<WorkflowConfig>)

  /** The part of an action's configuration the page reads. A numeric
      entry is `None` unless the stored value is a number. */
  datatype ActionConfig = ActionConfig(subjectTemplate: Option<string>, sendMode: Option<string>,
                                       delayMinutes: Option<int>, recurringEveryDays: Option<int>,
                                       recurringTimes: Option<int>)

  /** A `workflow_actions` row; a falsy `config` is `None`. */
  datatype ActionRow = ActionRow(id: string, workflowId: string, actionType: string, config: Option<ActionConfig>)

  /** One line of the page's table. */
  datatype Summary = Summary(id: string, name: string, triggerType: string, active: bool,
                             fromStage: Option<Stage>, toStage: Option<Stage>, pipeline: Option<string>,
                             subjectTemplate: Option<string>, sendMode: string,
                             delayMinutes: Option<int>, recurringEveryDays: Option<int>,
                             recurringTimes: Option<int>)

  const DraftEmailPatient := "draft_email_patient"
  const DefaultSendMode := "immediate"
  const LoadFailedMessage := "Failed to load workflows."
  const DeleteFailedMessage := "Failed to delete workflow. Please try again."

  /** `config || {}` */
  function ConfigOf(w: WorkflowRow): WorkflowConfig {
    w.config.GetOr(WorkflowConfig(None, None, None))
  }

  function ActionConfigOf(a: ActionRow): ActionConfig {
    a.config.GetOr(ActionConfig(None, None, None, None, None))
  }

  // ---------------------------------------------------------------------
  // The stage index
  // ---------------------------------------------------------------------

  /** The map from stage id to stage after `set`ting every stage in turn. */
  function StageIndex(stages: seq<Stage>): map<string, Stage>
  {
    if stages == [] then map[]
    else StageIndex(stages[..|stages| - 1])[stages[|stages| - 1].id := stages[|stages| - 1]]
  }

  /** Fills the index one stage at a time. */
  method BuildStageIndex(stages: seq<Stage>) returns (stageById: map<string, Stage>)
    ensures stageById == StageIndex(stages)
  {
    stageById := map[];
    for i := 0 to |stages|
      invariant stageById == StageIndex(stages[..i])
    {
      assert stages[..i + 1][..i] == stages[..i];
      stageById := stageById[stages[i].id := stages[i]];
    }
    assert stages[..|stages|] == stages;
  }

  /** Exactly the ids of the stages are keys of the index. */
  lemma {:induction false} StageIndexKeys(stages: seq<Stage>, id: string)
    ensures id in StageIndex(stages) <==> exists j :: 0 <= j < |stages| && stages[j].id == id
  {
    if stages != [] {
      var init := stages[..|stages| - 1];
      StageIndexKeys(init, id);
      if exists j :: 0 <= j < |init| && init[j].id == id {
        var j :| 0 <= j < |init| && init[j].id == id;
        assert stages[j].id == id;
      }
      if exists j :: 0 <= j < |stages| && stages[j].id == id {
        var j :| 0 <= j < |stages| && stages[j].id == id;
        if j < |init| {
          assert init[j].id == id;
        }
      }
    }
  }

  /** When two stages share an id, the later one is the one indexed. */
  lemma {:induction false} StageIndexLastWins(stages: seq<Stage>, j: int)
    requires 0 <= j < |stages|
    requires forall k :: j < k < |stages| ==> stages[k].id != stages[j].id
    ensures stages[j].id in StageIndex(stages) && StageIndex(stages)[stages[j].id] == stages[j]
  {
    if j < |stages| - 1 {
      var init := stages[..|stages| - 1];
      assert init[j] == stages[j];
      StageIndexLastWins(init, j);
    }
  }

  /** `id ? stageById.get(id) ?? null : null`: an empty id looks nothing up. */
  function LookupStage(stageById: map<string, Stage>, id: Option<string>): Option<Stage>
  {
    if id.Some? && id.value != "" && id.value in stageById then Some(stageById[id.value]) else None
  }

  // ---------------------------------------------------------------------
  // Summaries
  // ---------------------------------------------------------------------

  /** The test for the workflow's patient e-mail action. */
  function EmailActionTest(workflowId: string): ActionRow -> bool {
    (a: ActionRow) => a.workflowId == workflowId && a.actionType == DraftEmailPatient
  }

  /** The workflow's patient e-mail action: the first action of that
      workflow whose type is `draft_email_patient`. */
  function EmailAction(actions: seq<ActionRow>, workflowId: string): (r: Option<ActionRow>)
    ensures r.Some? ==> r.value in actions && r.value.workflowId == workflowId && r.value.actionType == DraftEmailPatient
    ensures r.None? <==> forall i :: 0 <= i < |actions| ==> !(actions[i].workflowId == workflowId && actions[i].actionType == DraftEmailPatient)
  {
    Find(actions, EmailActionTest(workflowId))
  }

  /** No earlier e-mail action of the same workflow is passed over. */
  lemma EmailActionIsFirst(actions: seq<ActionRow>, workflowId: string)
    requires EmailAction(actions, workflowId).Some?
    ensures exists k :: 0 <= k < |actions| && actions[k] == EmailAction(actions, workflowId).value
                        && forall j :: 0 <= j < k ==> !(actions[j].workflowId == workflowId && actions[j].actionType == DraftEmailPatient)
  {
    var p := EmailActionTest(workflowId);
    FindIsFirst(actions, p);
    var k := FirstIndex(actions, p);
    assert actions[k] == EmailAction(actions, workflowId).value;
  }

  /** What a summary says about a workflow, given the stage index and the
      action rows. */
  ghost predicate SummaryOf(s: Summary, w: WorkflowRow, stageById: map<string, Stage>, actions: seq<ActionRow>)
  {
    var config := ConfigOf(w);
    && s.id == w.id && s.name == w.name && s.triggerType == w.triggerType && s.active == w.active
    && StageOf(s.fromStage, stageById, config.fromStageId)
    && StageOf(s.toStage, stageById, config.toStageId)
    && s.pipeline == config.pipeline
    && EmailColumns(s, EmailAction(actions, w.id))
  }

  /** The e-mail columns show the e-mail action's settings, or the defaults
      when the workflow has no e-mail action. */
  ghost predicate EmailColumns(s: Summary, email: Option<ActionRow>)
  {
    if email.None? then
      s.subjectTemplate == None && s.sendMode == DefaultSendMode
      && s.delayMinutes == None && s.recurringEveryDays == None && s.recurringTimes == None
    else
      var c := ActionConfigOf(email.value);
      && (s.subjectTemplate.Some? <==> c.subjectTemplate.Some? && c.subjectTemplate.value != "")
      && (s.subjectTemplate.Some? ==> s.subjectTemplate == c.subjectTemplate)
      && s.sendMode == c.sendMode.GetOr(DefaultSendMode)
      && s.delayMinutes == c.delayMinutes && s.recurringEveryDays == c.recurringEveryDays
      && s.recurringTimes == c.recurringTimes
  }

  /** A stage column shows the indexed stage of a nonempty id, and nothing
      for an empty, absent or unknown id. */
  ghost predicate StageOf(shown: Option<Stage>, stageById: map<string, Stage>, id: Option<string>)
  {
    && (shown.Some? <==> id.Some? && id.value != "" && id.value in stageById)
    && (shown.Some? ==> shown.value == stageById[id.value])
  }

  /** One row of the table, built with the page's defaults and overrides. */
  method SummarizeWorkflow(workflow: WorkflowRow, stageById: map<string, Stage>, actionRows: seq<ActionRow>)
    returns (summary: Summary)
    ensures SummaryOf(summary, workflow, stageById, actionRows)
  {
    var config := ConfigOf(workflow);
    var fromStage := LookupStage(stageById, config.fromStageId);
    var toStage := LookupStage(stageById, config.toStageId);
    var forWorkflow := (a: ActionRow) => a.workflowId == workflow.id;
    var isEmail := (a: ActionRow) => a.actionType == DraftEmailPatient;
    var actionsForWorkflow := Filter(actionRows, forWorkflow);
    var emailAction := Find(actionsForWorkflow, isEmail);
    assert forall a :: EmailActionTest(workflow.id)(a) == (forWorkflow(a) && isEmail(a));
    FindAfterFilter(actionRows, forWorkflow, isEmail, EmailActionTest(workflow.id));
    assert emailAction == EmailAction(actionRows, workflow.id);
    var subjectTemplate, sendMode, delayMinutes, recurringEveryDays, recurringTimes := EmailSettings(emailAction);
    summary := Summary(workflow.id, workflow.name, workflow.triggerType, workflow.active,
                       fromStage, toStage, config.pipeline, subjectTemplate, sendMode,
                       delayMinutes, recurringEveryDays, recurringTimes);
  }

  /** The e-mail columns: defaults, overridden by what the e-mail action's
      configuration holds. */
  method EmailSettings(emailAction: Option<ActionRow>)
    returns (subjectTemplate: Option<string>, sendMode: string, delayMinutes: Option<int>,
             recurringEveryDays: Option<int>, recurringTimes: Option<int>)
    ensures EmailColumns(Summary("", "", "", false, None, None, None, subjectTemplate, sendMode,
                                 delayMinutes, recurringEveryDays, recurringTimes), emailAction)
  {
    subjectTemplate := None;
    sendMode := DefaultSendMode;
    delayMinutes := None;
    recurringEveryDays := None;
    recurringTimes := None;
    if emailAction.Some? {
      var actionConfig := ActionConfigOf(emailAction.value);
      if actionConfig.subjectTemplate.Some? && actionConfig.subjectTemplate.value != "" {
        subjectTemplate := actionConfig.subjectTemplate;
      }
      sendMode := actionConfig.sendMode.GetOr(DefaultSendMode);
      if actionConfig.delayMinutes.Some? {
        delayMinutes := actionConfig.delayMinutes;
      }
      if actionConfig.recurringEveryDays.Some? {
        recurringEveryDays := actionConfig.recurringEveryDays;
      }
      if actionConfig.recurringTimes.Some? {
        recurringTimes := actionConfig.recurringTimes;
      }
    }
  }

  /** The whole table: one summary per workflow row, in the rows' order. */
  method Summaries(stages: seq<Stage>, workflowRows: seq<WorkflowRow>, actionRows: seq<ActionRow>)
    returns (summaries: seq<Summary>)
    ensures |summaries| == |workflowRows|
    ensures forall i :: 0 <= i < |workflowRows| ==> SummaryOf(summaries[i], workflowRows[i], StageIndex(stages), actionRows)
  {
    var stageById := BuildStageIndex(stages);
    summaries := [];
    for i := 0 to |workflowRows|
      invariant |summaries| == i
      invariant forall k :: 0 <= k < i ==> SummaryOf(summaries[k], workflowRows[k], stageById, actionRows)
    {
      var s := SummarizeWorkflow(workflowRows[i], stageById, actionRows);
      summaries := summaries + [s];
    }
  }

  // ---------------------------------------------------------------------
  // The send-mode column
  // ---------------------------------------------------------------------

  /** The send-mode column of a summary. */
  method RenderSendMode(summary: Summary) returns (text: string)
    ensures summary.sendMode == "delay" ==>
              if summary.delayMinutes.Some? && summary.delayMinutes.value > 0
              then text == "Delay " + IntToString(summary.delayMinutes.value) + " min"
              else text == "Delay"
    ensures summary.sendMode == "recurring" ==>
              var days := summary.recurringEveryDays.Some? && summary.recurringEveryDays.value > 0;
              var times := summary.recurringTimes.Some? && summary.recurringTimes.value > 0;
              && (days && times ==> text == "Every " + IntToString(summary.recurringEveryDays.value) + " days, "
                                            + IntToString(summary.recurringTimes.value) + " times")
              && (days && !times ==> text == "Every " + IntToString(summary.recurringEveryDays.value) + " days")
              && (!days && times ==> text == IntToString(summary.recurringTimes.value) + " times")
              && (!days && !times ==> text == "Recurring")
    ensures summary.sendMode != "delay" && summary.sendMode != "recurring" ==> text == "Immediate"
  {
    if summary.sendMode == "delay" {
      if summary.delayMinutes.Some? && summary.delayMinutes.value > 0 {
        return "Delay " + IntToString(summary.delayMinutes.value) + " min";
      }
      return "Delay";
    }
    if summary.sendMode == "recurring" {
      var parts: seq<string> := [];
      if summary.recurringEveryDays.Some? && summary.recurringEveryDays.value > 0 {
        parts := parts + ["Every " + IntToString(summary.recurringEveryDays.value) + " days"];
      }
      if summary.recurringTimes.Some? && summary.recurringTimes.value > 0 {
        parts := parts + [IntToString(summary.recurringTimes.value) + " times"];
      }
      if |parts| > 0 {
        JoinTwo(parts, ", ");
        return Join(parts, ", ");
      }
      return "Recurring";
    }
    return "Immediate";
  }

  /** `join` of one or two parts. */
  lemma JoinTwo(parts: seq<string>, sep: string)
    requires 1 <= |parts| <= 2
    ensures |parts| == 1 ==> Join(parts, sep) == parts[0]
    ensures |parts| == 2 ==> Join(parts, sep) == parts[0] + sep + parts[1]
  {
    if |parts| == 2 {
      assert parts[1..] == [parts[1]];
    }
  }

  // ---------------------------------------------------------------------
  // Deleting
  // ---------------------------------------------------------------------

  /** The table after a workflow was deleted: every other summary, in order. */
  function RemoveWorkflow(ws: seq<Summary>, id: string): (r: seq<Summary>)
    ensures forall i :: 0 <= i < |r| ==> r[i] in ws && r[i].id != id
    ensures forall i :: 0 <= i < |ws| && ws[i].id != id ==> ws[i] in r
  {
    FilterKeepsPassing(ws, (w: Summary) => w.id != id);
    Filter(ws, (w: Summary) => w.id != id)
  }

  /** Removing an id that is not in the table leaves it as it was. */
  lemma RemoveAbsentIsIdentity(ws: seq<Summary>, id: string)
    requires forall i :: 0 <= i < |ws| ==> ws[i].id != id
    ensures RemoveWorkflow(ws, id) == ws
  {
    FilterKeepsAll(ws, (w: Summary) => w.id != id);
  }

  /** Removing keeps the order of the summaries that stay. */
  lemma RemoveKeepsOrder(ws: seq<Summary>, id: string, before: (Summary, Summary) -> bool)
    requires forall i, j :: 0 <= i < j < |ws| ==> before(ws[i], ws[j])
    ensures var r := RemoveWorkflow(ws, id);
            forall i, j :: 0 <= i < j < |r| ==> before(r[i], r[j])
  {
    FilterKeepsPairwise(ws, (w: Summary) => w.id != id, before);
  }

  /** How loading the three tables ended: each `data` may be missing, or
      the request threw with an optional message. */
  datatype LoadOutcome =
    | Fetched(stages: Option<seq<Stage>>, workflowRows: Option<seq<WorkflowRow>>, actionRows: Option<seq<ActionRow>>)
    | Threw(message: Option<string>)

  /** The page's state. */
  class WorkflowsPage {
    var workflows: seq<Summary>
    var error: Option<string>
    var workflowToDelete: Option<Summary>

    constructor ()
      ensures workflows == [] && error == None && workflowToDelete == None
    {
      workflows := [];
      error := None;
      workflowToDelete := None;
    }

    /** Loads the table; missing data counts as no rows. */
    method Load(outcome: LoadOutcome)
      modifies this
      ensures workflowToDelete == old(workflowToDelete)
      ensures outcome.Threw? ==> error == Some(ErrorText(outcome.message, LoadFailedMessage)) && workflows == old(workflows)
      ensures outcome.Fetched? ==>
                var rows := outcome.workflowRows.GetOr([]);
                && error == None && |workflows| == |rows|
                && forall i :: 0 <= i < |rows| ==>
                     SummaryOf(workflows[i], rows[i], StageIndex(outcome.stages.GetOr([])), outcome.actionRows.GetOr([]))
    {
      error := None;
      match outcome
      case Threw(message) =>
        error := Some(ErrorText(message, LoadFailedMessage));
      case Fetched(stages, workflowRows, actionRows) =>
        workflows := Summaries(stages.GetOr([]), workflowRows.GetOr([]), actionRows.GetOr([]));
    }

    /** Opens the confirmation dialog for one summary. */
    method AskToDelete(summary: Summary)
      modifies this
      ensures workflowToDelete == Some(summary)
      ensures workflows == old(workflows) && error == old(error)
    {
      workflowToDelete := Some(summary);
    }

    /** Closes the dialog without deleting. */
    method CancelDelete()
      modifies this
      ensures workflowToDelete == None
      ensures workflows == old(workflows) && error == old(error)
    {
      workflowToDelete := None;
    }

    /** The dialog's delete button, given how deleting the workflow row
        ended. Deleting the workflow's actions afterwards is not checked. */
    method ConfirmDelete(deleted: WriteResult)
      requires workflowToDelete.Some?
      modifies this
      ensures deleted.WriteFailed? ==>
                error == Some(DeleteFailedMessage) && workflows == old(workflows) && workflowToDelete == old(workflowToDelete)
      ensures deleted.Written? ==>
                workflows == RemoveWorkflow(old(workflows), old(workflowToDelete).value.id)
                && workflowToDelete == None && error == old(error)
    {
      var target := workflowToDelete.value;
      if deleted.WriteFailed? {
        error := Some(DeleteFailedMessage);
        return;
      }
      workflows := RemoveWorkflow(workflows, target.id);
      workflowToDelete := None;
    }
  }
}
