/**
 * The commands a sync sends to the workflow engine after a save
 * (`schedule_sync?` / `schedule_sync`) and after a soft delete
 * (`perform_post_discard_sync`). A command is the value the source passes to
 * `Temporal.start_workflow`; the engine itself is not modelled.
 */
module Orchestration {
  import opened Wrappers
  import opened Decimal
  import opened Schedule
  import opened Lifecycle

  /** The second argument of a terminate request: the sync's id, or its running workflow's id. */
  datatype TerminateTarget = SyncIdArg(id: int) | WorkflowIdArg(workflowId: Option<string>)

  datatype Command =
    | StartScheduleSync(syncId: int)                               // ScheduleSyncWorkflow, id
    | StartTerminate(target: TerminateTarget, workflowId: string)   // TerminateWorkflow, target, workflow_id:

  /** Which columns the save just changed (`new_record?`, `saved_change_to_*`). */
  datatype SavedChanges = SavedChanges(
    newRecord: bool,
    syncInterval: bool,
    syncIntervalUnit: bool,
    cronExpression: bool,
    status: bool)

  const TERMINATE_PREFIX := "terminate-"

  /** The workflow id of the terminate request sent when a sync is disabled. */
  function TerminateWorkflowId(id: int): string {
    TERMINATE_PREFIX + IntToString(id)
  }

  /** The sync id a terminate workflow id refers to, when it has the `terminate-<id>` shape. */
  function SyncIdOfTerminateWorkflowId(wid: string): Option<int> {
    if |TERMINATE_PREFIX| <= |wid| && wid[..|TERMINATE_PREFIX|] == TERMINATE_PREFIX
    then ParseInt(wid[|TERMINATE_PREFIX|..])
    else None
  }

  /** The terminate workflow id identifies its sync: reading it back gives the id. */
  lemma TerminateWorkflowIdRoundTrip(id: int)
    ensures SyncIdOfTerminateWorkflowId(TerminateWorkflowId(id)) == Some(id)
  {
    var wid := TerminateWorkflowId(id);
    assert wid[..|TERMINATE_PREFIX|] == TERMINATE_PREFIX;
    assert wid[|TERMINATE_PREFIX|..] == IntToString(id);
    IntToStringRoundTrip(id);
  }

  /** Distinct syncs get distinct terminate workflow ids. */
  lemma TerminateWorkflowIdInjective(i: int, j: int)
    ensures TerminateWorkflowId(i) == TerminateWorkflowId(j) <==> i == j
  {
    TerminateWorkflowIdRoundTrip(i);
    TerminateWorkflowIdRoundTrip(j);
  }

  /** `schedule_sync?`: a scheduling column, the status, or the record itself is new, and the sync is not manual. */
  predicate ShouldSchedule(scheduleType: ScheduleType, changes: SavedChanges) {
    && (changes.newRecord || changes.syncInterval || changes.syncIntervalUnit
        || changes.cronExpression || changes.status)
    && scheduleType != Manual
  }

  /** `schedule_sync`: terminate on a change to disabled, else start on a new record or a change to pending. */
  function ScheduleSyncCommand(id: int, changes: SavedChanges, status: Status): Option<Command> {
    if changes.status && status == Disabled then
      Some(StartTerminate(SyncIdArg(id), TerminateWorkflowId(id)))
    else if changes.newRecord || (changes.status && status == Pending) then
      Some(StartScheduleSync(id))
    else
      None
  }

  /** The command a save emits: `schedule_sync` guarded by `schedule_sync?`. */
  function AfterSaveCommand(id: int, scheduleType: ScheduleType, changes: SavedChanges, status: Status): Option<Command> {
    if ShouldSchedule(scheduleType, changes) then ScheduleSyncCommand(id, changes, status) else None
  }

  /** A manual sync never schedules or terminates anything on save. */
  lemma ManualNeverSchedules(id: int, changes: SavedChanges, status: Status)
    ensures AfterSaveCommand(id, Manual, changes, status) == None
  {
  }

  /** The three outcomes of a save, each exactly characterised. */
  lemma AfterSaveCommandSpec(id: int, scheduleType: ScheduleType, changes: SavedChanges, status: Status)
    ensures var r := AfterSaveCommand(id, scheduleType, changes, status);
      && (r == Some(StartTerminate(SyncIdArg(id), TerminateWorkflowId(id))) <==>
            scheduleType != Manual && changes.status && status == Disabled)
      && (r == Some(StartScheduleSync(id)) <==>
            && scheduleType != Manual
            && !(changes.status && status == Disabled)
            && (changes.newRecord || (changes.status && status == Pending)))
      && (r.Some? ==> r == Some(StartScheduleSync(id)) ||
                      r == Some(StartTerminate(SyncIdArg(id), TerminateWorkflowId(id))))
  {
  }

  /**
   * A change to the interval, its unit or the cron expression alone passes the
   * `schedule_sync?` guard but emits no command.
   */
  lemma ScheduleOnlyChangeEmitsNothing(id: int, scheduleType: ScheduleType, changes: SavedChanges, status: Status)
    requires !changes.newRecord && !changes.status
    ensures AfterSaveCommand(id, scheduleType, changes, status) == None
  {
  }

  /**
   * The terminate request of `perform_post_discard_sync`, keyed by the sync's
   * workflow id. A `nil` workflow id is passed as the target and interpolates
   * as the empty string.
   */
  function PostDiscardCommand(workflowId: Option<string>): (c: Command)
    ensures c.StartTerminate? && c.target == WorkflowIdArg(workflowId)
    ensures |c.workflowId| == |TERMINATE_PREFIX| + |workflowId.GetOr("")|
    ensures c.workflowId[..|TERMINATE_PREFIX|] == TERMINATE_PREFIX
    ensures c.workflowId[|TERMINATE_PREFIX|..] == workflowId.GetOr("")
  {
    StartTerminate(WorkflowIdArg(workflowId), TERMINATE_PREFIX + workflowId.GetOr(""))
  }

  /**
   * Without a workflow id, the post-discard request has a `nil` target and the
   * bare id `terminate-`, the same for every such sync.
   */
  lemma PostDiscardWithoutWorkflowId()
    ensures PostDiscardCommand(None) == StartTerminate(WorkflowIdArg(None), "terminate-")
  {
  }

  /** With workflow ids set, distinct workflows get distinct post-discard requests. */
  lemma PostDiscardCommandInjective(w1: string, w2: string)
    ensures PostDiscardCommand(Some(w1)).workflowId == PostDiscardCommand(Some(w2)).workflowId <==> w1 == w2
  {
    var c1, c2 := PostDiscardCommand(Some(w1)), PostDiscardCommand(Some(w2));
    if c1.workflowId == c2.workflowId {
      assert w1 == c1.workflowId[|TERMINATE_PREFIX|..];
    }
  }

  /** The command concerns the sync with this id and workflow id. */
  predicate Concerns(c: Command, id: int, workflowId: Option<string>) {
    match c
    case StartScheduleSync(sid) => sid == id
    case StartTerminate(target, _) => target == SyncIdArg(id) || target == WorkflowIdArg(workflowId)
  }

  /** Every command a save emits concerns the saved sync. */
  lemma AfterSaveCommandConcernsSync(id: int, workflowId: Option<string>, scheduleType: ScheduleType, changes: SavedChanges, status: Status)
    ensures var r := AfterSaveCommand(id, scheduleType, changes, status);
      r.Some? ==> Concerns(r.value, id, workflowId)
  {
  }
}
