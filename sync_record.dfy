/**
 * The Sync record: its attributes, the execution descriptor it builds
 * (`to_protocol`), the stream-name validation (`stream_name_exists?`), and
 * the object whose status, errors, run history and outgoing engine commands
 * change in place.
 */
module SyncRecord {
  import opened Wrappers
  import opened Decimal
  import opened Catalog
  import opened Schedule
  import opened Lifecycle
  import opened Orchestration

  datatype SyncMode = FullRefresh | Incremental

  /** The destination write mode; `insert` is the only one a sync uses. */
  datatype DestinationSyncMode = Insert

  /** The protocol values of the sync's model and connectors, opaque here. */
  datatype ModelProtocol = ModelProtocol(modelId: int)
  datatype ConnectorProtocol = ConnectorProtocol(connectorId: int)

  /** The destination connector: its protocol value and its current catalog, if any. */
  datatype Destination = Destination(protocol: ConnectorProtocol, catalog: Option<CatalogData>)

  /** The columns of a sync that none of the modelled operations change. */
  datatype SyncAttributes = SyncAttributes(
    id: int,
    workflowId: Option<string>,
    schedule: ScheduleConfig,
    streamName: string,
    syncMode: SyncMode,
    cursorField: Option<string>,
    currentCursorField: Option<string>)

  /** The execution descriptor handed to the execution engine. */
  datatype SyncConfig = SyncConfig(
    model: ModelProtocol,
    source: ConnectorProtocol,
    destination: ConnectorProtocol,
    stream: StreamProtocol,
    syncMode: SyncMode,
    destinationSyncMode: DestinationSyncMode,
    cursorField: Option<string>,
    currentCursorField: Option<string>,
    syncId: string)

  /** Translation needs the destination's catalog and a stream of that name in it. */
  datatype ProtocolError = CatalogMissing | StreamNotFound(streamName: string)

  /** `to_protocol`: the descriptor for the stream the sync names, in the destination's catalog. */
  function ToProtocol(attrs: SyncAttributes, model: ModelProtocol, source: ConnectorProtocol,
                      destination: Destination): (r: Result<SyncConfig, ProtocolError>)
    ensures destination.catalog.None? ==> r == Err(CatalogMissing)
    ensures r.Ok? <==> destination.catalog.Some? && HasStream(destination.catalog.value.streams, attrs.streamName)
    ensures r.Ok? ==>
      && r.value.stream.name == attrs.streamName
      && r.value.destinationSyncMode == Insert
      && r.value.syncId == IntToString(attrs.id)
      && ParseInt(r.value.syncId) == Some(attrs.id)
      && r.value.model == model && r.value.source == source
      && r.value.destination == destination.protocol
      && r.value.syncMode == attrs.syncMode
      && r.value.cursorField == attrs.cursorField
      && r.value.currentCursorField == attrs.currentCursorField
  {
    match destination.catalog
    case None => Err(CatalogMissing)
    case Some(catalog) =>
      match FindStreamByName(catalog, attrs.streamName)
      case None => Err(StreamNotFound(attrs.streamName))
      case Some(stream) =>
        IntToStringRoundTrip(attrs.id);
        Ok(SyncConfig(
          model, source, destination.protocol,
          StreamToProtocol(catalog, stream),
          attrs.syncMode, Insert,
          attrs.cursorField, attrs.currentCursorField,
          IntToString(attrs.id)))
  }

  /** The descriptor's stream is the first stream of that name, with its rate limits resolved against the catalog. */
  lemma ToProtocolStream(attrs: SyncAttributes, model: ModelProtocol, source: ConnectorProtocol,
                         destination: Destination, i: int)
    requires destination.catalog.Some?
    requires FirstMatch(destination.catalog.value.streams, attrs.streamName, i)
    ensures ToProtocol(attrs, model, source, destination).Ok?
    ensures ToProtocol(attrs, model, source, destination).value.stream ==
              StreamToProtocol(destination.catalog.value, destination.catalog.value.streams[i])
  {
    FindInReturnsFirstMatch(destination.catalog.value.streams, attrs.streamName, i);
  }

  // ---- Validation of the stream name ----

  datatype ErrorAttribute = CatalogAttr | StreamNameAttr

  datatype ValidationError = ValidationError(attribute: ErrorAttribute, message: string)

  const CATALOG_MISSING_MESSAGE := "Catalog is missing"
  const STREAM_NAME_MESSAGE := "Add a valid stream_name associated with destination connector"

  /** The errors `stream_name_exists?` adds. */
  function StreamNameErrors(destination: Option<Destination>, streamName: string): (errs: seq<ValidationError>)
    ensures |errs| <= 1
    ensures errs == [] <==>
              destination.None? ||
              (destination.value.catalog.Some? && HasStream(destination.value.catalog.value.streams, streamName))
    ensures errs == [ValidationError(CatalogAttr, CATALOG_MISSING_MESSAGE)] <==>
              destination.Some? && destination.value.catalog.None?
    ensures errs == [ValidationError(StreamNameAttr, STREAM_NAME_MESSAGE)] <==>
              && destination.Some? && destination.value.catalog.Some?
              && !HasStream(destination.value.catalog.value.streams, streamName)
  {
    match destination
    case None => []
    case Some(dest) =>
      match dest.catalog
      case None => [ValidationError(CatalogAttr, CATALOG_MISSING_MESSAGE)]
      case Some(catalog) =>
        if FindStreamByName(catalog, streamName).None?
        then [ValidationError(StreamNameAttr, STREAM_NAME_MESSAGE)]
        else []
  }

  /** A sync that passes the stream validation against its destination can always be translated. */
  lemma ValidatedSyncTranslates(attrs: SyncAttributes, model: ModelProtocol, source: ConnectorProtocol,
                                destination: Destination)
    requires StreamNameErrors(Some(destination), attrs.streamName) == []
    ensures ToProtocol(attrs, model, source, destination).Ok?
  {
  }

  // ---- The record's mutable state ----

  datatype SyncRun = SyncRun(id: int, discarded: bool)

  /** A failure of the workflow engine, caught and sent to the exception reporter. */
  datatype Report = Report(syncId: int, failed: Command)

  /** `sync_runs.discard_all`: every run kept, in order, and marked discarded. */
  function DiscardAll(runs: seq<SyncRun>): (r: seq<SyncRun>)
    ensures |r| == |runs|
    ensures forall i :: 0 <= i < |r| ==> r[i].discarded && r[i].id == runs[i].id
  {
    seq(|runs|, i requires 0 <= i < |runs| => runs[i].(discarded := true))
  }

  class Sync {
    const attrs: SyncAttributes
    var status: Status
    var errors: seq<ValidationError>
    var syncRuns: seq<SyncRun>
    /** Commands the workflow engine accepted. */
    var sent: seq<Command>
    /** Engine failures caught and reported. */
    var reports: seq<Report>

    /** Every command and every report concerns this sync. */
    ghost predicate Valid()
      reads this
    {
      && (forall c :: c in sent ==> Concerns(c, attrs.id, attrs.workflowId))
      && (forall r :: r in reports ==> r.syncId == attrs.id && Concerns(r.failed, attrs.id, attrs.workflowId))
    }

    /** A new record, after `set_defaults`. */
    constructor (attrs: SyncAttributes, given: Option<Status>, runs: seq<SyncRun>)
      ensures Valid()
      ensures this.attrs == attrs && status == DefaultStatus(given)
      ensures errors == [] && syncRuns == runs && sent == [] && reports == []
    {
      this.attrs := attrs;
      status := given.GetOr(INITIAL_STATUS);
      errors := [];
      syncRuns := runs;
      sent := [];
      reports := [];
    }

    /** An AASM event: moves the status along the table, or raises and leaves it unchanged. */
    method FireEvent(e: Event) returns (r: Result<Status, TransitionError>)
      requires Valid()
      modifies this`status
      ensures Valid()
      ensures r == Fire(old(status), e)
      ensures status == (if r.Ok? then r.value else old(status))
    {
      if status in Sources(e) {
        status := Target(e);
        r := Ok(status);
      } else {
        r := Err(InvalidTransition(e, status));
      }
    }

    /** `stream_name_exists?`: appends the stream-name errors to `errors`. */
    method ValidateStreamName(destination: Option<Destination>)
      requires Valid()
      modifies this`errors
      ensures Valid()
      ensures errors == old(errors) + StreamNameErrors(destination, attrs.streamName)
    {
      if destination.None? {
        return;
      }
      var catalog := destination.value.catalog;
      if catalog.None? {
        errors := errors + [ValidationError(CatalogAttr, CATALOG_MISSING_MESSAGE)];
      } else if FindStreamByName(catalog.value, attrs.streamName).None? {
        errors := errors + [ValidationError(StreamNameAttr, STREAM_NAME_MESSAGE)];
      }
    }

    /** One call to the workflow engine; a failure is caught and reported, never raised. */
    method Deliver(c: Command, engineFails: bool)
      requires Valid() && Concerns(c, attrs.id, attrs.workflowId)
      modifies this`sent, this`reports
      ensures Valid()
      ensures sent == old(sent) + (if engineFails then [] else [c])
      ensures reports == old(reports) + (if engineFails then [Report(attrs.id, c)] else [])
    {
      if engineFails {
        reports := reports + [Report(attrs.id, c)];
      } else {
        sent := sent + [c];
      }
    }

    /** The `after_save` hook: `schedule_sync` when `schedule_sync?` holds. */
    method AfterSave(changes: SavedChanges, engineFails: bool)
      requires Valid()
      modifies this`sent, this`reports
      ensures Valid()
      ensures var cmd := AfterSaveCommand(attrs.id, attrs.schedule.scheduleType, changes, status);
        && sent == old(sent) + (if cmd.Some? && !engineFails then [cmd.value] else [])
        && reports == old(reports) + (if cmd.Some? && engineFails then [Report(attrs.id, cmd.value)] else [])
    {
      if !ShouldSchedule(attrs.schedule.scheduleType, changes) {
        return;
      }
      if changes.status && status == Disabled {
        Deliver(StartTerminate(SyncIdArg(attrs.id), TerminateWorkflowId(attrs.id)), engineFails);
      } else if changes.newRecord || (changes.status && status == Pending) {
        Deliver(StartScheduleSync(attrs.id), engineFails);
      }
    }

    /**
     * A save: validation clears and recomputes `errors`; an invalid sync is not
     * saved and sends nothing; a valid one runs the `after_save` hook.
     */
    method Save(destination: Option<Destination>, changes: SavedChanges, engineFails: bool) returns (saved: bool)
      requires Valid()
      modifies this`errors, this`sent, this`reports
      ensures Valid()
      ensures errors == StreamNameErrors(destination, attrs.streamName)
      ensures saved <==> errors == []
      ensures !saved ==> sent == old(sent) && reports == old(reports)
      ensures saved ==>
        var cmd := AfterSaveCommand(attrs.id, attrs.schedule.scheduleType, changes, status);
        && sent == old(sent) + (if cmd.Some? && !engineFails then [cmd.value] else [])
        && reports == old(reports) + (if cmd.Some? && engineFails then [Report(attrs.id, cmd.value)] else [])
    {
      errors := [];
      ValidateStreamName(destination);
      saved := errors == [];
      if saved {
        AfterSave(changes, engineFails);
      }
    }

    /** The `after_discard` hook: discard the run history, then request termination of the workflow. */
    method PerformPostDiscard(engineFails: bool)
      requires Valid()
      modifies this`syncRuns, this`sent, this`reports
      ensures Valid()
      ensures syncRuns == DiscardAll(old(syncRuns))
      ensures sent == old(sent) + (if engineFails then [] else [PostDiscardCommand(attrs.workflowId)])
      ensures reports == old(reports) + (if engineFails then [Report(attrs.id, PostDiscardCommand(attrs.workflowId))] else [])
      ensures |sent| + |reports| == |old(sent)| + |old(reports)| + 1
    {
      syncRuns := DiscardAll(syncRuns);
      Deliver(PostDiscardCommand(attrs.workflowId), engineFails);
    }
  }
}
