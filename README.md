# Sync lifecycle and catalog resolution

A Dafny model of the core of the sync back end in multiwoven's server. A *sync* moves data from a source connector to a destination connector on a schedule. The model has two parts.

The first part is the `Sync` model of `server/app/models/sync.rb`:
- the AASM status machine over `pending`, `healthy`, `failed` and `disabled`, with the whiny events `complete`, `fail`, `disable` and `enable`;
- `set_defaults`, which gives a new record its initial status;
- `schedule_cron_expression`, which turns a schedule into a cron trigger string;
- the `after_save` scheduling decision (`schedule_sync?` and `schedule_sync`);
- the `after_discard` hook (`perform_post_discard_sync`);
- the `stream_name_exists?` validation;
- the `to_protocol` execution descriptor.

The second part is the `Catalog` behaviour that `server/spec/models/catalog_spec.rb` pins down:
- first-match stream lookup by name;
- stream-to-protocol translation, with rate limits inherited field by field from the catalog;
- the flag-guarded default cursor field;
- the presence validations.

Modules:
- `Wrappers` holds Option and Result.
- `Decimal` renders integers as Ruby's `"#{n}"` does, and parses them back.
- `Catalog`, `Schedule` and `Lifecycle` are pure functions and lemmas.
- `Orchestration` holds the commands sent to the workflow engine and the decision of which one a save emits.
- `SyncRecord` holds the descriptor, the validation and the class `Sync`. Its methods change the status, the error list, the run history and the command log in place.

How the environment is represented:
- Calls to `Temporal.start_workflow` are `Command` values.
  - A command the engine accepts is appended to `Sync.sent`.
  - An engine failure is a boolean parameter `engineFails`. The caught failure is appended to `Sync.reports`, which stands for the exception reporter. It is never raised.
- Rails dirty tracking (`new_record?`, `saved_change_to_*`) is a `SavedChanges` record of booleans passed in.
- Model, source and destination `to_protocol` values are opaque values passed in.

## Model

| member | source | states |
|---|---|---|
| `Decimal.NatToString` | server/app/models/sync.rb:94 | the rendering of a natural number is non-empty and all digits, a single digit below 10 and otherwise without a leading zero |
| `Decimal.IntToStringRoundTrip` | server/app/models/sync.rb:94 | parsing the rendering of any integer gives that integer back, so `id.to_s` loses nothing |
| `Decimal.IntToStringInjective` | server/app/models/sync.rb:94 | two integers have the same rendering exactly when they are equal |
| `Catalog.FindIn` | server/spec/models/catalog_spec.rb:39-47 | the lookup is absent exactly when no stream has that exact name; a found stream is a member of the list and carries the queried name |
| `Catalog.FindInReturnsFirstMatch` | server/spec/models/catalog_spec.rb:39-42 | when streams share a name, the lookup returns the first one listed, unchanged |
| `Catalog.FindStreamByNameIsFirstMatch` | server/spec/models/catalog_spec.rb:39-47 | the catalog lookup succeeds exactly when a first match exists, and then returns the stream at that position |
| `Catalog.FindStreamByNameExamples` | server/spec/models/catalog_spec.rb:30-47 | "profile" is found with its other attributes intact, and "non_existent" gives nil |
| `Catalog.StreamToProtocolCopiesFields` | server/spec/models/catalog_spec.rb:80-85 | name, url, json_schema, request_method, batch_support and batch_size are copied from the stream unchanged; a key the stream lacks stays absent (`nil`) |
| `Catalog.RateLimitInheritance` | server/spec/models/catalog_spec.rb:86-99 | each of the three rate-limit fields is taken from the stream when the stream declares it, and from the catalog-level default otherwise, independently of the other two |
| `Catalog.RateLimitAbsentOnlyIfBothAbsent` | server/spec/models/catalog_spec.rb:86-99 | a resolved rate-limit field is missing only when both the stream and the catalog lack it |
| `Catalog.StreamToProtocolExamples` | server/spec/models/catalog_spec.rb:50-100 | stream limits 10/minute/1 win over catalog limits 5/minute/2; with the stream's limits removed, 5/minute/2 is used |
| `Catalog.DefaultCursorField` | server/spec/models/catalog_spec.rb:104-167 | the result is present only when `source_defined_cursor` is true, and is then the catalog's `default_cursor_field` |
| `Catalog.DefaultCursorFieldExamples` | server/spec/models/catalog_spec.rb:104-168 | flag true gives "timestamp"; a missing flag gives nil; flag false gives nil although a field is present |
| `Catalog.PresenceErrors` | server/spec/models/catalog_spec.rb:23-28 | workspace_id, connector_id and catalog are each reported exactly when they are nil, and catalog_hash exactly when it is blank |
| `Schedule.ParseUnitSpec` | server/app/models/sync.rb:105-114 | a raw unit names `minutes`, `hours` or `days` exactly when its lower-case form is that name |
| `Schedule.ScheduleCronExpression` | server/app/models/sync.rb:102-118 | a cron-expression schedule returns its stored expression verbatim; otherwise it fails exactly when the unit is nil or is not a known unit once lower-cased, and an unknown unit fails with `InvalidIntervalUnit` naming that unit and a nil one with `MissingIntervalUnit`, never with a fallback string; a successful interval schedule yields exactly `*/N * * * *`, `0 */N * * *` or `0 0 */N * *` for its unit, with N the rendered `sync_interval` |
| `Schedule.CronForRoundTrip` | server/app/models/sync.rb:105-114 | each derived trigger (`*/N * * * *`, `0 */N * * *`, `0 0 */N * *`) reads back as exactly its interval N and its unit |
| `Schedule.CronForInjective` | server/app/models/sync.rb:105-114 | two interval schedules get the same trigger exactly when their interval and unit are equal |
| `Schedule.IntervalTrigger` | server/app/models/sync.rb:105-114 | the trigger of a successful interval schedule is exactly `CronFor` of the stored `sync_interval` (rendered as `"#{n}"` renders it) and the unit the raw unit names, whatever its letter case; it reads back as that interval and unit |
| `Schedule.ValidScheduleHasTrigger` | server/app/models/sync.rb:33-36 | a cron or interval schedule that passes the schedule validations (a positive interval and a unit, or a cron expression that is not blank), with one of the enum's unit names, always yields a non-empty trigger |
| `Schedule.ScheduleCronExpressionExamples` | server/app/models/sync.rb:102-118 | 5 minutes gives `*/5 * * * *`; 2 hours gives `0 */2 * * *`; 1 day gives `0 0 */1 * *`; "MINUTES" is accepted; "weeks" raises; a cron schedule returns its expression |
| `Lifecycle.CompleteTable` | server/app/models/sync.rb:64-66 | `complete` moves pending and healthy to healthy and raises from every other status |
| `Lifecycle.FailTable` | server/app/models/sync.rb:68-70 | `fail` moves pending and healthy to failed and raises from every other status |
| `Lifecycle.DisableTable` | server/app/models/sync.rb:72-74 | `disable` moves pending, healthy and failed to disabled and raises from disabled and aborted |
| `Lifecycle.EnableTable` | server/app/models/sync.rb:76-78 | `enable` succeeds only from disabled and goes to pending |
| `Lifecycle.NoTerminalState` | server/app/models/sync.rb:58-79 | each of the four machine states has an event that succeeds |
| `Lifecycle.RunNeverAborts` | server/app/models/sync.rb:42-79 | no sequence of events leads from a machine state to `aborted` |
| `Lifecycle.AbortedIsStuck` | server/app/models/sync.rb:42-79 | from `aborted`, the first event of any sequence is refused |
| `Lifecycle.RecoveryFromFailed` | server/app/models/sync.rb:58-79 | a failed sync becomes healthy again only by first being disabled and then enabled |
| `Lifecycle.StatusCodeRoundTrip` | server/app/models/sync.rb:42 | the status enum codes 0 to 4 (disabled, healthy, pending, failed, aborted) and the statuses are in one-to-one correspondence |
| `Lifecycle.DefaultStatus` | server/app/models/sync.rb:98-100 | a status already set is kept; otherwise the initial state `pending` is used |
| `Orchestration.TerminateWorkflowIdRoundTrip` | server/app/models/sync.rb:127 | the `terminate-<id>` workflow id reads back as the sync's id |
| `Orchestration.TerminateWorkflowIdInjective` | server/app/models/sync.rb:127 | distinct syncs get distinct terminate workflow ids |
| `Orchestration.ManualNeverSchedules` | server/app/models/sync.rb:120-123 | a manual sync emits no command on save, whatever changed |
| `Orchestration.AfterSaveCommandSpec` | server/app/models/sync.rb:120-133 | a save emits a terminate command with workflow id `terminate-<id>` exactly when the sync is not manual and its status changed to disabled; it emits a start-schedule command exactly when the sync is not manual, is not being disabled, and is new or changed status to pending; it emits at most one command |
| `Orchestration.ScheduleOnlyChangeEmitsNothing` | server/app/models/sync.rb:120-133 | a save that changed only the interval, unit or cron expression emits nothing |
| `Orchestration.AfterSaveCommandConcernsSync` | server/app/models/sync.rb:125-133 | any command a save emits targets the saved sync |
| `Orchestration.PostDiscardCommand` | server/app/models/sync.rb:143-144 | the post-discard request terminates the sync's workflow id (possibly nil), and its own workflow id is `terminate-` followed by that id, or by nothing when it is nil |
| `Orchestration.PostDiscardWithoutWorkflowId` | server/app/models/sync.rb:143-144 | a sync without a workflow id sends target nil and workflow id `terminate-` |
| `Orchestration.PostDiscardCommandInjective` | server/app/models/sync.rb:143-144 | for set workflow ids, two post-discard requests share a workflow id exactly when the workflow ids are equal |
| `SyncRecord.ToProtocol` | server/app/models/sync.rb:81-96 | translation succeeds exactly when the destination has a catalog holding the stream name. The descriptor then has that stream's name, the fixed `insert` destination mode, a `sync_id` that is exactly the id's decimal rendering (`id.to_s`) and parses back to the id, the given model, source and destination values, and the sync's mode and cursor fields |
| `SyncRecord.ToProtocolStream` | server/app/models/sync.rb:87-89 | the descriptor's stream is the first stream of that name, with its rate limits resolved against the catalog |
| `SyncRecord.StreamNameErrors` | server/app/models/sync.rb:152-162 | no destination gives no error; a missing catalog gives exactly the `catalog` error; an unknown stream name gives exactly the `stream_name` error; otherwise there is no error |
| `SyncRecord.ValidatedSyncTranslates` | server/app/models/sync.rb:81-96 | a sync that passes the stream validation against its destination always translates to a descriptor |
| `SyncRecord.DiscardAll` | server/app/models/sync.rb:142 | every run is kept in order with its id and is marked discarded |
| `SyncRecord.Sync.constructor` | server/app/models/sync.rb:98-100 | a new record's status is the given status when set, else `pending`; it starts with no errors and no commands |
| `SyncRecord.Sync.FireEvent` | server/app/models/sync.rb:58-79 | an event updates `status` to the table's target, or returns the invalid-transition error and leaves `status` unchanged; the object invariant is kept |
| `SyncRecord.Sync.ValidateStreamName` | server/app/models/sync.rb:152-162 | `errors` gains exactly the stream-name errors; the object invariant is kept |
| `SyncRecord.Sync.Deliver` | server/app/models/sync.rb:134-139 | an engine call is either logged as sent or caught and reported; it never raises |
| `SyncRecord.Sync.AfterSave` | server/app/models/sync.rb:120-139 | the command the decision picks is sent, or is reported when the engine fails; nothing else changes, and every logged command concerns this sync |
| `SyncRecord.Sync.Save` | server/app/models/sync.rb:39-53 | a sync failing the stream validation is not saved and sends nothing; a valid one runs the after-save hook |
| `SyncRecord.Sync.PerformPostDiscard` | server/app/models/sync.rb:141-150 | all runs are discarded and exactly one terminate request is sent or reported |

## Left out

- The Temporal workflow engine, `Utils::ExceptionReporter` and `Rails.logger` are not modelled as I/O. A call to the engine is a `Command` value, and a caught failure is a `Report` value.
- ActiveRecord and Discard machinery is not modelled: associations, `default_scope`, `dependent: :destroy`, persistence, and the soft delete of the sync itself. `sync_runs.discard_all` is modelled only as marking each run discarded. A failure inside `discard_all`, which the same `rescue` would catch, is not modelled.
- The constructors of `Multiwoven::Integrations::Protocol` and the `to_protocol` values of the model, source and destination are opaque values. They are not built here.
- The `Catalog` model class is not part of this model. Its behaviour is taken from its test file.
  - Each stream record has a `name`; a record without one is not modelled. Every other key of a stream may be absent, and an absent descriptive key is copied to the protocol stream as absent.
  - JSON values other than the listed fields are opaque maps of strings.
  - The `catalog` payload is taken to be a hash with a `streams` list. An empty `{}` payload, which `presence: true` also rejects as blank, is not modelled: `PresenceErrors` reports `catalog` only when it is nil.
  - `source_defined_cursor` is a boolean or absent. Ruby truthiness of other JSON values is not modelled.
  - How `stream_to_protocol(nil)` fails is not shown. `ToProtocol` reports `StreamNotFound` instead.
- Presence and numericality validators (sync.rb:28-38) are not part of `Sync.Save`, which runs only `stream_name_exists?`. The schedule validators appear only as the predicate `ScheduleValid`.
- `aborted` is a value of the status enum that no event enters or leaves. It is kept as a status value: it has an enum code (`StatusCodeRoundTrip`), no event sequence reaches it (`RunNeverAborts`), and every event fired from it is refused (`AbortedIsStuck` and the four transition tables).
- `workflow_id` is neither validated nor listed among the schema's columns, so it may be nil; it is an `Option`, and a nil one is sent as a nil terminate target with the workflow id `terminate-`.
- A `nil` `sync_interval` or `cron_expression` is not modelled: both are taken to be set. A `nil` unit is modelled as `MissingIntervalUnit`, because `nil.downcase` raises.
- `ScheduleCronExpression` takes the unit as a raw string. In a stored record, `enum :sync_interval_unit` (sync.rb:44) already limits the unit to `minutes`, `hours`, `days` or nil. The `"MINUTES"` and `"weeks"` cases of `ScheduleCronExpressionExamples` therefore show what the method's text does with such strings, not values a record can hold.
- `String#downcase` is modelled on ASCII letters only. This gives the same result for the comparison: the only non-ASCII character that Ruby lower-cases to an ASCII letter is the Kelvin sign, which becomes `k`, and no unit name contains `k`.
- `Blank` treats only ASCII whitespace as blank. Ruby's `blank?` also treats Unicode spaces as blank.
- `src/views/Sidebar/Sidebar.tsx` and `src/views/Connectors/Sources/Sources.tsx` are UI rendering and are not modelled.

Where the code and the design description differ, the model follows the code:
- `schedule_cron_expression` does not special-case `manual`. A manual sync takes the interval branch.
  - `cron_expression?` is read as the `schedule_type` enum predicate, as the validation at sync.rb:36 uses it.
- A save that changes only the interval, its unit or the cron expression passes `schedule_sync?`, but `schedule_sync` emits no command for it (`ScheduleOnlyChangeEmitsNothing`).
- `new_record?` is an explicit flag. Inside a Rails `after_save` hook it is already false, so a new sync reaches the start command through its status change from nil to `pending`.
