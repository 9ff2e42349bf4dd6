/**
 The projection of driver stream events into domain events.

 Small fields go into the payload. A large field goes in only while it is small enough; beyond the
 limit it is left out, provided the payload can refer to the logged event that still has it.
 */
module StreamProjection {
  import opened Wrappers
  import opened DriverEvents
  import opened StreamRefs

  const PAYLOAD_INLINE_LIMIT_BYTES := 8 * 1024

  /** The fields a projected payload can have. */
  datatype Name =
    | SessionId | RoleId | EventSequence | StreamSequenceNumber | PayloadRef
    | PromptLength | StopReason | Reason | ToolCallId | Title | ToolKind | Status | ToolName
    | CurrentModeId | UpdatedAt | Used | Size | SourceEventType
    | Locations | RawInput | RawOutput | Content | Entries | AvailableCommands | ConfigOptions
    | CostField | Text | ExitStatus | Raw

  /** The fields of unbounded size. */
  predicate IsLarge(name: Name) {
    match name
    case Locations | RawInput | RawOutput | Content | Entries | AvailableCommands | ConfigOptions => true
    case CostField | Text | ExitStatus | Raw => true
    case _ => false
  }

  type Fields = map<string, Json>
  type Record = map<Name, Json>

  datatype ProjectedEvent = ProjectedEvent(
    event_type: string,
    subject_id: string,
    run_id: Option<string>,
    task_id: Option<string>,
    payload: Record,
    created_at: Timestamp)

  /** The branches of the projection. */
  datatype Branch =
    | TurnStarted | TurnCompleted | TurnFailed | InterruptRequested | ToolCall | ToolCallUpdate
    | AgentMessage | AgentThought | UserMessage | Plan | Commands | Mode | Config | SessionInfo
    | Usage | Stderr | Disconnect | OtherDriver | Unknown

  function BranchOf(eventType: string): Branch {
    match eventType
    case "driver.turn_started" => TurnStarted
    case "turn_started" => TurnStarted
    case "driver.turn_completed" => TurnCompleted
    case "turn_completed" => TurnCompleted
    case "driver.turn_failed" => TurnFailed
    case "turn_failed" => TurnFailed
    case "driver.interrupt_requested" => InterruptRequested
    case "tool_call" => ToolCall
    case "tool_call_update" => ToolCallUpdate
    case "agent_message_chunk" => AgentMessage
    case "agent_thought_chunk" => AgentThought
    case "user_message_chunk" => UserMessage
    case "plan" => Plan
    case "available_commands_update" => Commands
    case "current_mode_update" => Mode
    case "config_option_update" => Config
    case "session_info_update" => SessionInfo
    case "usage_update" => Usage
    case "stderr" => Stderr
    case "disconnect" => Disconnect
    case t => if "driver." <= t && t != "driver.session_update_unknown" then OtherDriver else Unknown
  }

  function RawPayload(event: DriverStreamEvent): Option<Fields> {
    AsRecord(event.payload)
  }

  function Update(event: DriverStreamEvent): Option<Fields> {
    AsRecord(Get(RawPayload(event), "update"))
  }

  function ToolStatusType(event: DriverStreamEvent): string {
    var status := Get(Update(event), "status");
    if status == Some(JStr("completed")) then "driver.tool_completed"
    else if status == Some(JStr("failed")) then "driver.tool_failed"
    else "driver.tool_progress"
  }

  function ProjectedType(event: DriverStreamEvent): string {
    match BranchOf(event.event_type)
    case TurnStarted => "driver.turn_started"
    case TurnCompleted => "driver.turn_completed"
    case TurnFailed => "driver.turn_failed"
    case InterruptRequested => "driver.interrupt_requested"
    case ToolCall => "driver.tool_started"
    case ToolCallUpdate => ToolStatusType(event)
    case AgentMessage => "driver.agent_message_chunk"
    case AgentThought => "driver.agent_thought_chunk"
    case UserMessage => "driver.user_message_chunk"
    case Plan => "driver.plan_updated"
    case Commands => "driver.available_commands_updated"
    case Mode => "driver.mode_changed"
    case Config => "driver.config_options_changed"
    case SessionInfo => "driver.session_info_changed"
    case Usage => "driver.usage_updated"
    case Stderr => "driver.stderr"
    case Disconnect => "driver.disconnected"
    case OtherDriver => event.event_type
    case Unknown => "driver.session_update_unknown"
  }

  /** `a ?? b` */
  function Coalesce(a: Option<Json>, b: Option<Json>): Option<Json> {
    if a.None? || a.value.JNull? then b else a
  }

  function StringField(name: Name, value: Option<Json>): (r: Record)
    ensures r.Keys <= {name}
  {
    if NonemptyString(value).Some? then map[name := value.value] else map[]
  }

  function NumberField(name: Name, value: Option<Json>): (r: Record)
    ensures r.Keys <= {name}
  {
    if value.Some? && value.value.JNum? then map[name := value.value] else map[]
  }

  function Field(name: Name, value: Option<Json>): (r: Record)
    ensures r.Keys <= {name}
  {
    if value.Some? then map[name := value.value] else map[]
  }

  function ToolNameOf(update: Option<Fields>): Option<Json> {
    Get(AsRecord(Get(AsRecord(Get(update, "_meta")), "claudeCode")), "toolName")
  }

  function ToolStrings(update: Option<Fields>): Record {
    StringField(ToolCallId, Get(update, "toolCallId")) +
    StringField(Title, Get(update, "title")) +
    StringField(ToolKind, Get(update, "kind")) +
    StringField(Status, Get(update, "status")) +
    StringField(ToolName, ToolNameOf(update))
  }

  /** The fields of bounded size, branch by branch. */
  function SmallFields(branch: Branch, event: DriverStreamEvent): Record {
    var raw, update := RawPayload(event), Update(event);
    match branch
    case TurnStarted => NumberField(PromptLength, Get(raw, "prompt_length"))
    case TurnCompleted => StringField(StopReason, Coalesce(Get(raw, "stop_reason"), Get(update, "stopReason")))
    case TurnFailed =>
      StringField(Reason, Coalesce(Coalesce(Get(update, "reason"), Get(raw, "error")), Get(raw, "reason")))
    case InterruptRequested => StringField(Reason, Get(raw, "reason"))
    case ToolCall | ToolCallUpdate => ToolStrings(update)
    case Mode => StringField(CurrentModeId, Get(update, "currentModeId"))
    case SessionInfo => StringField(Title, Get(update, "title")) + StringField(UpdatedAt, Get(update, "updatedAt"))
    case Usage => NumberField(Used, Get(update, "used")) + NumberField(Size, Get(update, "size"))
    case Unknown => map[SourceEventType := JStr(event.event_type)]
    case _ => map[]
  }

  function ToolContents(update: Option<Fields>): Record {
    Field(Locations, Get(update, "locations")) +
    Field(RawInput, Get(update, "rawInput")) +
    Field(RawOutput, Get(update, "rawOutput")) +
    Field(Content, Get(update, "content"))
  }

  /** The large fields, branch by branch. */
  function LargeFields(branch: Branch, event: DriverStreamEvent): Record {
    var raw, update := RawPayload(event), Update(event);
    match branch
    case ToolCall | ToolCallUpdate => ToolContents(update)
    case AgentMessage | AgentThought | UserMessage => Field(Content, Get(update, "content"))
    case Plan => Field(Entries, Get(update, "entries"))
    case Commands => Field(AvailableCommands, Get(update, "availableCommands"))
    case Config => Field(ConfigOptions, Get(update, "configOptions"))
    case Usage => Field(CostField, Get(update, "cost"))
    case Stderr => Field(Text, if event.payload.Some? && event.payload.value.JStr? then event.payload else None)
    case Disconnect => Field(ExitStatus, if raw.Some? then event.payload else None)
    case OtherDriver | Unknown => Field(Raw, event.payload)
    case _ => map[]
  }

  predicate HasRef(event: DriverStreamEvent, streamSequence: Option<nat>) {
    streamSequence.Some? || event.sequence.Some?
  }

  function Ref(event: DriverStreamEvent, streamSequence: Option<nat>): string
    requires HasRef(event, streamSequence)
  {
    if streamSequence.Some? then StreamRef(streamSequence.value) else LegacyRef(event.sequence.value)
  }

  function Envelope(event: DriverStreamEvent, streamSequence: Option<nat>): Record {
    Field(SessionId, if Nonempty(event.session_id).Some? then Some(JStr(event.session_id.value)) else None) +
    Field(RoleId, if Nonempty(event.role_id).Some? then Some(JStr(event.role_id.value)) else None) +
    Field(EventSequence, if event.sequence.Some? then Some(JNum(event.sequence.value as real)) else None) +
    Field(StreamSequenceNumber, if streamSequence.Some? then Some(JNum(streamSequence.value as real)) else None) +
    Field(PayloadRef, if HasRef(event, streamSequence) then Some(JStr(Ref(event, streamSequence))) else None)
  }

  predicate FitsInline(value: Json, hasRef: bool, bytes: Json -> nat) {
    !hasRef || bytes(value) <= PAYLOAD_INLINE_LIMIT_BYTES
  }

  function InlinedFields(fields: Record, hasRef: bool, bytes: Json -> nat): Record {
    map k | k in fields && FitsInline(fields[k], hasRef, bytes) :: fields[k]
  }

  function Payload(event: DriverStreamEvent, streamSequence: Option<nat>, bytes: Json -> nat): Record {
    var branch := BranchOf(event.event_type);
    Envelope(event, streamSequence) + SmallFields(branch, event) +
    InlinedFields(LargeFields(branch, event), HasRef(event, streamSequence), bytes)
  }

  function Subject(event: DriverStreamEvent): string {
    if event.run_id.Some? then event.run_id.value
    else if event.session_id.Some? then event.session_id.value
    else event.event_type
  }

  /** `bytes` is the length of a value's JSON text, `now` the clock. */
  function Projection(event: DriverStreamEvent, streamSequence: Option<nat>, bytes: Json -> nat, now: Timestamp): ProjectedEvent {
    ProjectedEvent(ProjectedType(event), Subject(event), Nonempty(event.run_id), Nonempty(event.task_id),
                   Payload(event, streamSequence, bytes), OrElse(event.created_at, now))
  }

  // ----- nothing is lost -----

  predicate IsEnvelope(name: Name) {
    name.SessionId? || name.RoleId? || name.EventSequence? || name.StreamSequenceNumber? || name.PayloadRef?
  }

  lemma ToolFieldsStandApart(update: Option<Fields>)
    ensures ToolStrings(update).Keys <= {ToolCallId, Title, ToolKind, Status, ToolName}
    ensures ToolContents(update).Keys <= {Locations, RawInput, RawOutput, Content}
  {
  }

  lemma LargeFieldsAreLarge(branch: Branch, event: DriverStreamEvent)
    ensures forall k :: k in LargeFields(branch, event) ==> IsLarge(k)
  {
    forall k | k in LargeFields(branch, event) ensures IsLarge(k) {
      LargeFieldIsLarge(branch, event, k);
    }
  }

  lemma LargeFieldIsLarge(branch: Branch, event: DriverStreamEvent, k: Name)
    requires k in LargeFields(branch, event)
    ensures IsLarge(k)
  {
    match branch {
      case ToolCall => ToolFieldsStandApart(Update(event));
      case ToolCallUpdate => ToolFieldsStandApart(Update(event));
      case _ =>
    }
  }

  lemma SmallFieldIsSmall(branch: Branch, event: DriverStreamEvent, k: Name)
    requires k in SmallFields(branch, event)
    ensures !IsLarge(k) && !IsEnvelope(k)
  {
    if branch.ToolCall? || branch.ToolCallUpdate? {
      ToolSmallField(branch, event, k);
    } else {
      OtherSmallField(branch, event, k);
    }
  }

  lemma ToolSmallField(branch: Branch, event: DriverStreamEvent, k: Name)
    requires k in SmallFields(branch, event) && (branch.ToolCall? || branch.ToolCallUpdate?)
    ensures k in {ToolCallId, Title, ToolKind, Status, ToolName}
  {
    ToolFieldsStandApart(Update(event));
    assert SmallFields(branch, event) == ToolStrings(Update(event));
  }

  lemma OtherSmallField(branch: Branch, event: DriverStreamEvent, k: Name)
    requires k in SmallFields(branch, event) && !branch.ToolCall? && !branch.ToolCallUpdate?
    ensures k in {PromptLength, StopReason, Reason, CurrentModeId, Title, UpdatedAt, Used, Size, SourceEventType}
  {
  }

  lemma SmallFieldsAreNot(branch: Branch, event: DriverStreamEvent)
    ensures forall k :: k in SmallFields(branch, event) ==> !IsLarge(k) && !IsEnvelope(k)
  {
    forall k | k in SmallFields(branch, event) ensures !IsLarge(k) && !IsEnvelope(k) {
      SmallFieldIsSmall(branch, event, k);
    }
  }

  lemma EnvelopeIsNot(event: DriverStreamEvent, streamSequence: Option<nat>)
    ensures Envelope(event, streamSequence).Keys <= {SessionId, RoleId, EventSequence, StreamSequenceNumber, PayloadRef}
    ensures HasRef(event, streamSequence) ==>
      PayloadRef in Envelope(event, streamSequence) &&
      Envelope(event, streamSequence)[PayloadRef] == JStr(Ref(event, streamSequence))
  {
  }

  /**
   A large field is in the payload with its value, unless it is over the limit and the payload
   carries a reference instead; with no number to refer to, every large field is in the payload.
   */
  lemma LargeFieldsInlinedOrReferred(
    event: DriverStreamEvent, streamSequence: Option<nat>, bytes: Json -> nat, k: Name)
    requires k in LargeFields(BranchOf(event.event_type), event)
    ensures var payload := Payload(event, streamSequence, bytes);
            var value := LargeFields(BranchOf(event.event_type), event)[k];
            && (k in payload <==> !HasRef(event, streamSequence) || bytes(value) <= 8192)
            && (k in payload ==> payload[k] == value)
            && (k !in payload ==> PayloadRef in payload
                                  && payload[PayloadRef] == JStr(Ref(event, streamSequence)))
  {
    LargeFieldsAreLarge(BranchOf(event.event_type), event);
    SmallFieldsAreNot(BranchOf(event.event_type), event);
    EnvelopeIsNot(event, streamSequence);
  }

  // ----- where each field comes from -----

  /** The first value found along the paths that is not null. */
  function FirstAlong(value: Option<Json>, paths: seq<seq<string>>): Option<Json> {
    if paths == [] then None
    else
      var here := Along(value, paths[0]);
      if here.Some? && !here.value.JNull? then here else FirstAlong(value, paths[1..])
  }

  predicate IsTool(branch: Branch) {
    branch.ToolCall? || branch.ToolCallUpdate?
  }

  predicate IsChunk(branch: Branch) {
    branch.AgentMessage? || branch.AgentThought? || branch.UserMessage?
  }

  /** The places in the driver's payload that a bounded field shows, in order of preference. */
  function SmallSources(branch: Branch, name: Name): seq<seq<string>> {
    match name
    case PromptLength => if branch.TurnStarted? then [["prompt_length"]] else []
    case StopReason => if branch.TurnCompleted? then [["stop_reason"], ["update", "stopReason"]] else []
    case Reason =>
      if branch.TurnFailed? then [["update", "reason"], ["error"], ["reason"]]
      else if branch.InterruptRequested? then [["reason"]] else []
    case ToolCallId => if IsTool(branch) then [["update", "toolCallId"]] else []
    case Title => if IsTool(branch) || branch.SessionInfo? then [["update", "title"]] else []
    case ToolKind => if IsTool(branch) then [["update", "kind"]] else []
    case Status => if IsTool(branch) then [["update", "status"]] else []
    case ToolName => if IsTool(branch) then [["update", "_meta", "claudeCode", "toolName"]] else []
    case CurrentModeId => if branch.Mode? then [["update", "currentModeId"]] else []
    case UpdatedAt => if branch.SessionInfo? then [["update", "updatedAt"]] else []
    case Used => if branch.Usage? then [["update", "used"]] else []
    case Size => if branch.Usage? then [["update", "size"]] else []
    case _ => []
  }

  /** The place that a large field shows, which for some is the whole payload. */
  function LargeSource(branch: Branch, name: Name): Option<seq<string>> {
    match name
    case Locations => if IsTool(branch) then Some(["update", "locations"]) else None
    case RawInput => if IsTool(branch) then Some(["update", "rawInput"]) else None
    case RawOutput => if IsTool(branch) then Some(["update", "rawOutput"]) else None
    case Content => if IsTool(branch) || IsChunk(branch) then Some(["update", "content"]) else None
    case Entries => if branch.Plan? then Some(["update", "entries"]) else None
    case AvailableCommands => if branch.Commands? then Some(["update", "availableCommands"]) else None
    case ConfigOptions => if branch.Config? then Some(["update", "configOptions"]) else None
    case CostField => if branch.Usage? then Some(["update", "cost"]) else None
    case Text => if branch.Stderr? then Some([]) else None
    case ExitStatus => if branch.Disconnect? then Some([]) else None
    case Raw => if branch.OtherDriver? || branch.Unknown? then Some([]) else None
    case _ => None
  }

  /** Whether a field takes a value of this kind: numbers, records, strings; elsewhere strings with a character. */
  predicate Takes(name: Name, value: Json) {
    match name
    case PromptLength | Used | Size => value.JNum?
    case Text => value.JStr?
    case ExitStatus => value.JObj?
    case _ => IsLarge(name) || (value.JStr? && value.text != "")
  }

  lemma FirstOfOne(value: Option<Json>, p: seq<string>)
    ensures FirstAlong(value, [p]) == Coalesce(Along(value, p), None)
  {
    var paths := [p];
    assert paths[1..] == [];
  }

  lemma FirstOfTwo(value: Option<Json>, p: seq<string>, q: seq<string>)
    ensures FirstAlong(value, [p, q]) == Coalesce(Along(value, p), FirstAlong(value, [q]))
  {
    var paths := [p, q];
    assert paths[1..] == [q];
  }

  lemma FirstOfThree(value: Option<Json>, p: seq<string>, q: seq<string>, s: seq<string>)
    ensures FirstAlong(value, [p, q, s]) == Coalesce(Along(value, p), FirstAlong(value, [q, s]))
  {
    var paths := [p, q, s];
    assert paths[1..] == [q, s];
  }

  /** A record shows a field exactly when the driver's payload has a fitting value for it, and shows that value. */
  ghost predicate Shows(fields: Record, name: Name, found: Option<Json>) {
    && (name in fields <==> found.Some? && Takes(name, found.value))
    && (name in fields ==> fields[name] == found.value)
  }

  lemma FailureReason(value: Option<Json>)
    ensures FirstAlong(value, [["update", "reason"], ["error"], ["reason"]]) ==
            Coalesce(Get(AsRecord(Get(AsRecord(value), "update")), "reason"),
                     Coalesce(Get(AsRecord(value), "error"), Coalesce(Get(AsRecord(value), "reason"), None)))
  {
    Along2(value, "update", "reason");
    Along1(value, "error");
    Along1(value, "reason");
    FirstOfOne(value, ["reason"]);
    FirstOfTwo(value, ["error"], ["reason"]);
    FirstOfThree(value, ["update", "reason"], ["error"], ["reason"]);
  }

  lemma TurnFailedShown(event: DriverStreamEvent, name: Name)
    requires !IsLarge(name) && !IsEnvelope(name)
    ensures Shows(SmallFields(TurnFailed, event), name, FirstAlong(event.payload, SmallSources(TurnFailed, name)))
  {
    FailureReason(event.payload);
  }

  lemma TurnCompletedShown(event: DriverStreamEvent, name: Name)
    requires !IsLarge(name) && !IsEnvelope(name)
    ensures Shows(SmallFields(TurnCompleted, event), name, FirstAlong(event.payload, SmallSources(TurnCompleted, name)))
  {
    Along1(event.payload, "stop_reason");
    Along2(event.payload, "update", "stopReason");
    FirstOfOne(event.payload, ["update", "stopReason"]);
    FirstOfTwo(event.payload, ["stop_reason"], ["update", "stopReason"]);
  }

  lemma TurnFieldsShown(branch: Branch, event: DriverStreamEvent, name: Name)
    requires branch.TurnStarted? || branch.InterruptRequested?
    requires !IsLarge(name) && !IsEnvelope(name)
    ensures Shows(SmallFields(branch, event), name, FirstAlong(event.payload, SmallSources(branch, name)))
  {
    var key := if branch.TurnStarted? then "prompt_length" else "reason";
    Along1(event.payload, key);
    FirstOfOne(event.payload, [key]);
  }

  lemma UpdateFieldShown(event: DriverStreamEvent, key: string)
    ensures FirstAlong(event.payload, [["update", key]]) == Coalesce(Get(Update(event), key), None)
  {
    Along2(event.payload, "update", key);
    FirstOfOne(event.payload, ["update", key]);
  }

  lemma OneStringShown(name: Name, value: Option<Json>)
    requires !IsLarge(name) && !name.PromptLength? && !name.Used? && !name.Size?
    ensures Shows(StringField(name, value), name, Coalesce(value, None))
  {
  }

  lemma ShownInUnion(a: Record, b: Record, name: Name, found: Option<Json>)
    ensures name !in b && Shows(a, name, found) ==> Shows(a + b, name, found)
    ensures name !in a && Shows(b, name, found) ==> Shows(a + b, name, found)
  {
  }

  lemma ToolStringShown(update: Option<Fields>, name: Name, value: Option<Json>)
    requires match name
             case ToolCallId => value == Get(update, "toolCallId")
             case Title => value == Get(update, "title")
             case ToolKind => value == Get(update, "kind")
             case Status => value == Get(update, "status")
             case ToolName => value == ToolNameOf(update)
             case _ => false
    ensures Shows(ToolStrings(update), name, Coalesce(value, None))
  {
    var a, b := StringField(ToolCallId, Get(update, "toolCallId")), StringField(Title, Get(update, "title"));
    var c, d := StringField(ToolKind, Get(update, "kind")), StringField(Status, Get(update, "status"));
    var e := StringField(ToolName, ToolNameOf(update));
    var found := Coalesce(value, None);
    OneStringShown(name, value);
    ShownInUnion(a, b, name, found);
    ShownInUnion(a + b, c, name, found);
    ShownInUnion(a + b + c, d, name, found);
    ShownInUnion(a + b + c + d, e, name, found);
  }

  lemma ToolFieldsShown(branch: Branch, event: DriverStreamEvent, name: Name)
    requires IsTool(branch) && !IsLarge(name) && !IsEnvelope(name)
    ensures Shows(SmallFields(branch, event), name, FirstAlong(event.payload, SmallSources(branch, name)))
  {
    var update := Update(event);
    match name {
      case ToolCallId =>
        UpdateFieldShown(event, "toolCallId");
        ToolStringShown(update, name, Get(update, "toolCallId"));
      case Title =>
        UpdateFieldShown(event, "title");
        ToolStringShown(update, name, Get(update, "title"));
      case ToolKind =>
        UpdateFieldShown(event, "kind");
        ToolStringShown(update, name, Get(update, "kind"));
      case Status =>
        UpdateFieldShown(event, "status");
        ToolStringShown(update, name, Get(update, "status"));
      case ToolName =>
        Along4(event.payload, "update", "_meta", "claudeCode", "toolName");
        FirstOfOne(event.payload, ["update", "_meta", "claudeCode", "toolName"]);
        ToolStringShown(update, name, ToolNameOf(update));
      case _ => ToolFieldsStandApart(update);
    }
  }

  lemma UsageFieldsShown(event: DriverStreamEvent, name: Name)
    requires !IsLarge(name) && !IsEnvelope(name)
    ensures Shows(SmallFields(Usage, event), name, FirstAlong(event.payload, SmallSources(Usage, name)))
  {
    UpdateFieldShown(event, "used");
    UpdateFieldShown(event, "size");
    var used, size := NumberField(Used, Get(Update(event), "used")), NumberField(Size, Get(Update(event), "size"));
    var found := FirstAlong(event.payload, SmallSources(Usage, name));
    ShownInUnion(used, size, name, found);
  }

  lemma SessionFieldsShown(event: DriverStreamEvent, name: Name)
    requires !IsLarge(name) && !IsEnvelope(name)
    ensures Shows(SmallFields(SessionInfo, event), name, FirstAlong(event.payload, SmallSources(SessionInfo, name)))
  {
    UpdateFieldShown(event, "title");
    UpdateFieldShown(event, "updatedAt");
    var update := Update(event);
    var title, at := StringField(Title, Get(update, "title")), StringField(UpdatedAt, Get(update, "updatedAt"));
    OneStringShown(Title, Get(update, "title"));
    OneStringShown(UpdatedAt, Get(update, "updatedAt"));
    var found := FirstAlong(event.payload, SmallSources(SessionInfo, name));
    ShownInUnion(title, at, name, found);
  }

  lemma ModeFieldShown(event: DriverStreamEvent, name: Name)
    requires !IsLarge(name) && !IsEnvelope(name)
    ensures Shows(SmallFields(Mode, event), name, FirstAlong(event.payload, SmallSources(Mode, name)))
  {
    UpdateFieldShown(event, "currentModeId");
  }

  /**
   The bounded fields, each from its own place: a field is there exactly if the first non-null value
   at its places is a number, or a non-empty string, as the field takes; and it is that value.
   */
  lemma SmallFieldsShown(branch: Branch, event: DriverStreamEvent, name: Name)
    requires !IsLarge(name) && !IsEnvelope(name) && !name.SourceEventType?
    ensures Shows(SmallFields(branch, event), name, FirstAlong(event.payload, SmallSources(branch, name)))
  {
    match branch {
      case TurnStarted | InterruptRequested => TurnFieldsShown(branch, event, name);
      case TurnCompleted => TurnCompletedShown(event, name);
      case TurnFailed => TurnFailedShown(event, name);
      case ToolCall | ToolCallUpdate => ToolFieldsShown(branch, event, name);
      case Mode => ModeFieldShown(event, name);
      case SessionInfo => SessionFieldsShown(event, name);
      case Usage => UsageFieldsShown(event, name);
      case _ =>
    }
  }

  function LargeFound(branch: Branch, event: DriverStreamEvent, name: Name): Option<Json> {
    var source := LargeSource(branch, name);
    if source.Some? then Along(event.payload, source.value) else None
  }

  lemma ToolContentShown(update: Option<Fields>, name: Name, value: Option<Json>)
    requires match name
             case Locations => value == Get(update, "locations")
             case RawInput => value == Get(update, "rawInput")
             case RawOutput => value == Get(update, "rawOutput")
             case Content => value == Get(update, "content")
             case _ => false
    ensures Shows(ToolContents(update), name, value)
  {
    var a, b := Field(Locations, Get(update, "locations")), Field(RawInput, Get(update, "rawInput"));
    var c, d := Field(RawOutput, Get(update, "rawOutput")), Field(Content, Get(update, "content"));
    ShownInUnion(a, b, name, value);
    ShownInUnion(a + b, c, name, value);
    ShownInUnion(a + b + c, d, name, value);
  }

  lemma ToolContentsShown(branch: Branch, event: DriverStreamEvent, name: Name)
    requires IsTool(branch) && IsLarge(name)
    ensures Shows(LargeFields(branch, event), name, LargeFound(branch, event, name))
  {
    var update := Update(event);
    match name {
      case Locations =>
        Along2(event.payload, "update", "locations");
        ToolContentShown(update, name, Get(update, "locations"));
      case RawInput =>
        Along2(event.payload, "update", "rawInput");
        ToolContentShown(update, name, Get(update, "rawInput"));
      case RawOutput =>
        Along2(event.payload, "update", "rawOutput");
        ToolContentShown(update, name, Get(update, "rawOutput"));
      case Content =>
        Along2(event.payload, "update", "content");
        ToolContentShown(update, name, Get(update, "content"));
      case _ => ToolFieldsStandApart(update);
    }
  }

  lemma UpdateContentsShown(branch: Branch, event: DriverStreamEvent, name: Name)
    requires IsChunk(branch) || branch.Plan? || branch.Commands? || branch.Config? || branch.Usage?
    requires IsLarge(name)
    ensures Shows(LargeFields(branch, event), name, LargeFound(branch, event, name))
  {
    match branch {
      case AgentMessage | AgentThought | UserMessage => Along2(event.payload, "update", "content");
      case Plan => Along2(event.payload, "update", "entries");
      case Commands => Along2(event.payload, "update", "availableCommands");
      case Config => Along2(event.payload, "update", "configOptions");
      case Usage => Along2(event.payload, "update", "cost");
    }
  }

  lemma PayloadContentsShown(branch: Branch, event: DriverStreamEvent, name: Name)
    requires !IsTool(branch) && !IsChunk(branch) && !branch.Plan? && !branch.Commands? && !branch.Config? && !branch.Usage?
    requires IsLarge(name)
    ensures Shows(LargeFields(branch, event), name, LargeFound(branch, event, name))
  {
  }

  /** The large fields likewise, except that null is shown. */
  lemma LargeFieldsShown(branch: Branch, event: DriverStreamEvent, name: Name)
    requires IsLarge(name)
    ensures Shows(LargeFields(branch, event), name, LargeFound(branch, event, name))
  {
    if IsTool(branch) {
      ToolContentsShown(branch, event, name);
    } else if IsChunk(branch) || branch.Plan? || branch.Commands? || branch.Config? || branch.Usage? {
      UpdateContentsShown(branch, event, name);
    } else {
      PayloadContentsShown(branch, event, name);
    }
  }

  /** What the payload shows of an event: its own type's fields, each from its own place, and nothing else. */
  ghost predicate TellsOf(payload: Record, event: DriverStreamEvent, bytes: Json -> nat, hasRef: bool) {
    var branch := BranchOf(event.event_type);
    && (forall k :: !IsLarge(k) && !IsEnvelope(k) && !k.SourceEventType? ==>
          Shows(payload, k, FirstAlong(event.payload, SmallSources(branch, k))))
    && (forall k :: IsLarge(k) ==>
          var found := LargeFound(branch, event, k);
          Shows(payload, k, if found.Some? && (!hasRef || bytes(found.value) <= 8192) then found else None))
    && (SourceEventType in payload <==> branch.Unknown?)
    && (branch.Unknown? ==> payload[SourceEventType] == JStr(event.event_type))
  }

  /** Each name of the union is a name of one of the records, with that record's value. */
  ghost predicate KeptApart(whole: Record, envelope: Record, small: Record, large: Record) {
    && whole.Keys == envelope.Keys + small.Keys + large.Keys
    && (forall k :: k in envelope ==> whole[k] == envelope[k] && k !in small && k !in large)
    && (forall k :: k in small ==> whole[k] == small[k] && k !in large)
    && (forall k :: k in large ==> whole[k] == large[k])
  }

  lemma DisjointKeptApart(envelope: Record, small: Record, large: Record)
    requires envelope.Keys !! small.Keys && envelope.Keys !! large.Keys && small.Keys !! large.Keys
    ensures KeptApart(envelope + small + large, envelope, small, large)
  {
  }

  /** No later addition changes an earlier one: envelope, bounded and large fields have different names. */
  lemma NothingOverwritten(event: DriverStreamEvent, streamSequence: Option<nat>, bytes: Json -> nat)
    ensures var branch := BranchOf(event.event_type);
            KeptApart(Payload(event, streamSequence, bytes), Envelope(event, streamSequence), SmallFields(branch, event),
                      InlinedFields(LargeFields(branch, event), HasRef(event, streamSequence), bytes))
  {
    var branch := BranchOf(event.event_type);
    var envelope, small := Envelope(event, streamSequence), SmallFields(branch, event);
    var large := InlinedFields(LargeFields(branch, event), HasRef(event, streamSequence), bytes);
    LargeFieldsAreLarge(branch, event);
    SmallFieldsAreNot(branch, event);
    EnvelopeIsNot(event, streamSequence);
    assert forall k :: k in envelope ==> IsEnvelope(k) && !IsLarge(k);
    assert forall k :: k in large ==> k in LargeFields(branch, event) && IsLarge(k);
    DisjointKeptApart(envelope, small, large);
  }

  lemma SmallTold(payload: Record, envelope: Record, small: Record, large: Record, k: Name, found: Option<Json>)
    requires KeptApart(payload, envelope, small, large) && Shows(small, k, found)
    requires k !in envelope && k !in large
    ensures Shows(payload, k, found)
  {
  }

  lemma LargeTold(payload: Record, envelope: Record, small: Record, fields: Record, k: Name, found: Option<Json>,
                  hasRef: bool, bytes: Json -> nat)
    requires KeptApart(payload, envelope, small, InlinedFields(fields, hasRef, bytes)) && Shows(fields, k, found)
    requires k !in envelope && k !in small
    ensures Shows(payload, k, if found.Some? && FitsInline(found.value, hasRef, bytes) then found else None)
  {
  }

  lemma SourceTypeTold(branch: Branch, event: DriverStreamEvent)
    ensures SourceEventType in SmallFields(branch, event) <==> branch.Unknown?
    ensures branch.Unknown? ==> SmallFields(branch, event)[SourceEventType] == JStr(event.event_type)
  {
    ToolFieldsStandApart(Update(event));
  }

  /**
   The whole payload, name by name: every bounded field recoverable from its place in the driver's
   payload, every large one exactly if it is there and fits or cannot be referred to.
   */
  lemma PayloadTells(event: DriverStreamEvent, streamSequence: Option<nat>, bytes: Json -> nat)
    ensures TellsOf(Payload(event, streamSequence, bytes), event, bytes, HasRef(event, streamSequence))
  {
    var branch, hasRef := BranchOf(event.event_type), HasRef(event, streamSequence);
    var payload, envelope := Payload(event, streamSequence, bytes), Envelope(event, streamSequence);
    var small, fields := SmallFields(branch, event), LargeFields(branch, event);
    NothingOverwritten(event, streamSequence, bytes);
    LargeFieldsAreLarge(branch, event);
    SmallFieldsAreNot(branch, event);
    EnvelopeIsNot(event, streamSequence);
    SourceTypeTold(branch, event);
    forall k: Name | !IsLarge(k) && !IsEnvelope(k) && !k.SourceEventType?
      ensures Shows(payload, k, FirstAlong(event.payload, SmallSources(branch, k)))
    {
      SmallFieldsShown(branch, event, k);
      SmallTold(payload, envelope, small, InlinedFields(fields, hasRef, bytes), k,
                FirstAlong(event.payload, SmallSources(branch, k)));
    }
    forall k: Name | IsLarge(k)
      ensures var found := LargeFound(branch, event, k);
              Shows(payload, k, if found.Some? && FitsInline(found.value, hasRef, bytes) then found else None)
    {
      LargeFieldsShown(branch, event, k);
      LargeTold(payload, envelope, small, fields, k, LargeFound(branch, event, k), hasRef, bytes);
    }
  }

  // ----- the envelope -----

  /** The types events of a driver's turns are projected to. */
  predicate TurnTypeTold(projected: string, eventType: string) {
    && (eventType in {"driver.turn_started", "turn_started"} ==> projected == "driver.turn_started")
    && (eventType in {"driver.turn_completed", "turn_completed"} ==> projected == "driver.turn_completed")
    && (eventType in {"driver.turn_failed", "turn_failed"} ==> projected == "driver.turn_failed")
    && (eventType == "driver.interrupt_requested" ==> projected == "driver.interrupt_requested")
  }

  /** Those of tool calls; that of an update goes by its status. */
  predicate ToolTypeTold(projected: string, eventType: string, status: Option<Json>) {
    && (eventType == "tool_call" ==> projected == "driver.tool_started")
    && (eventType == "tool_call_update" ==>
          && (projected == "driver.tool_completed" <==> status == Some(JStr("completed")))
          && (projected == "driver.tool_failed" <==> status == Some(JStr("failed")))
          && (projected == "driver.tool_progress" <==> status != Some(JStr("completed")) && status != Some(JStr("failed"))))
  }

  predicate ChunkTypeTold(projected: string, eventType: string) {
    && (eventType == "agent_message_chunk" ==> projected == "driver.agent_message_chunk")
    && (eventType == "agent_thought_chunk" ==> projected == "driver.agent_thought_chunk")
    && (eventType == "user_message_chunk" ==> projected == "driver.user_message_chunk")
  }

  predicate ProcessTypeTold(projected: string, eventType: string) {
    && (eventType == "stderr" ==> projected == "driver.stderr")
    && (eventType == "disconnect" ==> projected == "driver.disconnected")
  }

  predicate UpdateTypeTold(projected: string, eventType: string) {
    && (eventType == "plan" ==> projected == "driver.plan_updated")
    && (eventType == "available_commands_update" ==> projected == "driver.available_commands_updated")
    && (eventType == "current_mode_update" ==> projected == "driver.mode_changed")
  }

  predicate SessionTypeTold(projected: string, eventType: string) {
    && (eventType == "config_option_update" ==> projected == "driver.config_options_changed")
    && (eventType == "session_info_update" ==> projected == "driver.session_info_changed")
    && (eventType == "usage_update" ==> projected == "driver.usage_updated")
  }

  /** The types of the protocol that have a projection of their own and no `driver.` before them. */
  const PROTOCOL_TYPES := {
    "turn_started", "turn_completed", "turn_failed", "tool_call", "tool_call_update", "agent_message_chunk",
    "agent_thought_chunk", "user_message_chunk", "plan", "available_commands_update", "current_mode_update",
    "config_option_update", "session_info_update", "usage_update", "stderr", "disconnect"}

  /** A driver's own type stays; any other is unknown. */
  predicate OtherTypeTold(projected: string, eventType: string) {
    && ("driver." <= eventType ==> projected == eventType)
    && (!("driver." <= eventType) && eventType !in PROTOCOL_TYPES ==> projected == "driver.session_update_unknown")
  }

  /** The type an event is projected to, from its own type and, for a tool's update, its status. */
  predicate TypeTold(projected: string, eventType: string, status: Option<Json>) {
    && TurnTypeTold(projected, eventType) && ToolTypeTold(projected, eventType, status)
    && ChunkTypeTold(projected, eventType) && ProcessTypeTold(projected, eventType)
    && UpdateTypeTold(projected, eventType) && SessionTypeTold(projected, eventType)
    && OtherTypeTold(projected, eventType)
  }

  lemma TurnTypes(event: DriverStreamEvent)
    ensures TurnTypeTold(ProjectedType(event), event.event_type)
  {
  }

  lemma ToolTypes(event: DriverStreamEvent)
    ensures ToolTypeTold(ProjectedType(event), event.event_type, Along(event.payload, ["update", "status"]))
  {
    Along2(event.payload, "update", "status");
  }

  lemma ChunkTypes(event: DriverStreamEvent)
    ensures ChunkTypeTold(ProjectedType(event), event.event_type)
  {
  }

  lemma ProcessTypes(event: DriverStreamEvent)
    ensures ProcessTypeTold(ProjectedType(event), event.event_type)
  {
  }

  lemma UpdateTypes(event: DriverStreamEvent)
    ensures UpdateTypeTold(ProjectedType(event), event.event_type)
  {
  }

  lemma SessionTypes(event: DriverStreamEvent)
    ensures SessionTypeTold(ProjectedType(event), event.event_type)
  {
  }

  lemma OtherTypes(event: DriverStreamEvent)
    ensures OtherTypeTold(ProjectedType(event), event.event_type)
  {
    if "driver." <= event.event_type {
      ProtocolHasNoPrefix(event.event_type);
      OwnTypeStays(event);
    }
  }

  lemma ProtocolHasNoPrefix(eventType: string)
    requires "driver." <= eventType
    ensures eventType !in PROTOCOL_TYPES
  {
    assert eventType[0] == 'd' && eventType[1] == 'r';
  }

  lemma OwnTypeStays(event: DriverStreamEvent)
    requires "driver." <= event.event_type && event.event_type !in PROTOCOL_TYPES
    ensures ProjectedType(event) == event.event_type
  {
  }

  /** Every event type has its projected type, whatever else is in the event. */
  lemma EveryType(event: DriverStreamEvent)
    ensures TypeTold(ProjectedType(event), event.event_type, Along(event.payload, ["update", "status"]))
  {
    TurnTypes(event);
    ToolTypes(event);
    ChunkTypes(event);
    ProcessTypes(event);
    UpdateTypes(event);
    SessionTypes(event);
    OtherTypes(event);
  }

  /** A payload shows a string of the envelope exactly if it is there and not empty. */
  ghost predicate ShowsText(payload: Record, name: Name, text: Option<string>) {
    && (name in payload <==> text.Some? && text.value != "")
    && (name in payload ==> payload[name] == JStr(text.value))
  }

  ghost predicate ShowsNumber(payload: Record, name: Name, n: Option<int>) {
    && (name in payload <==> n.Some?)
    && (name in payload ==> payload[name] == JNum(n.value as real))
  }

  ghost predicate EnvelopeShown(payload: Record, event: DriverStreamEvent, streamSequence: Option<nat>) {
    && ShowsText(payload, SessionId, event.session_id)
    && ShowsText(payload, RoleId, event.role_id)
    && ShowsNumber(payload, EventSequence, event.sequence)
    && ShowsNumber(payload, StreamSequenceNumber, if streamSequence.Some? then Some(streamSequence.value) else None)
  }

  /** What identifies a projected event, from the fields of the event it was made of. */
  ghost predicate EnvelopeTold(p: ProjectedEvent, event: DriverStreamEvent, streamSequence: Option<nat>, now: Timestamp) {
    && TypeTold(p.event_type, event.event_type, Along(event.payload, ["update", "status"]))
    && EnvelopeShown(p.payload, event, streamSequence)
    && p.run_id == (if event.run_id == Some("") then None else event.run_id)
    && p.task_id == (if event.task_id == Some("") then None else event.task_id)
    && p.subject_id == (match (event.run_id, event.session_id)
                        case (Some(run), _) => run
                        case (None, Some(session)) => session
                        case (None, None) => event.event_type)
    && p.created_at == (match event.created_at case Some(at) => at case None => now)
  }

  lemma EnvelopeShows(event: DriverStreamEvent, streamSequence: Option<nat>)
    ensures EnvelopeShown(Envelope(event, streamSequence), event, streamSequence)
  {
  }

  lemma EnvelopeKept(payload: Record, envelope: Record, small: Record, large: Record, k: Name)
    requires KeptApart(payload, envelope, small, large) && k !in small && k !in large
    ensures (k in payload <==> k in envelope) && (k in payload ==> payload[k] == envelope[k])
  {
  }

  lemma PayloadEnvelope(event: DriverStreamEvent, streamSequence: Option<nat>, bytes: Json -> nat, k: Name)
    requires IsEnvelope(k)
    ensures var payload, envelope := Payload(event, streamSequence, bytes), Envelope(event, streamSequence);
            (k in payload <==> k in envelope) && (k in payload ==> payload[k] == envelope[k])
  {
    var branch := BranchOf(event.event_type);
    NothingOverwritten(event, streamSequence, bytes);
    LargeFieldsAreLarge(branch, event);
    SmallFieldsAreNot(branch, event);
    EnvelopeKept(Payload(event, streamSequence, bytes), Envelope(event, streamSequence), SmallFields(branch, event),
                 InlinedFields(LargeFields(branch, event), HasRef(event, streamSequence), bytes), k);
  }

  lemma PayloadShows(event: DriverStreamEvent, streamSequence: Option<nat>, bytes: Json -> nat)
    ensures EnvelopeShown(Payload(event, streamSequence, bytes), event, streamSequence)
  {
    EnvelopeShows(event, streamSequence);
    PayloadEnvelope(event, streamSequence, bytes, SessionId);
    PayloadEnvelope(event, streamSequence, bytes, RoleId);
    PayloadEnvelope(event, streamSequence, bytes, EventSequence);
    PayloadEnvelope(event, streamSequence, bytes, StreamSequenceNumber);
  }

  /** Type, session, role, run, task, subject, numbers and time of every projected event. */
  lemma ProjectionTold(event: DriverStreamEvent, streamSequence: Option<nat>, bytes: Json -> nat, now: Timestamp)
    ensures EnvelopeTold(Projection(event, streamSequence, bytes, now), event, streamSequence, now)
  {
    EveryType(event);
    PayloadShows(event, streamSequence, bytes);
  }

  // ----- the payload filled step by step -----

  function AddString(target: Record, name: Name, value: Option<Json>): (r: Record)
    ensures r == target + StringField(name, value)
  {
    if NonemptyString(value).Some? then target[name := value.value] else target
  }

  function AddNumber(target: Record, name: Name, value: Option<Json>): (r: Record)
    ensures r == target + NumberField(name, value)
  {
    if value.Some? && value.value.JNum? then target[name := value.value] else target
  }

  function AddLarge(target: Record, name: Name, value: Option<Json>, hasRef: bool, bytes: Json -> nat): (r: Record)
    ensures r == target + InlinedFields(Field(name, value), hasRef, bytes)
  {
    if value.None? || (hasRef && bytes(value.value) > PAYLOAD_INLINE_LIMIT_BYTES) then target
    else target[name := value.value]
  }

  lemma UnionAssociates(a: Record, b: Record, c: Record)
    ensures a + b + c == a + (b + c)
  {
  }

  lemma InlinedUnion(a: Record, b: Record, hasRef: bool, bytes: Json -> nat)
    requires a.Keys !! b.Keys
    ensures InlinedFields(a + b, hasRef, bytes) == InlinedFields(a, hasRef, bytes) + InlinedFields(b, hasRef, bytes)
  {
  }

  method AddToolStrings(target: Record, update: Option<Fields>) returns (payload: Record)
    ensures payload == target + ToolStrings(update)
  {
    payload := AddString(target, ToolCallId, Get(update, "toolCallId"));
    ghost var all := StringField(ToolCallId, Get(update, "toolCallId"));
    payload := AddString(payload, Title, Get(update, "title"));
    UnionAssociates(target, all, StringField(Title, Get(update, "title")));
    all := all + StringField(Title, Get(update, "title"));
    payload := AddString(payload, ToolKind, Get(update, "kind"));
    UnionAssociates(target, all, StringField(ToolKind, Get(update, "kind")));
    all := all + StringField(ToolKind, Get(update, "kind"));
    payload := AddString(payload, Status, Get(update, "status"));
    UnionAssociates(target, all, StringField(Status, Get(update, "status")));
    all := all + StringField(Status, Get(update, "status"));
    payload := AddString(payload, ToolName, ToolNameOf(update));
    UnionAssociates(target, all, StringField(ToolName, ToolNameOf(update)));
  }

  method AddNextLarge(target: Record, ghost all: Record, name: Name, value: Option<Json>, hasRef: bool, bytes: Json -> nat,
                      ghost start: Record) returns (payload: Record)
    requires target == start + InlinedFields(all, hasRef, bytes) && name !in all
    ensures payload == start + InlinedFields(all + Field(name, value), hasRef, bytes)
  {
    payload := AddLarge(target, name, value, hasRef, bytes);
    InlinedUnion(all, Field(name, value), hasRef, bytes);
    UnionAssociates(start, InlinedFields(all, hasRef, bytes), InlinedFields(Field(name, value), hasRef, bytes));
  }

  method AddToolContents(target: Record, update: Option<Fields>, hasRef: bool, bytes: Json -> nat) returns (payload: Record)
    ensures payload == target + InlinedFields(ToolContents(update), hasRef, bytes)
  {
    ghost var all := Field(Locations, Get(update, "locations"));
    payload := AddLarge(target, Locations, Get(update, "locations"), hasRef, bytes);
    payload := AddNextLarge(payload, all, RawInput, Get(update, "rawInput"), hasRef, bytes, target);
    all := all + Field(RawInput, Get(update, "rawInput"));
    payload := AddNextLarge(payload, all, RawOutput, Get(update, "rawOutput"), hasRef, bytes, target);
    all := all + Field(RawOutput, Get(update, "rawOutput"));
    payload := AddNextLarge(payload, all, Content, Get(update, "content"), hasRef, bytes, target);
  }

  /** The bounded fields of the branch taken. */
  method AddSmallFields(target: Record, branch: Branch, event: DriverStreamEvent) returns (payload: Record)
    ensures payload == target + SmallFields(branch, event)
  {
    var raw, update := RawPayload(event), Update(event);
    payload := target;
    match branch {
      case TurnStarted => payload := AddNumber(payload, PromptLength, Get(raw, "prompt_length"));
      case TurnCompleted =>
        payload := AddString(payload, StopReason, Coalesce(Get(raw, "stop_reason"), Get(update, "stopReason")));
      case TurnFailed =>
        payload := AddString(payload, Reason, Coalesce(Coalesce(Get(update, "reason"), Get(raw, "error")), Get(raw, "reason")));
      case InterruptRequested => payload := AddString(payload, Reason, Get(raw, "reason"));
      case ToolCall | ToolCallUpdate => payload := AddToolStrings(payload, update);
      case Mode => payload := AddString(payload, CurrentModeId, Get(update, "currentModeId"));
      case SessionInfo =>
        payload := AddString(payload, Title, Get(update, "title"));
        payload := AddString(payload, UpdatedAt, Get(update, "updatedAt"));
      case Usage =>
        payload := AddNumber(payload, Used, Get(update, "used"));
        payload := AddNumber(payload, Size, Get(update, "size"));
      case Unknown => payload := payload[SourceEventType := JStr(event.event_type)];
      case _ =>
    }
  }

  /** The large fields of the branch taken, inlined or not; they come after the bounded ones. */
  method AddLargeFields(target: Record, branch: Branch, event: DriverStreamEvent, hasRef: bool, bytes: Json -> nat)
    returns (payload: Record)
    ensures payload == target + InlinedFields(LargeFields(branch, event), hasRef, bytes)
  {
    var raw, update := RawPayload(event), Update(event);
    payload := target;
    match branch {
      case ToolCall | ToolCallUpdate => payload := AddToolContents(payload, update, hasRef, bytes);
      case AgentMessage | AgentThought | UserMessage =>
        payload := AddLarge(payload, Content, Get(update, "content"), hasRef, bytes);
      case Plan => payload := AddLarge(payload, Entries, Get(update, "entries"), hasRef, bytes);
      case Commands => payload := AddLarge(payload, AvailableCommands, Get(update, "availableCommands"), hasRef, bytes);
      case Config => payload := AddLarge(payload, ConfigOptions, Get(update, "configOptions"), hasRef, bytes);
      case Usage => payload := AddLarge(payload, CostField, Get(update, "cost"), hasRef, bytes);
      case Stderr =>
        payload := AddLarge(payload, Text,
          if event.payload.Some? && event.payload.value.JStr? then event.payload else None, hasRef, bytes);
      case Disconnect => payload := AddLarge(payload, ExitStatus, if raw.Some? then event.payload else None, hasRef, bytes);
      case OtherDriver | Unknown => payload := AddLarge(payload, Raw, event.payload, hasRef, bytes);
      case _ =>
    }
  }

  method ProjectDriverStreamLifecycleEvent(
    event: DriverStreamEvent, streamSequence: Option<nat>, bytes: Json -> nat, now: Timestamp)
    returns (projected: ProjectedEvent)
    ensures projected == Projection(event, streamSequence, bytes, now)
    ensures EnvelopeTold(projected, event, streamSequence, now)
    ensures TellsOf(projected.payload, event, bytes, HasRef(event, streamSequence))
  {
    ProjectionTold(event, streamSequence, bytes, now);
    PayloadTells(event, streamSequence, bytes);
    var branch := BranchOf(event.event_type);
    var payload := AddSmallFields(Envelope(event, streamSequence), branch, event);
    payload := AddLargeFields(payload, branch, event, HasRef(event, streamSequence), bytes);
    projected := ProjectedEvent(
      ProjectedType(event), Subject(event), Nonempty(event.run_id), Nonempty(event.task_id),
      payload, OrElse(event.created_at, now));
  }

  // ----- the two channels -----

  const STREAM_ONLY := {
    "driver.tool_progress", "driver.agent_message_chunk", "driver.agent_thought_chunk",
    "driver.user_message_chunk", "driver.stderr", "driver.session_update_unknown"}

  /** Whether events of a projected type also go to the coordination store. */
  predicate IsCoordination(eventType: string) {
    eventType !in STREAM_ONLY
  }

  /**
   A mere piece of a stream: a chunk, an error line, a tool's update that does not end it, a type nobody
   knows, or an event that already bears the name of such a piece.
   */
  predicate IsPiece(event: DriverStreamEvent) {
    var eventType, status := event.event_type, Along(event.payload, ["update", "status"]);
    || eventType in {"agent_message_chunk", "agent_thought_chunk", "user_message_chunk", "stderr"}
    || (eventType == "tool_call_update" && status != Some(JStr("completed")) && status != Some(JStr("failed")))
    || (!("driver." <= eventType) && eventType !in PROTOCOL_TYPES)
    || eventType in {"driver.tool_progress", "driver.agent_message_chunk", "driver.agent_thought_chunk",
                     "driver.user_message_chunk", "driver.stderr", "driver.session_update_unknown"}
  }

  lemma OwnTypePieces(event: DriverStreamEvent)
    requires "driver." <= event.event_type || event.event_type !in PROTOCOL_TYPES
    ensures IsCoordination(ProjectedType(event)) <==> !IsPiece(event)
  {
    OtherTypes(event);
    if "driver." <= event.event_type { ProtocolHasNoPrefix(event.event_type); }
  }

  lemma ToolPieces(event: DriverStreamEvent)
    requires event.event_type in {"tool_call", "tool_call_update"}
    ensures IsCoordination(ProjectedType(event)) <==> !IsPiece(event)
  {
    ToolTypes(event);
  }

  lemma ChunkPieces(event: DriverStreamEvent)
    requires event.event_type in {"agent_message_chunk", "agent_thought_chunk", "user_message_chunk", "stderr", "disconnect"}
    ensures IsCoordination(ProjectedType(event)) <==> !IsPiece(event)
  {
    ChunkTypes(event);
    ProcessTypes(event);
  }

  lemma StatePieces(event: DriverStreamEvent)
    requires event.event_type in {"turn_started", "turn_completed", "turn_failed", "plan", "available_commands_update",
                                  "current_mode_update", "config_option_update", "session_info_update", "usage_update"}
    ensures IsCoordination(ProjectedType(event)) <==> !IsPiece(event)
  {
    TurnTypes(event);
    UpdateTypes(event);
    SessionTypes(event);
  }

  /** What goes to the coordination store is what is no mere piece of a stream. */
  lemma PiecesStayOut(event: DriverStreamEvent)
    ensures IsCoordination(ProjectedType(event)) <==> !IsPiece(event)
  {
    var eventType := event.event_type;
    if "driver." <= eventType || eventType !in PROTOCOL_TYPES {
      OwnTypePieces(event);
    } else if eventType in {"tool_call", "tool_call_update"} {
      ToolPieces(event);
    } else if eventType in {"agent_message_chunk", "agent_thought_chunk", "user_message_chunk", "stderr", "disconnect"} {
      ChunkPieces(event);
    } else {
      StatePieces(event);
    }
  }

  predicate EndsRun(eventType: string) {
    eventType == "run.completed" || eventType == "run.failed"
  }

  lemma OwnTypeEndsNone(event: DriverStreamEvent)
    requires "driver." <= event.event_type || event.event_type !in PROTOCOL_TYPES
    ensures !EndsRun(ProjectedType(event))
  {
    OtherTypes(event);
    if "driver." <= event.event_type { assert event.event_type[0] == 'd'; }
    assert "driver.session_update_unknown"[0] == 'd' && "run.completed"[0] == 'r' && "run.failed"[0] == 'r';
  }

  lemma ToolEndsNone(event: DriverStreamEvent)
    requires event.event_type in {"tool_call", "tool_call_update"}
    ensures !EndsRun(ProjectedType(event))
  {
    ToolTypes(event);
  }

  lemma ChunkEndsNone(event: DriverStreamEvent)
    requires event.event_type in {"agent_message_chunk", "agent_thought_chunk", "user_message_chunk", "stderr", "disconnect"}
    ensures !EndsRun(ProjectedType(event))
  {
    ChunkTypes(event);
    ProcessTypes(event);
  }

  lemma StateEndsNone(event: DriverStreamEvent)
    requires event.event_type in {"turn_started", "turn_completed", "turn_failed", "plan", "available_commands_update",
                                  "current_mode_update", "config_option_update", "session_info_update", "usage_update"}
    ensures !EndsRun(ProjectedType(event))
  {
    TurnTypes(event);
    UpdateTypes(event);
    SessionTypes(event);
  }

  /** A projected event never ends a run, whatever the event calls itself. */
  lemma NeverEndsRun(event: DriverStreamEvent)
    ensures ProjectedType(event) != "run.completed" && ProjectedType(event) != "run.failed"
  {
    var eventType := event.event_type;
    if "driver." <= eventType || eventType !in PROTOCOL_TYPES {
      OwnTypeEndsNone(event);
    } else if eventType in {"tool_call", "tool_call_update"} {
      ToolEndsNone(event);
    } else if eventType in {"agent_message_chunk", "agent_thought_chunk", "user_message_chunk", "stderr", "disconnect"} {
      ChunkEndsNone(event);
    } else {
      StateEndsNone(event);
    }
  }

  /** A driver's own name that no other type is projected to. */
  predicate IsOwnName(name: string) {
    name == "driver.prompt_dispatching" || name == "driver.session_initializing"
  }

  lemma OnlyOwnNames(event: DriverStreamEvent, name: string)
    requires IsOwnName(name)
    ensures ProjectedType(event) == name <==> event.event_type == name
  {
    var eventType := event.event_type;
    if "driver." <= eventType || eventType !in PROTOCOL_TYPES {
      OtherTypes(event);
      assert "driver." <= name;
    } else if eventType in {"tool_call", "tool_call_update"} {
      ToolTypes(event);
    } else if eventType in {"agent_message_chunk", "agent_thought_chunk", "user_message_chunk", "stderr", "disconnect"} {
      ChunkTypes(event);
      ProcessTypes(event);
    } else {
      TurnTypes(event);
      UpdateTypes(event);
      SessionTypes(event);
    }
  }
}
