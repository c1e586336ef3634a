/** Events as the log stores them. Nothing about them depends on wall-clock time. */
module Events {
  import opened Identifiers
  import opened Wrappers

  const SCHEMA_VERSION: int := 1
  const MAX_SCHEMA_VERSION: int := 0xFFFF

  datatype EventType = Rain | Growth | Pest | ControlChanged | RunStateChanged | Unknown(name: string)

  datatype Event = Event(
    eventID: string, typ: EventType, schemaVersion: int, runID: string, entityID: string,
    partitionKey: string, sequence: int, occurredAt: int, attempt: int, amount: int, revision: int)

  datatype Defect =
    | MissingEventID | UnknownType | BadSchemaVersion | MissingRunID
    | NegativeSequence | NegativeTime | BadAttempt | MissingEntity

  function TypeName(t: EventType): string {
    match t
    case Rain => "rain"
    case Growth => "growth"
    case Pest => "pest"
    case ControlChanged => "control_changed"
    case RunStateChanged => "run_state_changed"
    case Unknown(name) => name
  }

  predicate IsOrganismEvent(e: Event) {
    e.typ.Rain? || e.typ.Growth? || e.typ.Pest?
  }

  /** The first defect of the envelope, in the order the checks are made. */
  function Validate(e: Event): Option<Defect> {
    if e.eventID == "" then Some(MissingEventID)
    else if e.typ.Unknown? then Some(UnknownType)
    else if e.schemaVersion <= 0 then Some(BadSchemaVersion)
    else if e.runID == "" then Some(MissingRunID)
    else if e.sequence < 0 then Some(NegativeSequence)
    else if e.occurredAt < 0 then Some(NegativeTime)
    else if e.attempt < 1 then Some(BadAttempt)
    else if IsOrganismEvent(e) && e.entityID == "" then Some(MissingEntity)
    else None
  }

  predicate Valid(e: Event) {
    Validate(e).None?
  }

  /** An envelope is accepted exactly when it is complete, and an organism event also names its organism. */
  lemma AcceptedEvents(e: Event)
    ensures Valid(e) <==>
              && e.eventID != "" && e.runID != "" && e.schemaVersion >= 1
              && e.sequence >= 0 && e.occurredAt >= 0 && e.attempt >= 1
              && (e.typ.ControlChanged? || e.typ.RunStateChanged? || (IsOrganismEvent(e) && e.entityID != ""))
    ensures Encodable(e) <==> Valid(e) && e.schemaVersion <= 65535
  {
  }

  /** What the log accepts: a valid envelope whose schema version fits the record header. */
  predicate Encodable(e: Event) {
    Valid(e) && e.schemaVersion <= MAX_SCHEMA_VERSION
  }

  /** What the processor deduplicates on. */
  function Key(e: Event): string {
    match e.typ
    case ControlChanged => RevisionKey(e.runID, TypeName(e.typ), e.revision)
    case RunStateChanged => RevisionKey(e.runID, TypeName(e.typ), e.revision)
    case _ => e.eventID
  }

  /** The keys a processor holds after seeing these events. */
  ghost function Keys(es: seq<Event>): set<string> {
    set e | e in es && Valid(e) :: Key(e)
  }

  lemma KeysOfSnoc(es: seq<Event>, e: Event)
    ensures Keys(es + [e]) == Keys(es) + (if Valid(e) then {Key(e)} else {})
  {
    assert forall x :: x in es + [e] <==> x in es || x == e;
  }

  lemma KeysOfConcat(a: seq<Event>, b: seq<Event>)
    ensures Keys(a + b) == Keys(a) + Keys(b)
  {
    assert forall x :: x in a + b <==> x in a || x in b;
  }
}
