/** The values that one reconciliation pass reads and produces: the source schedule's
    entries (already converted to create requests), the mirror's scheduled events, the
    request payloads, and the entries of the log of mutation calls. */
module Events {

  datatype Option<T> = None | Some(value: T)

  /** An instant, in whole seconds since the Unix epoch. */
  type Time = int

  /** A recurrence rule as carried by a scheduled event. The pass reads and rewrites only
      `start`; the remaining fields are carried along unchanged and never interpreted. */
  datatype RecurrenceRule = RecurrenceRule(start: Time, frequency: nat, interval: nat, byWeekday: seq<nat>)

  datatype EntityMetadata = EntityMetadata(location: string)

  /** The body of a create request, built from one source event. */
  datatype CreateEvent = CreateEvent(
    name: string,
    description: string,
    privacyLevel: nat,
    entityType: nat,
    entityMetadata: EntityMetadata,
    scheduledStart: Time,
    scheduledEnd: Time,
    recurrenceRule: Option<RecurrenceRule>)

  /** The body of an edit request. */
  datatype UpdateEvent = UpdateEvent(
    name: string,
    description: string,
    scheduledStart: Time,
    scheduledEnd: Time,
    recurrenceRule: Option<RecurrenceRule>)

  /** A scheduled event as listed by the mirror platform, with the fields the pass uses. */
  datatype MirrorEvent = MirrorEvent(
    id: string,
    name: string,
    description: string,
    creatorId: string,
    scheduledStart: Time,
    scheduledEnd: Time,
    recurrenceRule: Option<RecurrenceRule>)

  /** A source event: its uid paired with the create request converted from it. */
  datatype SourceEntry = SourceEntry(uid: string, event: CreateEvent)

  /** A bot-owned mirror event paired with the correlation key read from its description. */
  datatype Keyed = Keyed(key: string, event: MirrorEvent)

  /** One mutation call sent to the mirror platform. */
  datatype Action =
    | Create(payload: CreateEvent)
    | Delete(id: string)
    | Edit(id: string, update: UpdateEvent)

  /** One planned step of the pass: a mutation call, or the panic raised by unwrapping a
      missing next occurrence. */
  datatype Step = Call(action: Action) | Panic

  /** The rule's next-occurrence function: None where the source's `next_date` yields none. */
  type NextDate = (RecurrenceRule, Time) -> Option<Time>

  /** The equivalence test between a source event's create request and a mirror event. */
  type Compare = (CreateEvent, MirrorEvent) -> bool

  /** The mirror platform's answers: `accept(n, a)` holds when the call `a`, issued after
      `n` earlier calls of the pass, succeeds. */
  type Responder = (nat, Action) -> bool

  /** Position of an action's group in the order the pass issues them. */
  function Rank(a: Action): nat
  {
    match a
    case Create(_) => 0
    case Delete(_) => 1
    case Edit(_, _) => 2
  }
}
