/** What the pass sends for one source or mirror event: the re-anchored create request of
    a past recurring event, the edit request of a stale mirror event, and the step (a call,
    nothing, or a panic) that each event contributes. `nextDate` stands for the recurrence
    rule's next-occurrence function and `compare` for the equivalence test; both are given. */
module Payload {
  import opened Events
  import opened Partition

  /** The create request moved to the occurrence starting at `t`: same length, the rule
      re-anchored at `t`, every other field kept. */
  function Reanchored(e: CreateEvent, t: Time): (r: CreateEvent)
    requires e.recurrenceRule.Some?
    ensures r.scheduledStart == t
    ensures r.scheduledEnd - r.scheduledStart == e.scheduledEnd - e.scheduledStart
    ensures r.recurrenceRule.Some? && r.recurrenceRule.value.start == t
    ensures r.recurrenceRule.value.(start := e.recurrenceRule.value.start) == e.recurrenceRule.value
    ensures r.name == e.name && r.description == e.description
    ensures r.privacyLevel == e.privacyLevel && r.entityType == e.entityType && r.entityMetadata == e.entityMetadata
  {
    var start := t;
    var end := start + (e.scheduledEnd - e.scheduledStart);
    e.(scheduledStart := start, scheduledEnd := end,
       recurrenceRule := Some(e.recurrenceRule.value.(start := start)))
  }

  /** The edit request taken over from the source's create request as it is. */
  function Copied(c: CreateEvent): (u: UpdateEvent)
    ensures u.name == c.name && u.description == c.description
    ensures u.scheduledStart == c.scheduledStart && u.scheduledEnd == c.scheduledEnd
    ensures u.recurrenceRule == c.recurrenceRule
  {
    UpdateEvent(c.name, c.description, c.scheduledStart, c.scheduledEnd, c.recurrenceRule)
  }

  /** The edit request of a recurring source event, moved to the occurrence starting at
      `t` and keeping the mirror event's length. */
  function Rescheduled(c: CreateEvent, m: MirrorEvent, t: Time): (u: UpdateEvent)
    requires c.recurrenceRule.Some?
    ensures u.name == c.name && u.description == c.description
    ensures u.scheduledStart == t
    ensures u.scheduledEnd - u.scheduledStart == m.scheduledEnd - m.scheduledStart
    ensures u.recurrenceRule.Some? && u.recurrenceRule.value.start == t
    ensures u.recurrenceRule.value.(start := c.recurrenceRule.value.start) == c.recurrenceRule.value
  {
    var start := t;
    UpdateEvent(c.name, c.description, start, start + (m.scheduledEnd - m.scheduledStart),
                Some(c.recurrenceRule.value.(start := start)))
  }

  /** What one create candidate contributes to the pass. */
  function CreatePlan(e: CreateEvent, now: Time, nextDate: NextDate): (r: seq<Step>)
    ensures |r| <= 1
    // a future event is sent unchanged
    ensures e.scheduledStart > now ==> r == [Call(Create(e))]
    // a past event without a rule is dropped, and only such an event is
    ensures r == [] <==> e.scheduledStart <= now && e.recurrenceRule.None?
    // the pass panics exactly when a past recurring event has no next occurrence
    ensures r == [Panic] <==>
              e.scheduledStart <= now && e.recurrenceRule.Some? && nextDate(e.recurrenceRule.value, e.scheduledStart).None?
    // a past recurring event is sent re-anchored at the rule's next occurrence after its start
    ensures e.scheduledStart <= now && e.recurrenceRule.Some? && nextDate(e.recurrenceRule.value, e.scheduledStart).Some? ==>
              r == [Call(Create(Reanchored(e, nextDate(e.recurrenceRule.value, e.scheduledStart).value)))]
    ensures r != [] && r[0].Call? ==> r[0].action.Create? && CreateJustified(e, r[0].action.payload, now, nextDate)
  {
    if e.scheduledStart > now then [Call(Create(e))]
    else
      match e.recurrenceRule
      case None => []
      case Some(rule) =>
        match nextDate(rule, e.scheduledStart)
        case None => [Panic]
        case Some(t) => [Call(Create(Reanchored(e, t)))]
  }

  /** What one bot-owned mirror event of the edit group contributes to the pass. */
  function EditPlan(k: Keyed, source: seq<SourceEntry>, compare: Compare, nextDate: NextDate): seq<Step>
  {
    var filtered := Matching(source, k.key);
    if filtered == [] then []
    else
      var c := filtered[0];
      if compare(c, k.event) then []
      else
        match c.recurrenceRule
        case None => [Call(Edit(k.event.id, Copied(c)))]
        case Some(rule) =>
          match nextDate(rule, k.event.scheduledStart)
          case None => [Panic]
          case Some(t) => [Call(Edit(k.event.id, Rescheduled(c, k.event, t)))]
  }

  /** The first source event matching `k` exists and is not equivalent to it. */
  predicate NeedsEdit(k: Keyed, source: seq<SourceEntry>, compare: Compare)
  {
    var filtered := Matching(source, k.key);
    filtered != [] && !compare(filtered[0], k.event)
  }

  /** When and how a mirror event of the edit group is edited. */
  lemma EditPlanSpec(k: Keyed, source: seq<SourceEntry>, compare: Compare, nextDate: NextDate)
    ensures var r := EditPlan(k, source, compare, nextDate);
      |r| <= 1
    // nothing is sent when there is no matching source event or the first one is equivalent
    ensures var r := EditPlan(k, source, compare, nextDate);
      r != [] <==> NeedsEdit(k, source, compare)
    // any call is an edit of this mirror event, built from the first matching source event
    ensures var r := EditPlan(k, source, compare, nextDate);
      r != [] && r[0].Call? ==>
        && r[0].action.Edit? && r[0].action.id == k.event.id
        && EditJustified(k, source, compare, nextDate, r[0].action.update)
    // the pass panics exactly when the first match recurs and has no next occurrence
    ensures var r := EditPlan(k, source, compare, nextDate);
      r == [Panic] <==>
        && NeedsEdit(k, source, compare)
        && Matching(source, k.key)[0].recurrenceRule.Some?
        && nextDate(Matching(source, k.key)[0].recurrenceRule.value, k.event.scheduledStart).None?
  {
  }

  /** `c` is what the pass sends for the create candidate `e`: `e` itself when it lies in
      the future, or `e` re-anchored at its rule's next occurrence when it is past and recurs. */
  ghost predicate CreateJustified(e: CreateEvent, c: CreateEvent, now: Time, nextDate: NextDate)
  {
    || (e.scheduledStart > now && c == e)
    || (&& e.scheduledStart <= now && e.recurrenceRule.Some?
        && nextDate(e.recurrenceRule.value, e.scheduledStart).Some?
        && c == Reanchored(e, nextDate(e.recurrenceRule.value, e.scheduledStart).value))
  }

  /** `u` is the edit request the pass builds for `k` from the first matching source event,
      which `compare` found not equivalent: that event's own times without a rule, or the
      next occurrence after the mirror event's current start with a rule. */
  ghost predicate EditJustified(k: Keyed, source: seq<SourceEntry>, compare: Compare, nextDate: NextDate,
                                u: UpdateEvent)
  {
    var filtered := Matching(source, k.key);
    && filtered != []
    && var c := filtered[0];
    && !compare(c, k.event)
    && u.name == c.name && u.description == c.description
    && (c.recurrenceRule.None? ==> u == Copied(c))
    && (c.recurrenceRule.Some? ==>
          && nextDate(c.recurrenceRule.value, k.event.scheduledStart).Some?
          && u == Rescheduled(c, k.event, nextDate(c.recurrenceRule.value, k.event.scheduledStart).value))
  }
}
