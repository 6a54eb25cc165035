/** One reconciliation pass: fetch both event lists, plan the creates, deletes and edits,
    and issue them in that order, stopping at the first call that fails. The mutation calls
    are recorded in an action log; the platform's answers come from a `Responder`. */
module Sync {
  import opened Events
  import opened Correlation
  import opened Partition
  import opened Payload

  /** The result of fetching one of the two event lists. */
  datatype Fetch<T> = Fetched(items: seq<T>) | FetchError

  datatype Failure = SourceFetchFailed | MirrorFetchFailed | Rejected(action: Action)

  /** How a pass ends: it returns Ok, returns the first error, or panics. */
  datatype Outcome = Completed | Failed(failure: Failure) | Panicked

  /** The calls a pass issued, in order, and how it ended. */
  datatype Run = Run(log: seq<Action>, outcome: Outcome)

  // ---------------------------------------------------------------------------
  // The plan: every step of the pass, in the order the three loops take them
  // ---------------------------------------------------------------------------

  function CreatesPlan(xs: seq<SourceEntry>, now: Time, nextDate: NextDate): seq<Step>
  {
    if xs == [] then [] else CreatePlan(xs[0].event, now, nextDate) + CreatesPlan(xs[1..], now, nextDate)
  }

  function DeletesPlan(ds: seq<Keyed>): seq<Step>
  {
    if ds == [] then [] else [Call(Delete(ds[0].event.id))] + DeletesPlan(ds[1..])
  }

  function EditsPlan(es: seq<Keyed>, source: seq<SourceEntry>, compare: Compare, nextDate: NextDate): seq<Step>
  {
    if es == [] then [] else EditPlan(es[0], source, compare, nextDate) + EditsPlan(es[1..], source, compare, nextDate)
  }

  function Plan(source: seq<SourceEntry>, mirror: seq<MirrorEvent>, botId: string, now: Time,
                nextDate: NextDate, compare: Compare): seq<Step>
  {
    var owned := Owned(mirror, botId);
    CreatesPlan(ToCreate(source, owned), now, nextDate)
      + DeletesPlan(ToDelete(owned, source))
      + EditsPlan(ToEdit(owned, source), source, compare, nextDate)
  }

  /** The calls among `steps` that come before the first panic. */
  function Calls(steps: seq<Step>): seq<Action>
  {
    if steps == [] then []
    else match steps[0]
      case Panic => []
      case Call(a) => [a] + Calls(steps[1..])
  }

  /** Takes `steps` in order after the calls already in `log`: a call is appended to the log
      and ends the pass when the platform rejects it; a panic ends the pass. */
  function Apply(steps: seq<Step>, accept: Responder, log: seq<Action>): Run
  {
    if steps == [] then Run(log, Completed)
    else match steps[0]
      case Panic => Run(log, Panicked)
      case Call(a) =>
        if accept(|log|, a) then Apply(steps[1..], accept, log + [a])
        else Run(log + [a], Failed(Rejected(a)))
  }

  /** The whole pass: a failed fetch ends it before any call. */
  function SyncRun(sourceFetch: Fetch<SourceEntry>, mirrorFetch: Fetch<MirrorEvent>, botId: string, now: Time,
                   nextDate: NextDate, compare: Compare, accept: Responder): Run
  {
    match sourceFetch
    case FetchError => Run([], Failed(SourceFetchFailed))
    case Fetched(source) =>
      match mirrorFetch
      case FetchError => Run([], Failed(MirrorFetchFailed))
      case Fetched(mirror) => Apply(Plan(source, mirror, botId, now, nextDate, compare), accept, [])
  }

  /** All calls of `log` from position `from` up to `to` were accepted. */
  ghost predicate AllAccepted(log: seq<Action>, accept: Responder, from: nat, to: nat)
    requires from <= to <= |log|
  {
    forall i :: from <= i < to ==> accept(i, log[i])
  }

  // ---------------------------------------------------------------------------
  // The pass as the source runs it
  // ---------------------------------------------------------------------------

  /** The pass as the source runs it: fetch, partition, then the three loops. */
  method RunSync(sourceFetch: Fetch<SourceEntry>, mirrorFetch: Fetch<MirrorEvent>, botId: string, now: Time,
                 nextDate: NextDate, compare: Compare, accept: Responder)
    returns (log: seq<Action>, outcome: Outcome)
    ensures Run(log, outcome) == SyncRun(sourceFetch, mirrorFetch, botId, now, nextDate, compare, accept)
  {
    if sourceFetch.FetchError? {
      return [], Failed(SourceFetchFailed);
    }
    var twitchEvents := sourceFetch.items;
    if mirrorFetch.FetchError? {
      return [], Failed(MirrorFetchFailed);
    }
    var discordEvents := Owned(mirrorFetch.items, botId);
    var toCreate := ToCreate(twitchEvents, discordEvents);
    var toDelete := ToDelete(discordEvents, twitchEvents);
    var toEdit := ToEdit(discordEvents, twitchEvents);
    ghost var edits := EditsPlan(toEdit, twitchEvents, compare, nextDate);
    ghost var rest := DeletesPlan(toDelete) + edits;
    PlanSplit(twitchEvents, mirrorFetch.items, botId, now, nextDate, compare);

    var stop;
    log, stop := IssueCreates(toCreate, now, nextDate, accept, [], rest);
    if stop.Some? {
      return log, stop.value;
    }
    log, stop := IssueDeletes(toDelete, accept, log, edits);
    if stop.Some? {
      return log, stop.value;
    }
    assert edits + [] == edits;
    log, stop := IssueEdits(toEdit, twitchEvents, compare, nextDate, accept, log, []);
    if stop.Some? {
      return log, stop.value;
    }
    outcome := Completed;
  }

  /** The create loop. Starting after the calls in `log0`, with `rest` planned after it, it
      either takes every create step and leaves `rest` to do, or ends the pass. */
  method IssueCreates(toCreate: seq<SourceEntry>, now: Time, nextDate: NextDate, accept: Responder,
                      log0: seq<Action>, ghost rest: seq<Step>)
    returns (log: seq<Action>, stop: Option<Outcome>)
    ensures stop.None? ==> Apply(CreatesPlan(toCreate, now, nextDate) + rest, accept, log0) == Apply(rest, accept, log)
    ensures stop.Some? ==> Apply(CreatesPlan(toCreate, now, nextDate) + rest, accept, log0) == Run(log, stop.value)
  {
    log, stop := log0, None;
    assert toCreate[0..] == toCreate;
    for i := 0 to |toCreate|
      invariant stop.None?
      invariant Apply(CreatesPlan(toCreate, now, nextDate) + rest, accept, log0)
             == Apply(CreatesPlan(toCreate[i..], now, nextDate) + rest, accept, log)
    {
      CreatesPlanAt(toCreate, i, now, nextDate, rest);
      ghost var later := CreatesPlan(toCreate[i + 1..], now, nextDate) + rest;
      log, stop := IssueCreate(toCreate[i].event, now, nextDate, accept, log, later);
      if stop.Some? {
        return;
      }
    }
    assert CreatesPlan(toCreate[|toCreate|..], now, nextDate) + rest == rest;
  }

  /** One turn of the create loop: the call for `event`, if any, or the panic. */
  method IssueCreate(event: CreateEvent, now: Time, nextDate: NextDate, accept: Responder,
                     log0: seq<Action>, ghost later: seq<Step>)
    returns (log: seq<Action>, stop: Option<Outcome>)
    ensures stop.None? ==> Apply(CreatePlan(event, now, nextDate) + later, accept, log0) == Apply(later, accept, log)
    ensures stop.Some? ==> Apply(CreatePlan(event, now, nextDate) + later, accept, log0) == Run(log, stop.value)
  {
    log, stop := log0, None;
    if event.scheduledStart <= now {
      if event.recurrenceRule.Some? {
        var rule := event.recurrenceRule.value;
        var date := nextDate(rule, event.scheduledStart);
        if date.None? {
          ApplyCons(Panic, later, accept, log);
          return log, Some(Panicked);
        }
        var nextEvent := event;
        nextEvent := nextEvent.(scheduledStart := date.value);
        nextEvent := nextEvent.(scheduledEnd := nextEvent.scheduledStart + (event.scheduledEnd - event.scheduledStart));
        nextEvent := nextEvent.(recurrenceRule := Some(nextEvent.recurrenceRule.value.(start := nextEvent.scheduledStart)));
        var ok := accept(|log|, Create(nextEvent));
        ApplyCons(Call(Create(nextEvent)), later, accept, log);
        log := log + [Create(nextEvent)];
        if !ok {
          return log, Some(Failed(Rejected(Create(nextEvent))));
        }
      } else {
        assert [] + later == later;
      }
      return;
    }
    var ok := accept(|log|, Create(event));
    ApplyCons(Call(Create(event)), later, accept, log);
    log := log + [Create(event)];
    if !ok {
      return log, Some(Failed(Rejected(Create(event))));
    }
  }

  /** The delete loop, with the same contract shape as the create loop. */
  method IssueDeletes(toDelete: seq<Keyed>, accept: Responder, log0: seq<Action>, ghost rest: seq<Step>)
    returns (log: seq<Action>, stop: Option<Outcome>)
    ensures stop.None? ==> Apply(DeletesPlan(toDelete) + rest, accept, log0) == Apply(rest, accept, log)
    ensures stop.Some? ==> Apply(DeletesPlan(toDelete) + rest, accept, log0) == Run(log, stop.value)
  {
    log := log0;
    assert toDelete[0..] == toDelete;
    for i := 0 to |toDelete|
      invariant Apply(DeletesPlan(toDelete) + rest, accept, log0) == Apply(DeletesPlan(toDelete[i..]) + rest, accept, log)
    {
      var event := toDelete[i].event;
      ghost var later := DeletesPlan(toDelete[i + 1..]) + rest;
      assert toDelete[i..][1..] == toDelete[i + 1..];
      assert DeletesPlan(toDelete[i..]) + rest == [Call(Delete(event.id))] + later;
      var ok := accept(|log|, Delete(event.id));
      ApplyCons(Call(Delete(event.id)), later, accept, log);
      log := log + [Delete(event.id)];
      if !ok {
        return log, Some(Failed(Rejected(Delete(event.id))));
      }
    }
    assert toDelete[|toDelete|..] == [];
    assert DeletesPlan([]) + rest == rest;
    stop := None;
  }

  /** The edit loop, with the same contract shape as the create loop. */
  method IssueEdits(toEdit: seq<Keyed>, twitchEvents: seq<SourceEntry>, compare: Compare, nextDate: NextDate,
                    accept: Responder, log0: seq<Action>, ghost rest: seq<Step>)
    returns (log: seq<Action>, stop: Option<Outcome>)
    ensures stop.None? ==> Apply(EditsPlan(toEdit, twitchEvents, compare, nextDate) + rest, accept, log0) == Apply(rest, accept, log)
    ensures stop.Some? ==> Apply(EditsPlan(toEdit, twitchEvents, compare, nextDate) + rest, accept, log0) == Run(log, stop.value)
  {
    log, stop := log0, None;
    assert toEdit[0..] == toEdit;
    for i := 0 to |toEdit|
      invariant stop.None?
      invariant Apply(EditsPlan(toEdit, twitchEvents, compare, nextDate) + rest, accept, log0)
             == Apply(EditsPlan(toEdit[i..], twitchEvents, compare, nextDate) + rest, accept, log)
    {
      EditsPlanAt(toEdit, i, twitchEvents, compare, nextDate, rest);
      ghost var later := EditsPlan(toEdit[i + 1..], twitchEvents, compare, nextDate) + rest;
      log, stop := IssueEdit(toEdit[i], twitchEvents, compare, nextDate, accept, log, later);
      if stop.Some? {
        return;
      }
    }
    assert EditsPlan(toEdit[|toEdit|..], twitchEvents, compare, nextDate) + rest == rest;
  }

  /** One turn of the edit loop: nothing, the edit call for `k`, or the panic. */
  method IssueEdit(k: Keyed, twitchEvents: seq<SourceEntry>, compare: Compare, nextDate: NextDate,
                   accept: Responder, log0: seq<Action>, ghost later: seq<Step>)
    returns (log: seq<Action>, stop: Option<Outcome>)
    ensures stop.None? ==> Apply(EditPlan(k, twitchEvents, compare, nextDate) + later, accept, log0) == Apply(later, accept, log)
    ensures stop.Some? ==> Apply(EditPlan(k, twitchEvents, compare, nextDate) + later, accept, log0) == Run(log, stop.value)
  {
    log, stop := log0, None;
    var disTwitchUid, event := k.key, k.event;
    var filteredEvents := Matching(twitchEvents, disTwitchUid);
    if filteredEvents == [] {
      assert [] + later == later;
      return;
    }
    var createEvent := filteredEvents[0];
    if compare(createEvent, event) {
      assert [] + later == later;
      return;
    }
    var update := UpdatePayload(createEvent, event, nextDate);
    if update.None? {
      ApplyCons(Panic, later, accept, log);
      return log, Some(Panicked);
    }
    var newEvent := update.value;
    var ok := accept(|log|, Edit(event.id, newEvent));
    ApplyCons(Call(Edit(event.id, newEvent)), later, accept, log);
    log := log + [Edit(event.id, newEvent)];
    if !ok {
      return log, Some(Failed(Rejected(Edit(event.id, newEvent))));
    }
  }

  /** The edit request built for mirror event `event` from its first matching source event
      `createEvent`, field by field as the source does; None where the next occurrence is
      missing and the source would panic. */
  method UpdatePayload(createEvent: CreateEvent, event: MirrorEvent, nextDate: NextDate)
    returns (update: Option<UpdateEvent>)
    ensures createEvent.recurrenceRule.None? ==> update == Some(Copied(createEvent))
    ensures createEvent.recurrenceRule.Some? ==>
      update == match nextDate(createEvent.recurrenceRule.value, event.scheduledStart)
                case None => None
                case Some(t) => Some(Rescheduled(createEvent, event, t))
  {
    var newEvent := UpdateEvent(createEvent.name, createEvent.description,
                                createEvent.scheduledStart, createEvent.scheduledEnd, createEvent.recurrenceRule);
    if newEvent.recurrenceRule.Some? {
      var rule := newEvent.recurrenceRule.value;
      var date := nextDate(rule, event.scheduledStart);
      if date.None? {
        return None;
      }
      newEvent := newEvent.(scheduledStart := date.value);
      newEvent := newEvent.(scheduledEnd := newEvent.scheduledStart + (event.scheduledEnd - event.scheduledStart));
      newEvent := newEvent.(recurrenceRule := Some(newEvent.recurrenceRule.value.(start := newEvent.scheduledStart)));
    }
    update := Some(newEvent);
  }

  /** The plan as the three loops see it: the creates, then the deletes and edits. */
  lemma PlanSplit(source: seq<SourceEntry>, mirror: seq<MirrorEvent>, botId: string, now: Time,
                  nextDate: NextDate, compare: Compare)
    ensures var owned := Owned(mirror, botId);
      Plan(source, mirror, botId, now, nextDate, compare)
        == CreatesPlan(ToCreate(source, owned), now, nextDate)
         + (DeletesPlan(ToDelete(owned, source)) + EditsPlan(ToEdit(owned, source), source, compare, nextDate))
  {
  }

  /** The create steps from position `i` on: those of `xs[i]`, then those after it. */
  lemma CreatesPlanAt(xs: seq<SourceEntry>, i: nat, now: Time, nextDate: NextDate, rest: seq<Step>)
    requires i < |xs|
    ensures CreatesPlan(xs[i..], now, nextDate) + rest
         == CreatePlan(xs[i].event, now, nextDate) + (CreatesPlan(xs[i + 1..], now, nextDate) + rest)
  {
    assert xs[i..][1..] == xs[i + 1..];
  }

  /** The edit steps from position `i` on: those of `es[i]`, then those after it. */
  lemma EditsPlanAt(es: seq<Keyed>, i: nat, source: seq<SourceEntry>, compare: Compare, nextDate: NextDate,
                    rest: seq<Step>)
    requires i < |es|
    ensures EditsPlan(es[i..], source, compare, nextDate) + rest
         == EditPlan(es[i], source, compare, nextDate) + (EditsPlan(es[i + 1..], source, compare, nextDate) + rest)
  {
    assert es[i..][1..] == es[i + 1..];
  }

  /** Taking one step and then the rest. */
  lemma ApplyCons(step: Step, rest: seq<Step>, accept: Responder, log: seq<Action>)
    ensures Apply([step] + rest, accept, log) ==
      match step
      case Panic => Run(log, Panicked)
      case Call(a) =>
        if accept(|log|, a) then Apply(rest, accept, log + [a]) else Run(log + [a], Failed(Rejected(a)))
  {
    assert ([step] + rest)[0] == step;
    assert ([step] + rest)[1..] == rest;
  }

  // ---------------------------------------------------------------------------
  // Properties of the pass
  // ---------------------------------------------------------------------------

  /** The calls of two step lists taken one after the other. */
  lemma {:induction false} CallsAppend(a: seq<Step>, b: seq<Step>)
    ensures Calls(a + b) == Calls(a) + (if Panic in a then [] else Calls(b))
    decreases |a|
  {
    if a == [] {
      assert a + b == b;
    } else {
      assert (a + b)[0] == a[0];
      assert (a + b)[1..] == a[1..] + b;
      assert a == [a[0]] + a[1..];
      if a[0].Call? {
        CallsAppend(a[1..], b);
      }
    }
  }

  /** The calls already made stay in the log, and what a pass adds to it is a prefix of
      the planned calls. */
  lemma {:induction false} ApplyPrefix(steps: seq<Step>, accept: Responder, log: seq<Action>)
    ensures var r := Apply(steps, accept, log);
      && |log| <= |r.log| && r.log[..|log|] == log
      && r.log[|log|..] <= Calls(steps)
    decreases |steps|
  {
    if steps != [] && steps[0].Call? {
      var a := steps[0].action;
      assert Calls(steps) == [a] + Calls(steps[1..]);
      if accept(|log|, a) {
        ApplyPrefix(steps[1..], accept, log + [a]);
        var r := Apply(steps[1..], accept, log + [a]);
        assert r.log[..|log|] == (log + [a])[..|log|];
        assert r.log[|log|..] == [a] + r.log[|log| + 1..];
      }
    }
  }

  /** Fail-fast: every call but a failing last one was accepted; a pass that does not fail
      has made every planned call before the first panic, and it panicked exactly when the
      plan holds a panic. */
  lemma {:induction false} ApplyFailFast(steps: seq<Step>, accept: Responder, log: seq<Action>)
    ensures var r := Apply(steps, accept, log);
      && |log| <= |r.log| && r.log[..|log|] == log
      && r.log[|log|..] <= Calls(steps)
    ensures var r := Apply(steps, accept, log);
      r.outcome.Completed? ==>
        && r.log == log + Calls(steps) && Panic !in steps
        && |log| <= |r.log| && AllAccepted(r.log, accept, |log|, |r.log|)
    ensures var r := Apply(steps, accept, log);
      r.outcome.Panicked? ==>
        && r.log == log + Calls(steps) && Panic in steps
        && |log| <= |r.log| && AllAccepted(r.log, accept, |log|, |r.log|)
    ensures var r := Apply(steps, accept, log);
      r.outcome.Failed? ==>
        && |log| < |r.log|
        && r.outcome.failure == Rejected(r.log[|r.log| - 1])
        && !accept(|r.log| - 1, r.log[|r.log| - 1])
        && AllAccepted(r.log, accept, |log|, |r.log| - 1)
    decreases |steps|
  {
    ApplyPrefix(steps, accept, log);
    if steps == [] {
      return;
    }
    assert steps == [steps[0]] + steps[1..];
    if steps[0].Panic? {
      assert Calls(steps) == [];
      return;
    }
    var a := steps[0].action;
    assert Calls(steps) == [a] + Calls(steps[1..]);
    if !accept(|log|, a) {
      return;
    }
    var log' := log + [a];
    ApplyFailFast(steps[1..], accept, log');
    var r := Apply(steps[1..], accept, log');
    assert Apply(steps, accept, log) == r;
    assert Panic in steps <==> Panic in steps[1..];
    if !r.outcome.Failed? {
      assert r.log == log + Calls(steps);
    }
    assert r.log[|log|] == a;
    assert forall i :: |log'| <= i < |r.log| - 1 ==> accept(i, r.log[i]);
  }

  /** Every call of the create loop is a create request justified by one candidate. */
  lemma {:induction false} CreatesCalls(xs: seq<SourceEntry>, now: Time, nextDate: NextDate)
    ensures forall a :: a in Calls(CreatesPlan(xs, now, nextDate)) ==>
      a.Create? && exists x :: x in xs && CreateJustified(x.event, a.payload, now, nextDate)
    decreases |xs|
  {
    if xs != [] {
      var head := CreatePlan(xs[0].event, now, nextDate);
      CallsAppend(head, CreatesPlan(xs[1..], now, nextDate));
      CreatesCalls(xs[1..], now, nextDate);
      assert forall x :: x in xs[1..] ==> x in xs;
      if head != [] && head[0].Call? {
        assert Calls(head) == [head[0].action];
      }
    }
  }

  /** Every call of the delete loop deletes one event of the delete group. */
  lemma {:induction false} DeletesCalls(ds: seq<Keyed>)
    ensures Panic !in DeletesPlan(ds)
    ensures forall a :: a in Calls(DeletesPlan(ds)) ==> a.Delete? && exists k :: k in ds && k.event.id == a.id
    ensures forall k :: k in ds ==> Delete(k.event.id) in Calls(DeletesPlan(ds))
    decreases |ds|
  {
    if ds != [] {
      var head := [Call(Delete(ds[0].event.id))];
      CallsAppend(head, DeletesPlan(ds[1..]));
      DeletesCalls(ds[1..]);
      assert Calls(head) == [Delete(ds[0].event.id)];
      assert forall k :: k in ds ==> k == ds[0] || k in ds[1..];
    }
  }

  /** Every call of the edit loop is a justified edit of one event of the edit group. */
  lemma {:induction false} EditsCalls(es: seq<Keyed>, source: seq<SourceEntry>, compare: Compare, nextDate: NextDate)
    ensures forall a :: a in Calls(EditsPlan(es, source, compare, nextDate)) ==>
      a.Edit? && exists k :: k in es && k.event.id == a.id && EditJustified(k, source, compare, nextDate, a.update)
    decreases |es|
  {
    if es != [] {
      var head := EditPlan(es[0], source, compare, nextDate);
      EditPlanSpec(es[0], source, compare, nextDate);
      CallsAppend(head, EditsPlan(es[1..], source, compare, nextDate));
      EditsCalls(es[1..], source, compare, nextDate);
      assert forall k :: k in es[1..] ==> k in es;
      if head != [] && head[0].Call? {
        assert Calls(head) == [head[0].action];
      }
    }
  }

  /** The actions of `s` are grouped creates, then deletes, then edits. */
  ghost predicate RankOrdered(s: seq<Action>)
  {
    forall i, j :: 0 <= i < j < |s| ==> Rank(s[i]) <= Rank(s[j])
  }

  /** Grouped calls stay grouped when the three step lists are taken in turn. */
  lemma GroupsOrdered(c: seq<Step>, d: seq<Step>, e: seq<Step>)
    requires forall a :: a in Calls(c) ==> Rank(a) == 0
    requires forall a :: a in Calls(d) ==> Rank(a) == 1
    requires forall a :: a in Calls(e) ==> Rank(a) == 2
    ensures RankOrdered(Calls(c + d + e))
  {
    CallsAppend(c + d, e);
    CallsAppend(c, d);
    var cs, ds, es := Calls(c), Calls(d), Calls(e);
    var all := Calls(c + d + e);
    assert all == cs + ds + es || all == cs + ds || all == cs;
    forall i, j | 0 <= i < j < |all| ensures Rank(all[i]) <= Rank(all[j]) {
      assert all[i] in cs || all[i] in ds || all[i] in es;
      assert all[j] in cs || all[j] in ds || all[j] in es;
      if all[j] in cs {
        assert j < |cs|;
        assert all[i] in cs;
      } else if all[j] in ds {
        assert j < |cs| + |ds|;
        assert i < |cs| + |ds|;
        assert all[i] in cs || all[i] in ds;
      }
    }
  }

  /** A call of the three step lists taken in turn is a call of one of them. */
  lemma GroupsCalls(c: seq<Step>, d: seq<Step>, e: seq<Step>)
    ensures forall a :: a in Calls(c + d + e) ==> a in Calls(c) || a in Calls(d) || a in Calls(e)
  {
    CallsAppend(c + d, e);
    CallsAppend(c, d);
  }

  /** A call of a pass is a planned call. */
  lemma LogPlanned(steps: seq<Step>, accept: Responder)
    ensures forall a :: a in Apply(steps, accept, []).log ==> a in Calls(steps)
  {
    ApplyFailFast(steps, accept, []);
    var log := Apply(steps, accept, []).log;
    assert log[0..] == log;
    forall a | a in log ensures a in Calls(steps) {
      var i :| 0 <= i < |log| && log[i] == a;
      assert a == Calls(steps)[i];
    }
  }

  /** The planned calls come as every create, then every delete, then every edit. */
  lemma PlanOrdered(source: seq<SourceEntry>, mirror: seq<MirrorEvent>, botId: string, now: Time,
                    nextDate: NextDate, compare: Compare)
    ensures RankOrdered(Calls(Plan(source, mirror, botId, now, nextDate, compare)))
  {
    var owned := Owned(mirror, botId);
    CreatesCalls(ToCreate(source, owned), now, nextDate);
    DeletesCalls(ToDelete(owned, source));
    EditsCalls(ToEdit(owned, source), source, compare, nextDate);
    GroupsOrdered(CreatesPlan(ToCreate(source, owned), now, nextDate), DeletesPlan(ToDelete(owned, source)),
                  EditsPlan(ToEdit(owned, source), source, compare, nextDate));
  }

  /** A prefix of grouped calls is grouped. */
  lemma PrefixOrdered(s: seq<Action>, t: seq<Action>)
    requires RankOrdered(t) && s <= t
    ensures RankOrdered(s)
  {
    assert forall i :: 0 <= i < |s| ==> s[i] == t[i];
  }

  /** The calls of a pass come as creates, then deletes, then edits, whatever the platform
      answers and wherever the pass stops. */
  lemma SyncOrdered(source: seq<SourceEntry>, mirror: seq<MirrorEvent>, botId: string, now: Time,
                    nextDate: NextDate, compare: Compare, accept: Responder)
    ensures RankOrdered(SyncRun(Fetched(source), Fetched(mirror), botId, now, nextDate, compare, accept).log)
  {
    var plan := Plan(source, mirror, botId, now, nextDate, compare);
    PlanOrdered(source, mirror, botId, now, nextDate, compare);
    ApplyPrefix(plan, accept, []);
    var log := Apply(plan, accept, []).log;
    assert log[0..] == log;
    PrefixOrdered(log, Calls(plan));
  }

  /** Every call of a pass is justified: a create comes from a source event whose uid
      matches no bot-owned key; a delete names a bot-owned mirror event whose key matches no
      source uid; an edit names a bot-owned mirror event whose key matches one, and carries
      the request built from the first matching source event. */
  lemma SyncJustified(source: seq<SourceEntry>, mirror: seq<MirrorEvent>, botId: string, now: Time,
                      nextDate: NextDate, compare: Compare, accept: Responder)
    ensures var owned := Owned(mirror, botId);
      forall a :: a in SyncRun(Fetched(source), Fetched(mirror), botId, now, nextDate, compare, accept).log ==>
        match a
        case Create(c) =>
          exists x :: x in source && !HasKey(owned, x.uid) && CreateJustified(x.event, c, now, nextDate)
        case Delete(id) =>
          exists e :: e in mirror && e.id == id && e.creatorId == botId && !HasUid(source, Key(e.description))
        case Edit(id, u) =>
          exists e :: && e in mirror && e.id == id && e.creatorId == botId && HasUid(source, Key(e.description))
                      && EditJustified(Keyed(Key(e.description), e), source, compare, nextDate, u)
  {
    var owned := Owned(mirror, botId);
    var c := CreatesPlan(ToCreate(source, owned), now, nextDate);
    var d := DeletesPlan(ToDelete(owned, source));
    var e := EditsPlan(ToEdit(owned, source), source, compare, nextDate);
    CreatesCalls(ToCreate(source, owned), now, nextDate);
    DeletesCalls(ToDelete(owned, source));
    EditsCalls(ToEdit(owned, source), source, compare, nextDate);
    GroupsCalls(c, d, e);
    LogPlanned(Plan(source, mirror, botId, now, nextDate, compare), accept);
  }

  /** A mirror event the bot did not create is never deleted or edited, provided mirror
      ids are unique. */
  lemma SyncForeignUntouched(source: seq<SourceEntry>, mirror: seq<MirrorEvent>, botId: string, now: Time,
                             nextDate: NextDate, compare: Compare, accept: Responder, foreign: MirrorEvent)
    requires forall i, j :: 0 <= i < j < |mirror| ==> mirror[i].id != mirror[j].id
    requires foreign in mirror && foreign.creatorId != botId
    ensures forall a :: a in SyncRun(Fetched(source), Fetched(mirror), botId, now, nextDate, compare, accept).log ==>
      a.Create? || a.id != foreign.id
  {
    SyncJustified(source, mirror, botId, now, nextDate, compare, accept);
    var log := SyncRun(Fetched(source), Fetched(mirror), botId, now, nextDate, compare, accept).log;
    forall a | a in log && !a.Create?
      ensures a.id != foreign.id
    {
      var e :| e in mirror && e.id == a.id && e.creatorId == botId;
      var i :| 0 <= i < |mirror| && mirror[i] == e;
      var j :| 0 <= j < |mirror| && mirror[j] == foreign;
      assert i != j;
    }
  }

  /** Without a panic, the create loop issues the call of every candidate it does not drop. */
  lemma {:induction false} CreatesComplete(xs: seq<SourceEntry>, now: Time, nextDate: NextDate)
    requires Panic !in CreatesPlan(xs, now, nextDate)
    ensures forall x :: x in xs && CreatePlan(x.event, now, nextDate) != [] ==>
      && CreatePlan(x.event, now, nextDate)[0].Call?
      && CreatePlan(x.event, now, nextDate)[0].action in Calls(CreatesPlan(xs, now, nextDate))
    decreases |xs|
  {
    if xs != [] {
      var head := CreatePlan(xs[0].event, now, nextDate);
      var rest := CreatesPlan(xs[1..], now, nextDate);
      assert CreatesPlan(xs, now, nextDate) == head + rest;
      CallsAppend(head, rest);
      CreatesComplete(xs[1..], now, nextDate);
      if head != [] {
        assert head[0] in head;
        assert Calls(head) == [head[0].action];
      }
      assert forall x :: x in xs ==> x == xs[0] || x in xs[1..];
    }
  }

  /** Without a panic, the edit loop issues the call of every event it does not skip. */
  lemma {:induction false} EditsComplete(es: seq<Keyed>, source: seq<SourceEntry>, compare: Compare, nextDate: NextDate)
    requires Panic !in EditsPlan(es, source, compare, nextDate)
    ensures forall k :: k in es && EditPlan(k, source, compare, nextDate) != [] ==>
      && EditPlan(k, source, compare, nextDate)[0].Call?
      && EditPlan(k, source, compare, nextDate)[0].action in Calls(EditsPlan(es, source, compare, nextDate))
    decreases |es|
  {
    if es != [] {
      var head := EditPlan(es[0], source, compare, nextDate);
      var rest := EditsPlan(es[1..], source, compare, nextDate);
      EditPlanSpec(es[0], source, compare, nextDate);
      assert EditsPlan(es, source, compare, nextDate) == head + rest;
      CallsAppend(head, rest);
      EditsComplete(es[1..], source, compare, nextDate);
      if head != [] {
        assert head[0] in head;
        assert Calls(head) == [head[0].action];
      }
      assert forall k :: k in es ==> k == es[0] || k in es[1..];
    }
  }

  /** A pass that completes has made every planned call of the three loops, none panicked. */
  lemma CompletedLog(source: seq<SourceEntry>, mirror: seq<MirrorEvent>, botId: string, now: Time,
                     nextDate: NextDate, compare: Compare, accept: Responder)
    requires SyncRun(Fetched(source), Fetched(mirror), botId, now, nextDate, compare, accept).outcome.Completed?
    ensures var owned := Owned(mirror, botId);
      var c := CreatesPlan(ToCreate(source, owned), now, nextDate);
      var d := DeletesPlan(ToDelete(owned, source));
      var e := EditsPlan(ToEdit(owned, source), source, compare, nextDate);
      && Panic !in c && Panic !in e
      && SyncRun(Fetched(source), Fetched(mirror), botId, now, nextDate, compare, accept).log
         == Calls(c) + Calls(d) + Calls(e)
  {
    var owned := Owned(mirror, botId);
    var c := CreatesPlan(ToCreate(source, owned), now, nextDate);
    var d := DeletesPlan(ToDelete(owned, source));
    var e := EditsPlan(ToEdit(owned, source), source, compare, nextDate);
    ApplyFailFast(Plan(source, mirror, botId, now, nextDate, compare), accept, []);
    CallsAppend(c + d, e);
    CallsAppend(c, d);
  }

  /** A pass that completes has issued the create of every candidate it does not drop. */
  lemma SyncCompletedCreates(source: seq<SourceEntry>, mirror: seq<MirrorEvent>, botId: string, now: Time,
                             nextDate: NextDate, compare: Compare, accept: Responder, x: SourceEntry)
    requires SyncRun(Fetched(source), Fetched(mirror), botId, now, nextDate, compare, accept).outcome.Completed?
    requires x in ToCreate(source, Owned(mirror, botId))
    requires x.event.scheduledStart > now || x.event.recurrenceRule.Some?
    ensures exists a :: && a in SyncRun(Fetched(source), Fetched(mirror), botId, now, nextDate, compare, accept).log
                        && a.Create? && CreateJustified(x.event, a.payload, now, nextDate)
  {
    CompletedLog(source, mirror, botId, now, nextDate, compare, accept);
    CreatesComplete(ToCreate(source, Owned(mirror, botId)), now, nextDate);
    var a := CreatePlan(x.event, now, nextDate)[0].action;
    assert a in SyncRun(Fetched(source), Fetched(mirror), botId, now, nextDate, compare, accept).log;
  }

  /** A pass that completes has deleted every event of the delete group. */
  lemma SyncCompletedDeletes(source: seq<SourceEntry>, mirror: seq<MirrorEvent>, botId: string, now: Time,
                             nextDate: NextDate, compare: Compare, accept: Responder, k: Keyed)
    requires SyncRun(Fetched(source), Fetched(mirror), botId, now, nextDate, compare, accept).outcome.Completed?
    requires k in ToDelete(Owned(mirror, botId), source)
    ensures Delete(k.event.id) in SyncRun(Fetched(source), Fetched(mirror), botId, now, nextDate, compare, accept).log
  {
    CompletedLog(source, mirror, botId, now, nextDate, compare, accept);
    DeletesCalls(ToDelete(Owned(mirror, botId), source));
  }

  /** A pass that completes has edited every event of the edit group that is not
      equivalent to its first matching source event. */
  lemma SyncCompletedEdits(source: seq<SourceEntry>, mirror: seq<MirrorEvent>, botId: string, now: Time,
                           nextDate: NextDate, compare: Compare, accept: Responder, k: Keyed)
    requires SyncRun(Fetched(source), Fetched(mirror), botId, now, nextDate, compare, accept).outcome.Completed?
    requires k in ToEdit(Owned(mirror, botId), source) && NeedsEdit(k, source, compare)
    ensures exists a :: && a in SyncRun(Fetched(source), Fetched(mirror), botId, now, nextDate, compare, accept).log
                        && a.Edit? && a.id == k.event.id && EditJustified(k, source, compare, nextDate, a.update)
  {
    CompletedLog(source, mirror, botId, now, nextDate, compare, accept);
    EditsComplete(ToEdit(Owned(mirror, botId), source), source, compare, nextDate);
    EditPlanSpec(k, source, compare, nextDate);
    var a := EditPlan(k, source, compare, nextDate)[0].action;
    assert a in SyncRun(Fetched(source), Fetched(mirror), botId, now, nextDate, compare, accept).log;
  }
}
