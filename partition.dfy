/** The pure part of the pass: keep the bot's own mirror events, key them, and split
    source and mirror events into what to create, delete and edit. */
module Partition {
  import opened Events
  import opened Correlation

  /** Some source event has uid `k`. */
  predicate HasUid(source: seq<SourceEntry>, k: string)
  {
    exists i :: 0 <= i < |source| && source[i].uid == k
  }

  /** Some keyed mirror event has key `uid`. */
  predicate HasKey(owned: seq<Keyed>, uid: string)
  {
    exists i :: 0 <= i < |owned| && owned[i].key == uid
  }

  /** The mirror events created by the bot, in list order, each with its correlation key. */
  function Owned(mirror: seq<MirrorEvent>, botId: string): (r: seq<Keyed>)
    ensures forall k :: multiset(r)[k] ==
                        if k.event.creatorId == botId && k.key == Key(k.event.description)
                        then multiset(mirror)[k.event] else 0
    ensures forall k :: k in r <==> k.event in mirror && k.event.creatorId == botId && k.key == Key(k.event.description)
    ensures |r| <= |mirror|
  {
    if mirror == [] then []
    else
      var rest := Owned(mirror[1..], botId);
      assert mirror == [mirror[0]] + mirror[1..];
      if mirror[0].creatorId == botId then [Keyed(Key(mirror[0].description), mirror[0])] + rest else rest
  }

  /** The source events whose uid matches no key of the bot's mirror events. */
  function ToCreate(source: seq<SourceEntry>, owned: seq<Keyed>): (r: seq<SourceEntry>)
    ensures forall e :: multiset(r)[e] == if HasKey(owned, e.uid) then 0 else multiset(source)[e]
    ensures forall e :: e in r <==> e in source && !HasKey(owned, e.uid)
  {
    if source == [] then []
    else
      var rest := ToCreate(source[1..], owned);
      assert source == [source[0]] + source[1..];
      if HasKey(owned, source[0].uid) then rest else [source[0]] + rest
  }

  /** The bot's mirror events whose key matches no source uid. */
  function ToDelete(owned: seq<Keyed>, source: seq<SourceEntry>): (r: seq<Keyed>)
    ensures forall k :: multiset(r)[k] == if HasUid(source, k.key) then 0 else multiset(owned)[k]
    ensures forall k :: k in r <==> k in owned && !HasUid(source, k.key)
  {
    if owned == [] then []
    else
      var rest := ToDelete(owned[1..], source);
      assert owned == [owned[0]] + owned[1..];
      if HasUid(source, owned[0].key) then rest else [owned[0]] + rest
  }

  /** The bot's mirror events whose key matches some source uid. */
  function ToEdit(owned: seq<Keyed>, source: seq<SourceEntry>): (r: seq<Keyed>)
    ensures forall k :: multiset(r)[k] == if HasUid(source, k.key) then multiset(owned)[k] else 0
    ensures forall k :: k in r <==> k in owned && HasUid(source, k.key)
  {
    if owned == [] then []
    else
      var rest := ToEdit(owned[1..], source);
      assert owned == [owned[0]] + owned[1..];
      if HasUid(source, owned[0].key) then [owned[0]] + rest else rest
  }

  /** The create requests of the source events with uid `uid`, in list order. */
  function Matching(source: seq<SourceEntry>, uid: string): (r: seq<CreateEvent>)
    ensures r == [] <==> !HasUid(source, uid)
    ensures r != [] ==> exists i :: (
      && 0 <= i < |source| && source[i].uid == uid && r[0] == source[i].event
      && forall j :: 0 <= j < i ==> source[j].uid != uid)
    ensures forall c :: c in r <==> exists i :: 0 <= i < |source| && source[i].uid == uid && source[i].event == c
  {
    if source == [] then []
    else
      var rest := Matching(source[1..], uid);
      assert forall i :: 0 < i < |source| ==> source[i] == source[1..][i - 1];
      if source[0].uid == uid then [source[0].event] + rest else rest
  }

  /** Every bot-owned mirror event goes to exactly one of the delete and edit groups. */
  lemma {:induction false} DeleteEditPartition(owned: seq<Keyed>, source: seq<SourceEntry>)
    ensures multiset(ToDelete(owned, source)) + multiset(ToEdit(owned, source)) == multiset(owned)
    ensures multiset(ToDelete(owned, source)) !! multiset(ToEdit(owned, source))
  {
    if owned != [] {
      DeleteEditPartition(owned[1..], source);
      assert owned == [owned[0]] + owned[1..];
    }
  }

  /** Every event of the edit group has a first matching source event, so the pass never
      skips an edit for want of one. */
  lemma EditsHaveMatch(owned: seq<Keyed>, source: seq<SourceEntry>, k: Keyed)
    requires k in ToEdit(owned, source)
    ensures Matching(source, k.key) != []
  {
  }

  /** A bot-owned mirror event whose description has no '#' gets the empty key, and is
      deleted whenever no source uid is empty. */
  lemma UnkeyedOwnedDeleted(mirror: seq<MirrorEvent>, botId: string, source: seq<SourceEntry>, e: MirrorEvent)
    requires e in mirror && e.creatorId == botId && '#' !in e.description
    requires !HasUid(source, "")
    ensures Keyed("", e) in ToDelete(Owned(mirror, botId), source)
  {
  }

  /** A mirror event not created by the bot has no entry in either group. */
  lemma ForeignUntouched(mirror: seq<MirrorEvent>, botId: string, source: seq<SourceEntry>, k: Keyed)
    requires k.event.creatorId != botId
    ensures k !in ToDelete(Owned(mirror, botId), source)
    ensures k !in ToEdit(Owned(mirror, botId), source)
  {
  }

  // The filters keep list order: each distributes over concatenation.

  lemma {:induction false} OwnedAppend(a: seq<MirrorEvent>, b: seq<MirrorEvent>, botId: string)
    ensures Owned(a + b, botId) == Owned(a, botId) + Owned(b, botId)
    decreases |a|
  {
    if a == [] {
      assert a + b == b;
    } else {
      assert (a + b)[1..] == a[1..] + b;
      OwnedAppend(a[1..], b, botId);
    }
  }

  lemma {:induction false} ToCreateAppend(a: seq<SourceEntry>, b: seq<SourceEntry>, owned: seq<Keyed>)
    ensures ToCreate(a + b, owned) == ToCreate(a, owned) + ToCreate(b, owned)
    decreases |a|
  {
    if a == [] {
      assert a + b == b;
    } else {
      assert (a + b)[1..] == a[1..] + b;
      ToCreateAppend(a[1..], b, owned);
    }
  }

  lemma {:induction false} ToDeleteAppend(a: seq<Keyed>, b: seq<Keyed>, source: seq<SourceEntry>)
    ensures ToDelete(a + b, source) == ToDelete(a, source) + ToDelete(b, source)
    decreases |a|
  {
    if a == [] {
      assert a + b == b;
    } else {
      assert (a + b)[1..] == a[1..] + b;
      ToDeleteAppend(a[1..], b, source);
    }
  }

  lemma {:induction false} ToEditAppend(a: seq<Keyed>, b: seq<Keyed>, source: seq<SourceEntry>)
    ensures ToEdit(a + b, source) == ToEdit(a, source) + ToEdit(b, source)
    decreases |a|
  {
    if a == [] {
      assert a + b == b;
    } else {
      assert (a + b)[1..] == a[1..] + b;
      ToEditAppend(a[1..], b, source);
    }
  }
}
