/** The outbox table. Ids come from a sequence that does not roll back: drawing an id leaves an empty
    slot, a commit fills the slots its transaction drew, and a rollback leaves them empty for good. */
module Outbox {
  import opened Tables
  import opened Locks

  type Slots = seq<Option<Event>>

  predicate About(e: Event, o: OrgId) { EventOrg(e) == Some(o) }

  /** One organization's committed events in id order: what the relay publishes about it. */
  function ById(slots: Slots, o: OrgId): seq<Event> {
    if slots == [] then []
    else
      var last := slots[|slots| - 1];
      ById(slots[..|slots| - 1], o) + if last.Some? && About(last.value, o) then [last.value] else []
  }

  /** One organization's events of a log in commit order. */
  function Only(log: seq<Event>, o: OrgId): seq<Event> {
    if log == [] then []
    else
      var last := log[|log| - 1];
      Only(log[..|log| - 1], o) + if About(last, o) then [last] else []
  }

  ghost predicate Within(ids: seq<nat>, n: nat) {
    forall i | 0 <= i < |ids| :: ids[i] < n
  }

  function Fill(slots: Slots, ids: seq<nat>, events: seq<Event>): (r: Slots)
    ensures |r| == |slots|
    ensures forall i | 0 <= i < |slots| && i !in ids :: r[i] == slots[i]
    decreases |ids|
  {
    if ids == [] || events == [] then slots
    else Fill(if ids[0] < |slots| then slots[ids[0] := Some(events[0])] else slots, ids[1..], events[1..])
  }

  lemma {:induction false} OnlyAppend(a: seq<Event>, b: seq<Event>, o: OrgId)
    ensures Only(a + b, o) == Only(a, o) + Only(b, o)
  {
    if b == [] {
      assert a + b == a;
    } else {
      var n := |b| - 1;
      assert (a + b)[..|a + b| - 1] == a + b[..n];
      OnlyAppend(a, b[..n], o);
    }
  }

  lemma {:induction false} OnlyCons(events: seq<Event>, o: OrgId)
    requires events != []
    ensures Only(events, o) == (if About(events[0], o) then [events[0]] else []) + Only(events[1..], o)
  {
    assert events == [events[0]] + events[1..];
    OnlyAppend([events[0]], events[1..], o);
    assert [events[0]][..0] == [];
  }

  /** Nothing about `o` is committed at or after `from`. */
  ghost predicate Clear(slots: Slots, o: OrgId, from: int) {
    forall j | 0 <= j < |slots| && from <= j :: slots[j].Some? ==> !About(slots[j].value, o)
  }

  lemma {:induction false} ByIdClear(slots: Slots, o: OrgId, from: nat)
    requires from <= |slots| && Clear(slots, o, from)
    ensures ById(slots, o) == ById(slots[..from], o)
  {
    if from < |slots| {
      var n := |slots| - 1;
      assert slots[..n][..from] == slots[..from];
      ByIdClear(slots[..n], o, from);
    } else {
      assert slots[..from] == slots;
    }
  }

  /** Filling an empty slot after which nothing about the organization is committed appends its event. */
  lemma FillOne(slots: Slots, id: nat, e: Event, o: OrgId)
    requires id < |slots| && slots[id] == None
    requires About(e, o) ==> Clear(slots, o, id)
    ensures ById(slots[id := Some(e)], o) == ById(slots, o) + if About(e, o) then [e] else []
  {
    var s' := slots[id := Some(e)];
    if About(e, o) {
      ByIdClear(s', o, id + 1);
      ByIdClear(slots, o, id);
      assert s'[..id + 1][..id] == slots[..id];
    } else {
      FillOther(slots, id, e, o);
    }
  }

  lemma {:induction false} FillOther(slots: Slots, id: nat, e: Event, o: OrgId)
    requires id < |slots| && slots[id] == None && !About(e, o)
    ensures ById(slots[id := Some(e)], o) == ById(slots, o)
  {
    var n := |slots| - 1;
    var s' := slots[id := Some(e)];
    if id < n {
      assert s'[..n] == slots[..n][id := Some(e)];
      FillOther(slots[..n], id, e, o);
    } else {
      assert s'[..n] == slots[..n];
    }
  }

  ghost predicate Increasing(ids: seq<nat>) {
    forall i, j | 0 <= i < j < |ids| :: ids[i] < ids[j]
  }

  /** A transaction's ids are its own and, for each organization it writes about, the newest. */
  ghost predicate Drawn(slots: Slots, ids: seq<nat>, events: seq<Event>) {
    && |ids| == |events|
    && Increasing(ids)
    && Within(ids, |slots|)
    && (forall i | 0 <= i < |ids| :: slots[ids[i]] == None)
    && (forall i, o | 0 <= i < |ids| && About(events[i], o) :: Clear(slots, o, ids[i]))
  }

  /** So in id order its events come after everything committed about the organization before. */
  lemma {:induction false} FillAppends(slots: Slots, ids: seq<nat>, events: seq<Event>, o: OrgId)
    requires Drawn(slots, ids, events)
    ensures ById(Fill(slots, ids, events), o) == ById(slots, o) + Only(events, o)
    decreases |ids|
  {
    hide ById, Clear, Drawn, Only, About;
    DrawnHead(slots, ids, events, o);
    if ids == [] {
      assert Only(events, o) == [] && ById(slots, o) + [] == ById(slots, o) by { OnlyNothing(o); }
    } else {
      var e := events[0];
      var first := if About(e, o) then [e] else [];
      var s1 := slots[ids[0] := Some(e)];
      FillOne(slots, ids[0], e, o);
      DrawnTail(slots, ids, events);
      FillAppends(s1, ids[1..], events[1..], o);
      OnlyCons(events, o);
      Regroup(ById(slots, o), first, Only(events[1..], o));
    }
  }

  lemma Regroup(a: seq<Event>, b: seq<Event>, c: seq<Event>)
    ensures a + b + c == a + (b + c)
  {
  }

  lemma OnlyNothing(o: OrgId)
    ensures Only([], o) == []
  {
  }

  lemma DrawnHead(slots: Slots, ids: seq<nat>, events: seq<Event>, o: OrgId)
    requires Drawn(slots, ids, events)
    ensures |ids| == |events| && Within(ids, |slots|)
    ensures ids != [] ==> slots[ids[0]] == None && (About(events[0], o) ==> Clear(slots, o, ids[0]))
  {
  }

  lemma DrawnTail(slots: Slots, ids: seq<nat>, events: seq<Event>)
    requires Drawn(slots, ids, events) && ids != []
    ensures Drawn(slots[ids[0] := Some(events[0])], ids[1..], events[1..])
  {
    var s1 := slots[ids[0] := Some(events[0])];
    forall i | 0 <= i < |ids[1..]| ensures s1[ids[1..][i]] == None {
      assert ids[1..][i] == ids[i + 1] && ids[0] < ids[i + 1];
    }
    forall i, o | 0 <= i < |ids[1..]| && About(events[1..][i], o) ensures Clear(s1, o, ids[1..][i]) {
      assert Clear(slots, o, ids[i + 1]) && ids[0] < ids[i + 1];
    }
  }

  lemma ByIdGrow(slots: Slots, n: nat, o: OrgId)
    ensures ById(slots + seq(n, _ => None), o) == ById(slots, o)
  {
    var s' := slots + seq(n, _ => None);
    ByIdClear(s', o, |slots|);
    assert s'[..|slots|] == slots;
  }
}
