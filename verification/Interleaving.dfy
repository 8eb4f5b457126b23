/** Concurrent store transactions: statements of different transactions interleave freely and only
    row locks make them wait. Every such execution is equivalent to running the finished
    transactions one after the other, in the order in which they finished. */
module Interleaving {
  import opened Tables
  import opened Transactions
  import opened Statements
  import opened Locks
  import opened Isolation
  import opened Outbox
  import Serial
  import Constraints

  type TxId = nat

  /** A transaction in flight: its next statement, its uncommitted writes, its local variables and the
      outbox ids it has drawn. */
  datatype Tx = Tx(req: Request, pc: nat, w: Writes, regs: Regs, ids: seq<nat>)

  /** A finished transaction and what its caller was told. */
  datatype Finished = Finished(req: Request, outcome: Outcome)

  /** The database: committed rows, outbox slots, row locks and transactions in flight. `log` and
      `history` record committed events and finished transactions in order. */
  datatype Sys = Sys(
    db: Db,
    slots: Slots,
    locks: map<Key, TxId>,
    txs: map<TxId, Tx>,
    log: seq<Event>,
    history: seq<Finished>)

  datatype Label =
    | Begin(tx: TxId, req: Request)
    | Statement(tx: TxId)
    | Commit(tx: TxId)
    | Abort(tx: TxId)          // an error, a deadlock victim or a lost connection, at any point

  function Fresh(db: Db): Sys { Sys(db, [], map[], map[], [], []) }

  function Held(locks: map<Key, TxId>, t: TxId): set<Key> {
    set k | k in locks && locks[k] == t
  }

  function Release(locks: map<Key, TxId>, t: TxId): map<Key, TxId> {
    map k | k in locks && locks[k] != t :: locks[k]
  }

  function Acquire(locks: map<Key, TxId>, t: TxId, needs: set<Key>): map<Key, TxId> {
    map k | k in locks.Keys + needs :: if k in needs then t else locks[k]
  }

  /** A statement waits while another transaction holds a row it needs. */
  predicate Free(locks: map<Key, TxId>, t: TxId, needs: set<Key>) {
    forall k | k in needs && k in locks :: locks[k] == t
  }

  function WouldLock(s: Sys, t: TxId): set<Key>
    requires t in s.txs && s.txs[t].pc < |Script(s.txs[t].req)|
  {
    var tx := s.txs[t];
    Needs(Script(tx.req)[tx.pc], Overlay(s.db, tx.w), tx.regs)
  }

  predicate Enabled(s: Sys, l: Label) {
    match l
    case Begin(t, _) => t !in s.txs
    case Statement(t) =>
      t in s.txs && s.txs[t].pc < |Script(s.txs[t].req)| && Free(s.locks, t, WouldLock(s, t))
    case Commit(t) => t in s.txs && s.txs[t].pc == |Script(s.txs[t].req)|
    case Abort(t) => t in s.txs
  }

  /** Ids drawn by a transaction that emits `n` events. */
  function NextIds(from: nat, n: nat): seq<nat> { seq(n, i => from + i) }

  function Committed(s: Sys, t: TxId, outcome: Outcome): Sys
    requires t in s.txs
  {
    var tx := s.txs[t];
    Sys(Overlay(s.db, tx.w), Fill(s.slots, tx.ids, tx.w.events), Release(s.locks, t), s.txs - {t},
        s.log + tx.w.events, s.history + [Finished(tx.req, outcome)])
  }

  function Dropped(s: Sys, t: TxId): Sys {
    s.(locks := Release(s.locks, t), txs := s.txs - {t})
  }

  /** A statement that goes through takes its locks, records its writes and draws its outbox ids. */
  function Continued(s: Sys, t: TxId, c: Change, more: seq<Event>, r: Regs): Sys
    requires t in s.txs && s.txs[t].pc < |Script(s.txs[t].req)|
  {
    var tx := s.txs[t];
    s.(locks := Acquire(s.locks, t, WouldLock(s, t)),
       slots := s.slots + seq(|more|, _ => None),
       txs := s.txs[t := Tx(tx.req, tx.pc + 1, Record(tx.w, c, more), r, tx.ids + NextIds(|s.slots|, |more|))])
  }

  function AfterStatement(s: Sys, t: TxId): Sys
    requires Enabled(s, Statement(t))
  {
    var tx := s.txs[t];
    match Exec(Script(tx.req)[tx.pc], Overlay(s.db, tx.w), tx.regs)
    case Go(c, more, r) => Continued(s, t, c, more, r)
    case Stop(keep, outcome) =>
      if keep then Committed(s, t, outcome)
      else Dropped(s, t).(history := s.history + [Finished(tx.req, outcome)])
  }

  function After(s: Sys, l: Label): Sys
    requires Enabled(s, l)
  {
    match l
    case Begin(t, req) => s.(txs := s.txs[t := Tx(req, 0, NO_WRITES, Start(req), [])])
    case Statement(t) => AfterStatement(s, t)
    case Commit(t) => Committed(s, t, Done)
    case Abort(t) => Dropped(s, t)
  }

  // ---- invariant ------------------------------------------------------------

  /** The statements so far would answer the same if they all ran now, on what is committed now. */
  ghost predicate UpToDate(db: Db, tx: Tx, K: set<Key>) {
    && tx.pc <= |Script(tx.req)|
    && Run(Script(tx.req), tx.pc, db, Start(tx.req)) == Running(tx.w, tx.regs)
    && Covered(Script(tx.req), tx.pc, db, Start(tx.req), K)
  }

  ghost predicate Apart(a: seq<nat>, b: seq<nat>) {
    forall i, j | 0 <= i < |a| && 0 <= j < |b| :: a[i] != b[j]
  }

  ghost predicate Inv(s: Sys) {
    && WellFormed(s.db)
    && (forall t <- s.txs :: UpToDate(s.db, s.txs[t], Held(s.locks, t)))
    && (forall t <- s.txs :: Drawn(s.slots, s.txs[t].ids, s.txs[t].w.events))
    && (forall t, u | t in s.txs && u in s.txs && t != u :: Apart(s.txs[t].ids, s.txs[u].ids))
    && (forall o :: ById(s.slots, o) == Only(s.log, o))
  }

  // ---- locks ----------------------------------------------------------------

  lemma ReleaseKeeps(locks: map<Key, TxId>, t: TxId, u: TxId)
    requires t != u
    ensures Held(Release(locks, t), u) == Held(locks, u)
  {
  }

  lemma AcquireKeeps(locks: map<Key, TxId>, t: TxId, needs: set<Key>, u: TxId)
    requires Free(locks, t, needs)
    ensures t != u ==> Held(Acquire(locks, t, needs), u) == Held(locks, u)
    ensures Held(Acquire(locks, t, needs), t) == Held(locks, t) + needs
  {
  }

  lemma HeldApart(locks: map<Key, TxId>, t: TxId, u: TxId)
    requires t != u
    ensures Held(locks, t) !! Held(locks, u)
  {
  }

  // ---- steps that leave the committed rows alone ------------------------------

  lemma BeginKeeps(s: Sys, t: TxId, req: Request)
    requires Inv(s) && t !in s.txs
    ensures Inv(After(s, Begin(t, req)))
  {
    hide WellFormed, ById, Only, Drawn, Start, UpToDate, Held;
    NothingDrawn(s.slots);
    BornUpToDate(s.db, req, Held(s.locks, t));
  }

  lemma BornUpToDate(db: Db, req: Request, K: set<Key>)
    ensures UpToDate(db, Tx(req, 0, NO_WRITES, Start(req), []), K)
  {
    hide Script, Start;
  }

  lemma NothingDrawn(slots: Slots)
    ensures Drawn(slots, [], [])
  {
  }

  lemma DroppedKeeps(s: Sys, t: TxId)
    requires Inv(s) && t in s.txs
    ensures forall h :: Inv(Dropped(s, t).(history := h))
  {
    hide WellFormed, ById, Only, Drawn, Held, Release, UpToDate;
    forall h ensures Inv(Dropped(s, t).(history := h)) {
      var s' := Dropped(s, t).(history := h);
      forall u | u in s'.txs ensures UpToDate(s'.db, s'.txs[u], Held(s'.locks, u)) {
        ReleaseKeeps(s.locks, t, u);
        assert s'.txs[u] == s.txs[u];
      }
    }
  }

  // ---- a statement that goes through ------------------------------------------

  lemma StatementUpToDate(s: Sys, t: TxId, c: Change, more: seq<Event>, r: Regs)
    requires Inv(s) && Enabled(s, Statement(t))
    requires Exec(Script(s.txs[t].req)[s.txs[t].pc], Overlay(s.db, s.txs[t].w), s.txs[t].regs) == Go(c, more, r)
    ensures var s' := Continued(s, t, c, more, r); UpToDate(s'.db, s'.txs[t], Held(s'.locks, t))
  {
    hide WellFormed, ById, Only, Drawn, Held, Acquire, Exec, Overlay, Record, Script, Start, Needs;
    var tx := s.txs[t];
    assert UpToDate(s.db, tx, Held(s.locks, t));
    AcquireKeeps(s.locks, t, WouldLock(s, t), t);
    CoveredGrows(Script(tx.req), tx.pc, s.db, Start(tx.req), Held(s.locks, t), Held(s.locks, t) + WouldLock(s, t));
  }

  /** An event is emitted under the lock of the organization it is about, so nothing newer is committed. */
  lemma DrawMore(slots: Slots, ids: seq<nat>, events: seq<Event>, more: seq<Event>)
    requires Drawn(slots, ids, events)
    ensures Drawn(slots + seq(|more|, _ => None), ids + NextIds(|slots|, |more|), events + more)
  {
    var slots', ids' := slots + seq(|more|, _ => None), ids + NextIds(|slots|, |more|);
    forall i, o | 0 <= i < |ids'| && About((events + more)[i], o) ensures Clear(slots', o, ids'[i]) {
      if i < |ids| { assert Clear(slots, o, ids[i]); }
    }
  }

  lemma DrawnGrow(slots: Slots, n: nat, ids: seq<nat>, events: seq<Event>)
    requires Drawn(slots, ids, events)
    ensures Drawn(slots + seq(n, _ => None), ids, events)
  {
    var slots' := slots + seq(n, _ => None);
    forall i, o | 0 <= i < |ids| && About(events[i], o) ensures Clear(slots', o, ids[i]) {
      assert Clear(slots, o, ids[i]);
    }
  }

  lemma ContinuedKeeps(s: Sys, t: TxId, c: Change, more: seq<Event>, r: Regs)
    requires Inv(s) && Enabled(s, Statement(t))
    requires Exec(Script(s.txs[t].req)[s.txs[t].pc], Overlay(s.db, s.txs[t].w), s.txs[t].regs) == Go(c, more, r)
    ensures Inv(Continued(s, t, c, more, r))
  {
    hide WellFormed, ById, Only, Drawn, Held, Acquire, Exec, Overlay, Record, Script, Start, Needs, UpToDate;
    var s', tx := Continued(s, t, c, more, r), s.txs[t];
    StatementUpToDate(s, t, c, more, r);
    Serial.RecordEvents(tx.w, c, more);
    DrawMore(s.slots, tx.ids, tx.w.events, more);
    forall u | u in s'.txs && u != t ensures UpToDate(s'.db, s'.txs[u], Held(s'.locks, u)) {
      AcquireKeeps(s.locks, t, WouldLock(s, t), u);
    }
    forall u | u in s'.txs ensures Drawn(s'.slots, s'.txs[u].ids, s'.txs[u].w.events) {
      if u != t { DrawnGrow(s.slots, |more|, s.txs[u].ids, s.txs[u].w.events); }
    }
    forall u, x | u in s'.txs && x in s'.txs && u != x ensures Apart(s'.txs[u].ids, s'.txs[x].ids) {
      NewIdsApart(s, t, |more|, if u == t then x else u);
    }
    forall o ensures ById(s'.slots, o) == Only(s'.log, o) { ByIdGrow(s.slots, |more|, o); }
  }

  lemma NewIdsApart(s: Sys, t: TxId, n: nat, u: TxId)
    requires Inv(s) && t in s.txs && u in s.txs && t != u
    ensures Apart(s.txs[t].ids + NextIds(|s.slots|, n), s.txs[u].ids)
    ensures Apart(s.txs[u].ids, s.txs[t].ids + NextIds(|s.slots|, n))
  {
    hide WellFormed, ById, Only, UpToDate;
    assert Apart(s.txs[t].ids, s.txs[u].ids) && Apart(s.txs[u].ids, s.txs[t].ids);
    assert Drawn(s.slots, s.txs[u].ids, s.txs[u].w.events);
  }

  // ---- a commit -----------------------------------------------------------------

  lemma TxGuarded(s: Sys, t: TxId)
    requires Inv(s) && t in s.txs
    ensures Guarded(s.txs[t].w, s.db, Held(s.locks, t))
  {
    hide WellFormed, ById, Only, Drawn, Held, Run, Covered, Script, Start, Guarded, Disciplined;
    var tx := s.txs[t];
    assert UpToDate(s.db, tx, Held(s.locks, t));
    ScriptsDisciplined(tx.req);
    CoveredGuards(Script(tx.req), tx.pc, s.db, Start(tx.req), Held(s.locks, t));
  }

  /** Another transaction stays up to date when this one commits. */
  lemma CommitKeepsOther(s: Sys, t: TxId, u: TxId)
    requires Inv(s) && t in s.txs && u in s.txs && t != u
    ensures UpToDate(Overlay(s.db, s.txs[t].w), s.txs[u], Held(Release(s.locks, t), u))
  {
    hide WellFormed, ById, Only, Drawn, Held, Release, Run, Covered, Script, Start, Guarded, Disciplined, Agree, Overlay;
    var tx := s.txs[u];
    TxGuarded(s, t);
    HeldApart(s.locks, t, u);
    CommitAgrees(s.db, s.txs[t].w, Held(s.locks, t), Held(s.locks, u));
    ReleaseKeeps(s.locks, t, u);
    ScriptsDisciplined(tx.req);
    assert UpToDate(s.db, tx, Held(s.locks, u));
    PrefixStable(Script(tx.req), tx.pc, s.db, Overlay(s.db, s.txs[t].w), Start(tx.req), Held(s.locks, u));
  }

  /** The events another transaction still holds back stay newer than everything committed about their organizations. */
  lemma CommitKeepsDrawn(s: Sys, t: TxId, u: TxId)
    requires Inv(s) && t in s.txs && u in s.txs && t != u
    ensures Drawn(Fill(s.slots, s.txs[t].ids, s.txs[t].w.events), s.txs[u].ids, s.txs[u].w.events)
  {
    hide WellFormed, ById, Only, UpToDate, Held;
    var a, b := s.txs[t], s.txs[u];
    var slots' := Fill(s.slots, a.ids, a.w.events);
    TxGuarded(s, t);
    TxGuarded(s, u);
    HeldApart(s.locks, t, u);
    assert Drawn(s.slots, a.ids, a.w.events) && Drawn(s.slots, b.ids, b.w.events);
    assert Apart(b.ids, a.ids);
    forall i | 0 <= i < |b.ids| ensures slots'[b.ids[i]] == None {
      assert b.ids[i] !in a.ids;
    }
    forall i, o | 0 <= i < |b.ids| && About(b.w.events[i], o) ensures Clear(slots', o, b.ids[i]) {
      assert b.w.events[i] in b.w.events;
      assert OrgRow(o) in Held(s.locks, u);
      FillKeepsClear(s.slots, a.ids, a.w.events, o, b.ids[i]);
    }
  }

  lemma {:induction false} FillKeepsClear(slots: Slots, ids: seq<nat>, events: seq<Event>, o: OrgId, from: nat)
    requires Clear(slots, o, from) && forall e <- events :: !About(e, o)
    ensures Clear(Fill(slots, ids, events), o, from)
    decreases |ids|
  {
    if ids != [] && events != [] {
      assert events[0] in events;
      var s1 := if ids[0] < |slots| then slots[ids[0] := Some(events[0])] else slots;
      FillKeepsClear(s1, ids[1..], events[1..], o, from);
    }
  }

  lemma CommittedKeeps(s: Sys, t: TxId, outcome: Outcome)
    requires Inv(s) && t in s.txs && WellFormed(Overlay(s.db, s.txs[t].w))
    ensures Inv(Committed(s, t, outcome))
  {
    hide WellFormed, ById, Only, Drawn, Held, Release, UpToDate, Overlay;
    var s', tx := Committed(s, t, outcome), s.txs[t];
    forall u | u in s'.txs ensures UpToDate(s'.db, s'.txs[u], Held(s'.locks, u)) {
      CommitKeepsOther(s, t, u);
    }
    forall u | u in s'.txs ensures Drawn(s'.slots, s'.txs[u].ids, s'.txs[u].w.events) {
      CommitKeepsDrawn(s, t, u);
    }
    forall o ensures ById(s'.slots, o) == Only(s'.log, o) {
      FillAppends(s.slots, tx.ids, tx.w.events, o);
      OnlyAppend(s.log, tx.w.events, o);
    }
  }

  // ---- linearization --------------------------------------------------------------

  /** One finished transaction ran alone on the committed rows. */
  ghost predicate RanAlone(s: Sys, s': Sys, f: Finished) {
    var r := Execute(s.db, f.req);
    && f.outcome == r.outcome
    && s'.db == r.db && s'.log == s.log + r.events && s'.history == s.history + [f]
  }

  ghost predicate Unnoticed(s: Sys, s': Sys) {
    s'.db == s.db && s'.log == s.log && s'.history == s.history
  }

  lemma CommitLinearizes(s: Sys, t: TxId)
    requires Inv(s) && Enabled(s, Commit(t))
    ensures Inv(After(s, Commit(t))) && RanAlone(s, After(s, Commit(t)), Finished(s.txs[t].req, Done))
  {
    hide WellFormed, ById, Only, Drawn, Held, Covered, Overlay, Run, Script, Start, Execute;
    var tx := s.txs[t];
    assert UpToDate(s.db, tx, Held(s.locks, t));
    WellFormedRefers(s.db);
    Serial.AloneIsExecute(s.db, tx.req);
    Constraints.ExecuteKeepsWellFormed(s.db, tx.req);
    CommittedKeeps(s, t, Done);
  }

  lemma WellFormedRefers(db: Db)
    requires WellFormed(db)
    ensures References(db)
  {
  }

  /** A transaction that stops has done what it does when it runs alone. */
  lemma StopIsAlone(s: Sys, t: TxId, keep: bool, outcome: Outcome)
    requires Inv(s) && Enabled(s, Statement(t))
    requires Exec(Script(s.txs[t].req)[s.txs[t].pc], Overlay(s.db, s.txs[t].w), s.txs[t].regs) == Stop(keep, outcome)
    ensures var r := Execute(s.db, s.txs[t].req);
      && WellFormed(r.db) && r.outcome == outcome
      && (if keep then r.db == Overlay(s.db, s.txs[t].w) && r.events == s.txs[t].w.events
          else r.db == s.db && r.events == [])
  {
    hide WellFormed, ById, Only, Drawn, Held, Covered, Overlay, Script, Start, Execute, Exec, Apart;
    var tx := s.txs[t];
    assert UpToDate(s.db, tx, Held(s.locks, t));
    Serial.StoppedStays(Script(tx.req), tx.pc + 1, |Script(tx.req)|, s.db, Start(tx.req));
    WellFormedRefers(s.db);
    Serial.AloneIsExecute(s.db, tx.req);
    Constraints.ExecuteKeepsWellFormed(s.db, tx.req);
  }

  lemma StopLinearizes(s: Sys, t: TxId, keep: bool, outcome: Outcome)
    requires Inv(s) && Enabled(s, Statement(t))
    requires Exec(Script(s.txs[t].req)[s.txs[t].pc], Overlay(s.db, s.txs[t].w), s.txs[t].regs) == Stop(keep, outcome)
    ensures Inv(After(s, Statement(t))) && RanAlone(s, After(s, Statement(t)), Finished(s.txs[t].req, outcome))
  {
    hide Inv, WellFormed, Overlay, Script, Execute, Exec;
    StopIsAlone(s, t, keep, outcome);
    if keep { StopCommits(s, t, outcome); } else { StopDrops(s, t, outcome); }
  }

  lemma StopCommits(s: Sys, t: TxId, outcome: Outcome)
    requires Inv(s) && t in s.txs
    requires var r := Execute(s.db, s.txs[t].req);
      WellFormed(r.db) && r.outcome == outcome && r.db == Overlay(s.db, s.txs[t].w) && r.events == s.txs[t].w.events
    ensures var s' := Committed(s, t, outcome);
      Inv(s') && RanAlone(s, s', Finished(s.txs[t].req, outcome))
  {
    hide Inv, WellFormed, Overlay, Execute;
    CommittedKeeps(s, t, outcome);
  }

  lemma StopDrops(s: Sys, t: TxId, outcome: Outcome)
    requires Inv(s) && t in s.txs
    requires var r := Execute(s.db, s.txs[t].req);
      r.outcome == outcome && r.db == s.db && r.events == []
    ensures var s' := Dropped(s, t).(history := s.history + [Finished(s.txs[t].req, outcome)]);
      Inv(s') && RanAlone(s, s', Finished(s.txs[t].req, outcome))
  {
    hide Inv, Execute, Release;
    DroppedKeeps(s, t);
    assert s.log + [] == s.log;
  }

  /** Every step is invisible or finishes one transaction exactly as if it had run alone just then. */
  lemma StepLinearizes(s: Sys, l: Label)
    requires Inv(s) && Enabled(s, l)
    ensures Inv(After(s, l))
    ensures Unnoticed(s, After(s, l)) || exists f :: RanAlone(s, After(s, l), f)
  {
    hide Inv, RanAlone, Committed, Exec, Overlay, Script;
    match l
    case Begin(t, req) => BeginKeeps(s, t, req);
    case Commit(t) => CommitLinearizes(s, t);
    case Abort(t) =>
      DroppedKeeps(s, t);
      assert Dropped(s, t).(history := s.history) == Dropped(s, t);
    case Statement(t) =>
      var tx := s.txs[t];
      match Exec(Script(tx.req)[tx.pc], Overlay(s.db, tx.w), tx.regs) {
        case Go(c, more, r) => ContinuedKeeps(s, t, c, more, r);
        case Stop(keep, outcome) => StopLinearizes(s, t, keep, outcome);
      }
  }

  // ---- whole executions -------------------------------------------------------------

  /** The state an execution reaches, if each of its steps was possible. */
  function Reach(s: Sys, labels: seq<Label>): Option<Sys> {
    if labels == [] then Some(s)
    else
      var n := |labels| - 1;
      match Reach(s, labels[..n])
      case None => None
      case Some(mid) => if Enabled(mid, labels[n]) then Some(After(mid, labels[n])) else None
  }

  datatype Replayed = Replayed(db: Db, log: seq<Event>)

  /** The transactions of a history, one after the other. */
  function Serially(db: Db, history: seq<Finished>): Replayed {
    if history == [] then Replayed(db, [])
    else
      var n := |history| - 1;
      var before := Serially(db, history[..n]);
      var r := Execute(before.db, history[n].req);
      Replayed(r.db, before.log + r.events)
  }

  /** Every caller was told what the serial execution tells it. */
  ghost predicate Truthful(db: Db, history: seq<Finished>) {
    forall k | 0 <= k < |history| ::
      history[k].outcome == Execute(Serially(db, history[..k]).db, history[k].req).outcome
  }

  ghost predicate SerialFrom(db: Db, s: Sys) {
    Serially(db, s.history) == Replayed(s.db, s.log) && Truthful(db, s.history)
  }

  lemma AloneExtends(db: Db, s: Sys, s': Sys, f: Finished)
    requires SerialFrom(db, s) && RanAlone(s, s', f)
    ensures SerialFrom(db, s')
  {
    hide Execute;
    assert s'.history[..|s.history|] == s.history;
    forall k | 0 <= k < |s'.history|
      ensures s'.history[k].outcome == Execute(Serially(db, s'.history[..k]).db, s'.history[k].req).outcome
    {
      assert k < |s.history| ==> s'.history[..k] == s.history[..k];
    }
  }

  /** Serializability: any interleaving of any transactions, with any aborts, leaves the tables, the log
      and the answers that running the finished ones in order leaves, and in id order the outbox tells
      the same story about every organization. */
  lemma {:induction false} Serializable(db: Db, labels: seq<Label>, s: Sys)
    requires WellFormed(db) && Reach(Fresh(db), labels) == Some(s)
    ensures Inv(s) && SerialFrom(db, s)
    ensures forall o :: ById(s.slots, o) == Only(Serially(db, s.history).log, o)
  {
    hide WellFormed, SerialFrom, RanAlone, After, Enabled, UpToDate;
    if labels == [] {
      FreshSerial(db);
    } else {
      var n := |labels| - 1;
      var mid := Reach(Fresh(db), labels[..n]).value;
      Serializable(db, labels[..n], mid);
      StepLinearizes(mid, labels[n]);
      if Unnoticed(mid, s) {
        UnnoticedExtends(db, mid, s);
      } else {
        var f :| RanAlone(mid, s, f);
        AloneExtends(db, mid, s, f);
      }
    }
    SerialLog(db, s);
  }

  lemma FreshSerial(db: Db)
    requires WellFormed(db)
    ensures Inv(Fresh(db)) && SerialFrom(db, Fresh(db))
  {
  }

  lemma UnnoticedExtends(db: Db, s: Sys, s': Sys)
    requires SerialFrom(db, s) && Unnoticed(s, s')
    ensures SerialFrom(db, s')
  {
  }

  lemma SerialLog(db: Db, s: Sys)
    requires SerialFrom(db, s)
    ensures Serially(db, s.history).log == s.log
  {
  }
}
