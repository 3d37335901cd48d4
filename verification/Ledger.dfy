/**
  The system with everything but its purpose taken away: what was appended, what is unfinished, and the two
  logs. There are no markers, no pending list, no cursor and no failures; whether something counts as a
  repeat is decided by looking at the logs. The protocol is shown to refine this.
 */
module Ledger {
  import opened Event
  import opened Protocol

  datatype Ledger = Ledger(
    now: nat,
    appended: map<nat, Appended>,
    unfinished: map<nat, Entry>,
    published: seq<Publication>,
    rejected: seq<Publication>,
    removed: map<nat, nat>)

  datatype Deed =
    | Wait(ms: nat)
    | Accept(id: nat, event: PaymentEvent)
    | Arrive(id: nat, entry: Entry)
    | Settle(id: nat)
    | Stutter

  predicate IsAdmission(a: Appended, eventId: string) { a.Admitted? && a.eventId == eventId }

  ghost predicate RecentlyAdmitted(cfg: Config, l: Ledger, eventId: string) {
    exists id :: id in l.appended && IsAdmission(l.appended[id], eventId) &&
        l.now < l.appended[id].at + AdmitWindow(cfg)
  }

  ghost predicate RecentlyPublished(cfg: Config, l: Ledger, eventId: string) {
    exists i :: 0 <= i < |l.published| && l.published[i].eventId == eventId &&
        l.now < l.published[i].at + WorkWindow(cfg)
  }

  ghost predicate RecentlyRejected(cfg: Config, l: Ledger, id: nat) {
    exists i :: 0 <= i < |l.rejected| && l.rejected[i].id == id && l.now < l.rejected[i].at + WorkWindow(cfg)
  }

  ghost predicate AboveAll(l: Ledger, id: nat) { forall k :: k in l.appended ==> k < id }

  function Add(l: Ledger, id: nat, a: Appended): Ledger {
    l.(appended := l.appended[id := a], unfinished := l.unfinished[id := a.Content()])
  }

  function Drop(l: Ledger, id: nat): Ledger {
    l.(unfinished := l.unfinished - {id}, removed := if id in l.unfinished then l.removed[id := l.now] else l.removed)
  }

  ghost predicate Recently(cfg: Config, l: Ledger, ask: Ask) {
    if ask.dead then RecentlyRejected(cfg, l, ask.id) else RecentlyPublished(cfg, l, ask.eventId)
  }

  function Log(l: Ledger, ask: Ask): Ledger {
    var p := Publication(ask.id, ask.eventId, ask.body, l.now);
    if ask.dead then l.(rejected := l.rejected + [p]) else l.(published := l.published + [p])
  }

  /** Settling logs a decision or a rejection unless one was logged within the window, and drops the entry. */
  ghost function SettleAsk(cfg: Config, l: Ledger, ask: Ask): Ledger {
    Drop(if Recently(cfg, l, ask) then l else Log(l, ask), ask.id)
  }

  ghost function Do(cfg: Config, l: Ledger, deed: Deed): Ledger {
    match deed
    case Wait(ms) => l.(now := l.now + ms)
    case Accept(id, e) =>
      if !Valid(e) || RecentlyAdmitted(cfg, l, e.eventId) || |l.unfinished| >= cfg.maxQueue || !AboveAll(l, id) then l
      else Add(l, id, Admitted(e.eventId, cfg.encode(e), l.now))
    case Arrive(id, entry) => if !AboveAll(l, id) then l else Add(l, id, Foreign(entry, l.now))
    case Settle(id) => if id !in l.appended then l else SettleAsk(cfg, l, AskFor(cfg, id, l.appended[id].Content()))
    case Stutter => l
  }

  ghost function DoAll(cfg: Config, l: Ledger, deeds: seq<Deed>): Ledger {
    if deeds == [] then l else Do(cfg, DoAll(cfg, l, deeds[..|deeds| - 1]), deeds[|deeds| - 1])
  }

  function Blank(now: nat): Ledger { Ledger(now, map[], map[], [], [], map[]) }

  // ----------------------------------------------------------------------------------------------
  // What every ledger keeps
  // ----------------------------------------------------------------------------------------------

  ghost predicate Dated(l: Ledger) {
    && (forall id :: id in l.appended ==> l.appended[id].at <= l.now)
    && (forall i :: 0 <= i < |l.published| ==> l.published[i].at <= l.now)
    && (forall i :: 0 <= i < |l.rejected| ==> l.rejected[i].at <= l.now)
    && (forall id :: id in l.removed ==> l.removed[id] <= l.now)
  }

  /** Nothing is logged or removed before it was appended. */
  ghost predicate CausesFirst(l: Ledger) {
    && (forall id :: id in l.removed && id in l.appended ==> l.appended[id].at <= l.removed[id])
    && (forall i :: 0 <= i < |l.published| && l.published[i].id in l.appended ==>
          l.appended[l.published[i].id].at <= l.published[i].at)
  }

  /** Unfinished entries are appended ones, unchanged, and every other appended entry has left. */
  ghost predicate Balanced(l: Ledger) {
    && (forall id :: id in l.unfinished ==> id in l.appended && l.unfinished[id] == l.appended[id].Content())
    && (forall id :: id in l.appended <==> id in l.unfinished || id in l.removed)
    && l.unfinished.Keys !! l.removed.Keys
  }

  /** Two admissions of one event id are at least the admission window apart. */
  ghost predicate AdmissionsSpaced(cfg: Config, l: Ledger) {
    forall i, j :: i in l.appended && j in l.appended && i < j &&
                   l.appended[i].Admitted? && l.appended[j].Admitted? &&
                       l.appended[i].eventId == l.appended[j].eventId ==>
                     l.appended[i].at + AdmitWindow(cfg) <= l.appended[j].at
  }

  /** Two decisions for one event id are at least the worker window apart. */
  ghost predicate DecisionsSpaced(cfg: Config, l: Ledger) {
    forall i, j :: 0 <= i < j < |l.published| && l.published[i].eventId == l.published[j].eventId ==>
                     l.published[i].at + WorkWindow(cfg) <= l.published[j].at
  }

  /** At time t a decision for the event id had been logged at that moment or less than the window before. */
  ghost predicate DecidedAt(cfg: Config, l: Ledger, eventId: string, t: nat) {
    exists i :: 0 <= i < |l.published| && l.published[i].eventId == eventId &&
                l.published[i].at <= t < l.published[i].at + WorkWindow(cfg)
  }

  ghost predicate RejectedAt(cfg: Config, l: Ledger, id: nat, t: nat) {
    exists i :: 0 <= i < |l.rejected| && l.rejected[i].id == id &&
                l.rejected[i].at <= t < l.rejected[i].at + WorkWindow(cfg)
  }

  ghost predicate SettledAt(cfg: Config, l: Ledger, id: nat, t: nat)
    requires id in l.appended
  {
    var ask := AskFor(cfg, id, l.appended[id].Content());
    if ask.dead then RejectedAt(cfg, l, id, t) else DecidedAt(cfg, l, ask.eventId, t)
  }

  /** Nothing leaves without a decision, or, if it cannot be read, a rejection. */
  ghost predicate NothingLost(cfg: Config, l: Ledger) {
    forall id :: id in l.removed && id in l.appended ==> SettledAt(cfg, l, id, l.removed[id])
  }

  /** The publication is what the worker computes for the entry it came from. */
  ghost predicate Authentic(cfg: Config, l: Ledger, p: Publication, dead: bool) {
    && p.id in l.appended
    && var ask := AskFor(cfg, p.id, l.appended[p.id].Content());
       ask.dead == dead && ask.eventId == p.eventId && ask.body == p.body
  }

  ghost predicate LogsAuthentic(cfg: Config, l: Ledger) {
    && (forall i :: 0 <= i < |l.published| ==> Authentic(cfg, l, l.published[i], false))
    && (forall i :: 0 <= i < |l.rejected| ==> Authentic(cfg, l, l.rejected[i], true))
  }

  /** What admission appended is the canonical form of a valid event. */
  ghost predicate AdmissionsReadable(cfg: Config, l: Ledger) {
    forall id :: id in l.appended && l.appended[id].Admitted? ==>
      var e := EventOf(cfg, l.appended[id].Content());
      e.Some? && Valid(e.value) && e.value.eventId == l.appended[id].eventId &&
          cfg.encode(e.value) == l.appended[id].payload
  }

  function AdmittedUnfinished(l: Ledger): set<nat> {
    set id | id in l.unfinished && id in l.appended && l.appended[id].Admitted?
  }

  ghost predicate Kept(cfg: Config, l: Ledger) {
    && Dated(l) && Balanced(l) && CausesFirst(l)
    && AdmissionsSpaced(cfg, l) && DecisionsSpaced(cfg, l)
    && NothingLost(cfg, l) && LogsAuthentic(cfg, l) && AdmissionsReadable(cfg, l)
    && |AdmittedUnfinished(l)| <= cfg.maxQueue
  }

  lemma WaitKeeps(cfg: Config, l: Ledger, ms: nat)
    requires Kept(cfg, l)
    ensures Kept(cfg, l.(now := l.now + ms))
  {
    hide NothingLost, LogsAuthentic, Dated, Balanced, CausesFirst, DecisionsSpaced, AdmissionsSpaced,
         AdmissionsReadable;
    WaitKeepsHistory(cfg, l, ms);
    WaitKeepsDates(cfg, l, ms);
    WaitKeepsAdmissions(cfg, l, ms);
  }

  lemma WaitKeepsHistory(cfg: Config, l: Ledger, ms: nat)
    requires NothingLost(cfg, l) && LogsAuthentic(cfg, l)
    ensures NothingLost(cfg, l.(now := l.now + ms)) && LogsAuthentic(cfg, l.(now := l.now + ms))
  {
    var m := l.(now := l.now + ms);
    forall id | id in m.removed && id in m.appended ensures SettledAt(cfg, m, id, m.removed[id]) {
      assert SettledAt(cfg, l, id, l.removed[id]);
    }
    forall i | 0 <= i < |m.published| ensures Authentic(cfg, m, m.published[i], false) {
      assert Authentic(cfg, l, l.published[i], false);
    }
    forall i | 0 <= i < |m.rejected| ensures Authentic(cfg, m, m.rejected[i], true) {
      assert Authentic(cfg, l, l.rejected[i], true);
    }
  }

  lemma WaitKeepsDates(cfg: Config, l: Ledger, ms: nat)
    requires Dated(l) && Balanced(l) && CausesFirst(l) && DecisionsSpaced(cfg, l)
    ensures var m := l.(now := l.now + ms); Dated(m) && Balanced(m) && CausesFirst(m) && DecisionsSpaced(cfg, m)
  {
  }

  lemma WaitKeepsAdmissions(cfg: Config, l: Ledger, ms: nat)
    requires AdmissionsSpaced(cfg, l) && AdmissionsReadable(cfg, l) && |AdmittedUnfinished(l)| <= cfg.maxQueue
    ensures var m := l.(now := l.now + ms);
            AdmissionsSpaced(cfg, m) && AdmissionsReadable(cfg, m) && |AdmittedUnfinished(m)| <= cfg.maxQueue
  {
    assert AdmittedUnfinished(l.(now := l.now + ms)) == AdmittedUnfinished(l);
  }

  lemma AddKeepsLogs(cfg: Config, l: Ledger, id: nat, a: Appended)
    requires NothingLost(cfg, l) && LogsAuthentic(cfg, l) && Balanced(l) && AboveAll(l, id)
    ensures NothingLost(cfg, Add(l, id, a)) && LogsAuthentic(cfg, Add(l, id, a))
  {
    var m := Add(l, id, a);
    forall k | k in m.removed && k in m.appended ensures SettledAt(cfg, m, k, m.removed[k]) {
      assert k in l.appended && k != id;
      assert SettledAt(cfg, l, k, l.removed[k]);
    }
    forall i | 0 <= i < |m.published| ensures Authentic(cfg, m, m.published[i], false) {
      assert Authentic(cfg, l, l.published[i], false);
    }
    forall i | 0 <= i < |m.rejected| ensures Authentic(cfg, m, m.rejected[i], true) {
      assert Authentic(cfg, l, l.rejected[i], true);
    }
  }

  lemma AddKeepsBalance(cfg: Config, l: Ledger, id: nat, a: Appended)
    requires Dated(l) && Balanced(l) && CausesFirst(l) && LogsAuthentic(cfg, l) && AboveAll(l, id) && a.at == l.now
    ensures Dated(Add(l, id, a)) && Balanced(Add(l, id, a)) && CausesFirst(Add(l, id, a))
  {
    assert id !in l.removed;
    forall i | 0 <= i < |l.published| ensures l.published[i].id in l.appended {
      assert Authentic(cfg, l, l.published[i], false);
    }
  }

  lemma ArriveKeeps(cfg: Config, l: Ledger, id: nat, entry: Entry)
    requires Kept(cfg, l) && AboveAll(l, id)
    ensures Kept(cfg, Add(l, id, Foreign(entry, l.now)))
  {
    hide NothingLost, LogsAuthentic, Dated, Balanced, CausesFirst;
    var m := Add(l, id, Foreign(entry, l.now));
    AddKeepsLogs(cfg, l, id, Foreign(entry, l.now));
    AddKeepsBalance(cfg, l, id, Foreign(entry, l.now));
    assert AdmittedUnfinished(m) == AdmittedUnfinished(l);
    forall k | k in m.appended && m.appended[k].Admitted?
      ensures var e := EventOf(cfg, m.appended[k].Content());
              e.Some? && Valid(e.value) && e.value.eventId == m.appended[k].eventId &&
                  cfg.encode(e.value) == m.appended[k].payload
    {
      assert k in l.appended && l.appended[k].Admitted?;
    }
  }

  lemma SubsetNoLarger<T>(a: set<T>, b: set<T>)
    requires a <= b
    ensures |a| <= |b|
  {
    assert b == a + (b - a);
  }

  lemma AcceptKeepsReadable(cfg: Config, l: Ledger, id: nat, e: PaymentEvent)
    requires AdmissionsReadable(cfg, l) && AboveAll(l, id)
    requires WireContract(cfg) && Valid(e)
    ensures AdmissionsReadable(cfg, Add(l, id, Admitted(e.eventId, cfg.encode(e), l.now)))
  {
  }

  lemma AcceptKeepsSpacing(cfg: Config, l: Ledger, id: nat, e: PaymentEvent)
    requires AdmissionsSpaced(cfg, l) && AboveAll(l, id)
    requires !RecentlyAdmitted(cfg, l, e.eventId)
    ensures AdmissionsSpaced(cfg, Add(l, id, Admitted(e.eventId, cfg.encode(e), l.now)))
  {
    forall k | k in l.appended && IsAdmission(l.appended[k], e.eventId)
      ensures l.appended[k].at + AdmitWindow(cfg) <= l.now
    {
    }
  }

  lemma AcceptKeeps(cfg: Config, l: Ledger, id: nat, e: PaymentEvent)
    requires Kept(cfg, l) && AboveAll(l, id)
    requires WireContract(cfg) && Valid(e) && !RecentlyAdmitted(cfg, l, e.eventId) && |l.unfinished| < cfg.maxQueue
    ensures Kept(cfg, Add(l, id, Admitted(e.eventId, cfg.encode(e), l.now)))
  {
    hide NothingLost, LogsAuthentic, Dated, Balanced, CausesFirst, AdmissionsSpaced, AdmissionsReadable;
    var a := Admitted(e.eventId, cfg.encode(e), l.now);
    AddKeepsLogs(cfg, l, id, a);
    AddKeepsBalance(cfg, l, id, a);
    AcceptKeepsReadable(cfg, l, id, e);
    AcceptKeepsSpacing(cfg, l, id, e);
    AcceptKeepsBound(cfg, l, id, a);
  }

  lemma AcceptKeepsBound(cfg: Config, l: Ledger, id: nat, a: Appended)
    requires Balanced(l) && AboveAll(l, id) && |l.unfinished| < cfg.maxQueue
    ensures |AdmittedUnfinished(Add(l, id, a))| <= cfg.maxQueue
  {
    var m := Add(l, id, a);
    assert m.unfinished.Keys == l.unfinished.Keys + {id};
    SubsetNoLarger(AdmittedUnfinished(m), m.unfinished.Keys);
  }

  lemma LogKeepsHistory(cfg: Config, l: Ledger, ask: Ask)
    requires NothingLost(cfg, l) && LogsAuthentic(cfg, l)
    requires ask.id in l.appended && ask == AskFor(cfg, ask.id, l.appended[ask.id].Content())
    ensures NothingLost(cfg, Log(l, ask)) && LogsAuthentic(cfg, Log(l, ask))
  {
    var m := Log(l, ask);
    forall i | 0 <= i < |m.published| ensures Authentic(cfg, m, m.published[i], false) {
      if i < |l.published| { assert Authentic(cfg, l, l.published[i], false); }
    }
    forall i | 0 <= i < |m.rejected| ensures Authentic(cfg, m, m.rejected[i], true) {
      if i < |l.rejected| { assert Authentic(cfg, l, l.rejected[i], true); }
    }
    forall id | id in m.removed && id in m.appended ensures SettledAt(cfg, m, id, m.removed[id]) {
      assert SettledAt(cfg, l, id, l.removed[id]);
      SettledStays(cfg, l, m, id, l.removed[id]);
    }
  }

  lemma LogKeepsDates(cfg: Config, l: Ledger, ask: Ask)
    requires Dated(l) && Balanced(l) && CausesFirst(l) && DecisionsSpaced(cfg, l)
    requires ask.id in l.appended
    requires !Recently(cfg, l, ask)
    ensures Dated(Log(l, ask)) && Balanced(Log(l, ask)) && CausesFirst(Log(l, ask)) && DecisionsSpaced(cfg, Log(l, ask))
  {
  }

  lemma LogSettles(cfg: Config, l: Ledger, ask: Ask)
    requires WorkWindow(cfg) > 0
    requires ask.id in l.appended && ask == AskFor(cfg, ask.id, l.appended[ask.id].Content())
    ensures SettledAt(cfg, Log(l, ask), ask.id, l.now)
  {
    var m := Log(l, ask);
    var p := Publication(ask.id, ask.eventId, ask.body, l.now);
    if ask.dead { assert m.rejected[|l.rejected|] == p; } else { assert m.published[|l.published|] == p; }
  }

  /** Logging when nothing recent is in the log keeps the spacing, and makes the entry settled now. */
  lemma LogKeeps(cfg: Config, l: Ledger, ask: Ask)
    requires Kept(cfg, l) && WorkWindow(cfg) > 0
    requires ask.id in l.appended && ask == AskFor(cfg, ask.id, l.appended[ask.id].Content())
    requires !Recently(cfg, l, ask)
    ensures Kept(cfg, Log(l, ask)) && SettledAt(cfg, Log(l, ask), ask.id, l.now)
  {
    hide NothingLost, LogsAuthentic, Dated, Balanced, CausesFirst, DecisionsSpaced, SettledAt;
    LogKeepsHistory(cfg, l, ask);
    LogKeepsDates(cfg, l, ask);
    LogSettles(cfg, l, ask);
    assert AdmittedUnfinished(Log(l, ask)) == AdmittedUnfinished(l);
  }

  lemma SettledStays(cfg: Config, l: Ledger, m: Ledger, id: nat, t: nat)
    requires id in l.appended && SettledAt(cfg, l, id, t)
    requires l.appended == m.appended && l.published <= m.published && l.rejected <= m.rejected
    ensures SettledAt(cfg, m, id, t)
  {
    var ask := AskFor(cfg, id, l.appended[id].Content());
    if ask.dead {
      var i :| 0 <= i < |l.rejected| && l.rejected[i].id == id &&
          l.rejected[i].at <= t < l.rejected[i].at + WorkWindow(cfg);
      assert m.rejected[i] == l.rejected[i];
    } else {
      var i :| 0 <= i < |l.published| && l.published[i].eventId == ask.eventId &&
          l.published[i].at <= t < l.published[i].at + WorkWindow(cfg);
      assert m.published[i] == l.published[i];
    }
  }

  lemma RecentIsSettled(cfg: Config, l: Ledger, id: nat)
    requires Dated(l) && id in l.appended
    requires Recently(cfg, l, AskFor(cfg, id, l.appended[id].Content()))
    ensures SettledAt(cfg, l, id, l.now)
  {
  }

  lemma DropKeepsHistory(cfg: Config, l: Ledger, id: nat)
    requires NothingLost(cfg, l) && LogsAuthentic(cfg, l) && id in l.appended
    requires SettledAt(cfg, l, id, l.now)
    ensures NothingLost(cfg, Drop(l, id)) && LogsAuthentic(cfg, Drop(l, id))
  {
    var m := Drop(l, id);
    forall k | k in m.removed && k in m.appended ensures SettledAt(cfg, m, k, m.removed[k]) {
      var t := if k == id && id in l.unfinished then l.now else l.removed[k];
      assert SettledAt(cfg, l, k, t);
      SettledStays(cfg, l, m, k, t);
    }
    forall i | 0 <= i < |m.published| ensures Authentic(cfg, m, m.published[i], false) {
      assert Authentic(cfg, l, l.published[i], false);
    }
    forall i | 0 <= i < |m.rejected| ensures Authentic(cfg, m, m.rejected[i], true) {
      assert Authentic(cfg, l, l.rejected[i], true);
    }
  }

  lemma DropKeeps(cfg: Config, l: Ledger, id: nat)
    requires Kept(cfg, l) && id in l.appended
    requires SettledAt(cfg, l, id, l.now)
    ensures Kept(cfg, Drop(l, id))
  {
    hide NothingLost, LogsAuthentic, SettledAt, Dated, Balanced, CausesFirst, DecisionsSpaced, AdmissionsSpaced,
         AdmissionsReadable;
    DropKeepsHistory(cfg, l, id);
    DropKeepsDates(cfg, l, id);
    DropKeepsAdmissions(cfg, l, id);
  }

  lemma DropKeepsDates(cfg: Config, l: Ledger, id: nat)
    requires Dated(l) && Balanced(l) && CausesFirst(l) && DecisionsSpaced(cfg, l) && id in l.appended
    ensures Dated(Drop(l, id)) && Balanced(Drop(l, id)) && CausesFirst(Drop(l, id)) && DecisionsSpaced(cfg, Drop(l, id))
  {
  }

  lemma DropKeepsAdmissions(cfg: Config, l: Ledger, id: nat)
    requires AdmissionsSpaced(cfg, l) && AdmissionsReadable(cfg, l) && |AdmittedUnfinished(l)| <= cfg.maxQueue
    ensures AdmissionsSpaced(cfg, Drop(l, id)) && AdmissionsReadable(cfg, Drop(l, id))
    ensures |AdmittedUnfinished(Drop(l, id))| <= cfg.maxQueue
  {
    assert AdmittedUnfinished(Drop(l, id)) <= AdmittedUnfinished(l);
    SubsetNoLarger(AdmittedUnfinished(Drop(l, id)), AdmittedUnfinished(l));
  }

  lemma SettleKeeps(cfg: Config, l: Ledger, id: nat)
    requires Kept(cfg, l) && WorkWindow(cfg) > 0 && id in l.appended
    ensures Kept(cfg, SettleAsk(cfg, l, AskFor(cfg, id, l.appended[id].Content())))
  {
    var ask := AskFor(cfg, id, l.appended[id].Content());
    AskKnows(cfg, id, l.appended[id].Content());
    if Recently(cfg, l, ask) {
      RecentIsSettled(cfg, l, id);
      DropKeeps(cfg, l, id);
    } else {
      LogKeeps(cfg, l, ask);
      DropKeeps(cfg, Log(l, ask), id);
    }
  }

  lemma DoAcceptKeeps(cfg: Config, l: Ledger, id: nat, e: PaymentEvent)
    requires Kept(cfg, l) && WireContract(cfg)
    ensures Kept(cfg, Do(cfg, l, Accept(id, e)))
  {
    if !Valid(e) || RecentlyAdmitted(cfg, l, e.eventId) || |l.unfinished| >= cfg.maxQueue || !AboveAll(l, id) {
      assert Do(cfg, l, Accept(id, e)) == l;
    } else {
      AcceptKeeps(cfg, l, id, e);
      assert Do(cfg, l, Accept(id, e)) == Add(l, id, Admitted(e.eventId, cfg.encode(e), l.now));
    }
  }

  lemma DoArriveKeeps(cfg: Config, l: Ledger, id: nat, entry: Entry)
    requires Kept(cfg, l)
    ensures Kept(cfg, Do(cfg, l, Arrive(id, entry)))
  {
    if AboveAll(l, id) {
      ArriveKeeps(cfg, l, id, entry);
      assert Do(cfg, l, Arrive(id, entry)) == Add(l, id, Foreign(entry, l.now));
    } else {
      assert Do(cfg, l, Arrive(id, entry)) == l;
    }
  }

  lemma DoSettleKeeps(cfg: Config, l: Ledger, id: nat)
    requires Kept(cfg, l) && WorkWindow(cfg) > 0
    ensures Kept(cfg, Do(cfg, l, Settle(id)))
  {
    if id in l.appended {
      SettleKeeps(cfg, l, id);
      assert Do(cfg, l, Settle(id)) == SettleAsk(cfg, l, AskFor(cfg, id, l.appended[id].Content()));
    } else {
      assert Do(cfg, l, Settle(id)) == l;
    }
  }

  /** Every deed keeps spacing, balance, authenticity, the bound, and that nothing is lost. */
  lemma DoKeeps(cfg: Config, l: Ledger, deed: Deed)
    requires Kept(cfg, l) && Configured(cfg) && WireContract(cfg)
    ensures Kept(cfg, Do(cfg, l, deed))
  {
    hide Kept;
    if deed.Wait? {
      WaitKeeps(cfg, l, deed.ms);
    } else if deed.Accept? {
      DoAcceptKeeps(cfg, l, deed.id, deed.event);
    } else if deed.Arrive? {
      DoArriveKeeps(cfg, l, deed.id, deed.entry);
    } else if deed.Settle? {
      DoSettleKeeps(cfg, l, deed.id);
    }
  }
}
