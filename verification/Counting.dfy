/**
  What the counters of any number of workers add up to against the two output streams, and how often an entry is
  finished, over every interleaving of their commands and scripts.
 */
module Counting {
  import opened Protocol
  import opened Safety
  import opened Lease
  import opened Cycle
  import opened Fleets

  // ----------------------------------------------------------------------------------------------
  // Counters
  // ----------------------------------------------------------------------------------------------

  const NOTHING: Tally := Tally(0, 0, 0, 0)

  /** What the workers have counted, all together. */
  function Counters(hands: seq<Hand>): Tally {
    if hands == [] then NOTHING else Counters(hands[..|hands| - 1]).Plus(hands[|hands| - 1].memory.tally)
  }

  /** What the answers of a pipeline under way will count as once the worker hears them. */
  function Awaited(cfg: Config, stage: Stage): Tally {
    if stage.Sending? && |stage.codes| <= |stage.batch| then
      CountAll(stage.codes, DeadFlags(cfg, stage.batch)[..|stage.codes|])
    else NOTHING
  }

  function Credit(cfg: Config, h: Hand): Tally { h.memory.tally.Plus(Awaited(cfg, h.stage)) }

  function Credits(cfg: Config, hands: seq<Hand>): Tally {
    if hands == [] then NOTHING else Credits(cfg, hands[..|hands| - 1]).Plus(Credit(cfg, hands[|hands| - 1]))
  }

  /** Between two states the counters grew by no more than the output streams did, and by as much if exact. */
  ghost predicate Reported(w: World, v: World, before: Tally, after: Tally, exact: bool) {
    && after.decisions - before.decisions <= |v.published| - |w.published|
    && after.dead - before.dead <= |v.rejected| - |w.rejected|
    && (exact ==> after.decisions - before.decisions == |v.published| - |w.published|)
    && (exact ==> after.dead - before.dead == |v.rejected| - |w.rejected|)
  }

  /** Every worker waits for every reply and is not restarted, and only workers finish entries. */
  predicate Heard(act: Act) {
    match act
    case Outside(step) => !step.Complete?
    case Work(_, action) => !action.GiveUp? && !action.Restart?
    case Abandon(_) => false
  }

  /** No abandoned pipeline is on its way. */
  ghost predicate NoneLate(hands: seq<Hand>) { forall k :: 0 <= k < |hands| ==> !hands[k].stage.Late? }

  lemma FinishReply(cfg: Config, w: World, ticket: nat, ask: Ask, fault: Fault)
    ensures var o := FinishAsk(cfg, w, ticket, ask, fault);
            var t := CountOf(o.code, ask.dead);
            && |o.world.published| == |w.published| + t.decisions
            && |o.world.rejected| == |w.rejected| + t.dead
  {
  }

  lemma FlagsUpTo(cfg: Config, batch: seq<Held>, n: nat)
    requires n < |batch|
    ensures |DeadFlags(cfg, batch)| == |batch|
    ensures DeadFlags(cfg, batch)[..n + 1] ==
            DeadFlags(cfg, batch)[..n] + [AskFor(cfg, batch[n].id, batch[n].entry).dead]
  {
    hide AskFor;
  }

  lemma ScriptReported(cfg: Config, w: World, h: Hand, fault: Fault)
    requires ToSend(h.stage)
    ensures var turn := RunScript(cfg, w, h, fault);
            Reported(w, turn.world, Credit(cfg, h), Credit(cfg, turn.hand), !h.stage.Late?)
  {
    hide FinishAsk, AskFor, CountOf, CountAll, DeadFlags;
    var n := |h.stage.codes|;
    var held := h.stage.batch[n];
    var ask := AskFor(cfg, held.id, held.entry);
    FinishReply(cfg, w, h.stage.ticket + n, ask, fault);
    FlagsUpTo(cfg, h.stage.batch, n);
    var code := FinishAsk(cfg, w, h.stage.ticket + n, ask, fault).code;
    CountOneMore(h.stage.codes, DeadFlags(cfg, h.stage.batch)[..n], code, ask.dead);
  }

  lemma HearReported(cfg: Config, w: World, h: Hand)
    requires h.stage.Sending? && |h.stage.codes| == |h.stage.batch|
    ensures Credit(cfg, Hear(cfg, w, h).hand) == Credit(cfg, h)
  {
    hide CountAll, DeadFlags;
    FlagsLength(cfg, h.stage.batch);
    var flags := DeadFlags(cfg, h.stage.batch);
    assert flags[..|h.stage.codes|] == flags;
  }

  lemma FlagsLength(cfg: Config, batch: seq<Held>)
    ensures |DeadFlags(cfg, batch)| == |batch|
  {
    hide AskFor;
  }

  lemma ReceivedCredit(cfg: Config, h: Hand, now: nat, batch: seq<Held>, ticket: nat, claiming: bool)
    requires !h.stage.Sending?
    ensures Credit(cfg, Received(h, now, batch, ticket, claiming)) == Credit(cfg, h)
  {
    hide DeadFlags;
    assert DeadFlags(cfg, batch)[..0] == [];
    assert CountAll([], []) == NOTHING;
  }

  lemma ClaimReported(cfg: Config, w: World, h: Hand, link: Link)
    requires !h.stage.Sending?
    ensures var turn := MakeClaim(cfg, w, h, link);
            && turn.world.published == w.published && turn.world.rejected == w.rejected
            && Credit(cfg, turn.hand) == Credit(cfg, h)
  {
    hide ClaimIds, Holding, Received, CountAll, DeadFlags;
    var scan := ClaimIds(cfg, w, h.memory.cursor, cfg.batch);
    var me := h.memory.(cursor := scan.next, reclaimed := h.memory.reclaimed + |scan.claimed|);
    ReceivedCredit(cfg, h.(memory := me), w.now, Holding(w.stream, scan.claimed), |w.delivered|, true);
  }

  lemma ReadReported(cfg: Config, w: World, h: Hand, link: Link)
    requires !h.stage.Sending?
    ensures var turn := MakeRead(cfg, w, h, link);
            && turn.world.published == w.published && turn.world.rejected == w.rejected
            && Credit(cfg, turn.hand) == Credit(cfg, h)
  {
    hide ReadIds, Holding, Received, CountAll, DeadFlags;
    ReceivedCredit(cfg, h, w.now, Holding(w.stream, ReadIds(w, cfg.batch)), |w.delivered|, false);
  }

  lemma RegroupCredit(cfg: Config, h: Hand)
    requires h.stage.AtFailure?
    ensures Credit(cfg, h.(stage := AtClaim)) == Credit(cfg, h)
  {
    hide Awaited;
    NothingAwaited(cfg, AtClaim);
    NothingAwaited(cfg, AtFailure);
  }

  lemma FreshCredit(cfg: Config, owner: string, now: nat)
    ensures Credit(cfg, Hand(owner, Fresh(now), AtClaim)) == NOTHING
  {
    hide Awaited;
    NothingAwaited(cfg, AtClaim);
  }

  lemma ActionReported(cfg: Config, w: World, h: Hand, action: Action)
    ensures var turn := Go(cfg, w, h, action);
            Reported(w, turn.world, Credit(cfg, h), Credit(cfg, turn.hand),
                     !action.GiveUp? && !action.Restart? && !h.stage.Late?)
  {
    hide MakeClaim, MakeRead, RunScript, Hear, Credit, Fresh, Failed;
    if action.ClaimNext? && h.stage.AtClaim? {
      ClaimReported(cfg, w, h, action.link);
    } else if action.ReadNext? && h.stage.AtRead? {
      ReadReported(cfg, w, h, action.link);
    } else if action.SendScript? && ToSend(h.stage) {
      ScriptReported(cfg, w, h, action.fault);
    } else if action.HearReply? && h.stage.Sending? && |h.stage.codes| == |h.stage.batch| {
      HearReported(cfg, w, h);
      HearKeepsStore(cfg, w, h);
    } else if action.GiveUp? && h.stage.Sending? {
      FailedCredit(cfg, h);
      CreditCovers(cfg, h);
    } else if action.Regroup? && h.stage.AtFailure? {
      RegroupCredit(cfg, h);
    } else if action.Restart? {
      FreshCredit(cfg, h.owner, w.now);
    }
  }

  lemma HearKeepsStore(cfg: Config, w: World, h: Hand)
    requires h.stage.Sending? && |h.stage.codes| == |h.stage.batch|
    ensures Hear(cfg, w, h).world == w
  {
  }

  /** Replacing one worker changes the sum by the difference. */
  lemma {:induction false} CreditsUpdate(cfg: Config, hands: seq<Hand>, k: nat, h: Hand)
    requires k < |hands|
    ensures Credits(cfg, hands[k := h]).Plus(Credit(cfg, hands[k])) == Credits(cfg, hands).Plus(Credit(cfg, h))
    decreases |hands|
  {
    hide Credit;
    var n := |hands| - 1;
    if k == n {
      assert hands[k := h][..n] == hands[..n];
    } else {
      assert hands[k := h][..n] == hands[..n][k := h];
      CreditsUpdate(cfg, hands[..n], k, h);
    }
  }

  lemma FinishOnlyAdds(cfg: Config, w: World, ticket: nat, ask: Ask, fault: Fault)
    ensures w.published <= FinishAsk(cfg, w, ticket, ask, fault).world.published
    ensures w.rejected <= FinishAsk(cfg, w, ticket, ask, fault).world.rejected
  {
  }

  lemma OutsideReported(cfg: Config, w: World, step: Step, t: Tally)
    ensures Reported(w, Next(cfg, w, step), t, t, !step.Complete?)
  {
    hide FinishAsk, AskFor;
    if step.Complete? && Enabled(w, step) {
      var id := w.delivered[step.ticket].id;
      FinishOnlyAdds(cfg, w, step.ticket, AskFor(cfg, id, w.appended[id].Content()), step.fault);
    }
  }

  /** Abandoning a pipeline gives its uncounted answers up. */
  lemma AbandonReported(cfg: Config, hands: seq<Hand>, k: nat, now: nat)
    requires k < |hands| && hands[k].stage.Sending?
    ensures var t := Credits(cfg, hands[k := Failed(hands[k])] + [Leftover(hands[k], now)]);
            t.decisions <= Credits(cfg, hands).decisions && t.dead <= Credits(cfg, hands).dead
  {
    hide Credit, Credits, Failed, Leftover;
    var kept, left := hands[k := Failed(hands[k])], Leftover(hands[k], now);
    CreditsUpdate(cfg, hands, k, Failed(hands[k]));
    CreditsMore(cfg, kept, left);
    LeftoverCredit(cfg, hands[k], now);
    FailedCredit(cfg, hands[k]);
    CreditCovers(cfg, hands[k]);
  }

  lemma CreditsMore(cfg: Config, hands: seq<Hand>, h: Hand)
    ensures Credits(cfg, hands + [h]) == Credits(cfg, hands).Plus(Credit(cfg, h))
  {
    hide Credit;
    assert (hands + [h])[..|hands|] == hands;
  }

  lemma LeftoverCredit(cfg: Config, h: Hand, now: nat)
    requires h.stage.Sending?
    ensures Credit(cfg, Leftover(h, now)) == NOTHING
  {
    hide Awaited, Failed, Leftover;
    AbandonedStages(h, now);
    NothingAwaited(cfg, Leftover(h, now).stage);
  }

  lemma FailedCredit(cfg: Config, h: Hand)
    requires h.stage.Sending?
    ensures Credit(cfg, Failed(h)) == h.memory.tally
  {
    hide Awaited, Failed, Leftover;
    AbandonedStages(h, 0);
    NothingAwaited(cfg, Failed(h).stage);
  }

  lemma CreditCovers(cfg: Config, h: Hand)
    ensures h.memory.tally.decisions <= Credit(cfg, h).decisions && h.memory.tally.dead <= Credit(cfg, h).dead
  {
    hide Awaited;
  }

  lemma AbandonedStages(h: Hand, now: nat)
    requires h.stage.Sending?
    ensures Leftover(h, now).stage.Late? && Leftover(h, now).memory.tally == NOTHING
    ensures Failed(h).stage.AtFailure? && Failed(h).memory.tally == h.memory.tally
  {
  }

  lemma NothingAwaited(cfg: Config, stage: Stage)
    requires !stage.Sending?
    ensures Awaited(cfg, stage) == NOTHING
  {
  }

  lemma ActReported(cfg: Config, f: Fleet, act: Act)
    ensures var g := FleetNext(cfg, f, act);
            Reported(f.world, g.world, Credits(cfg, f.hands), Credits(cfg, g.hands), Heard(act) && NoneLate(f.hands))
  {
    hide Go, Next, Credit, Credits;
    if act.Outside? {
      OutsideReported(cfg, f.world, act.step, Credits(cfg, f.hands));
    } else if act.Work? && act.k < |f.hands| {
      ActionReported(cfg, f.world, f.hands[act.k], act.action);
      CreditsUpdate(cfg, f.hands, act.k, Go(cfg, f.world, f.hands[act.k], act.action).hand);
    } else if act.Abandon? && act.k < |f.hands| && f.hands[act.k].stage.Sending? {
      AbandonReported(cfg, f.hands, act.k, f.world.now);
    }
  }

  ghost predicate AllHeard(acts: seq<Act>) { forall i :: 0 <= i < |acts| ==> Heard(acts[i]) }

  lemma GoNotLate(cfg: Config, w: World, h: Hand, action: Action)
    requires !h.stage.Late?
    ensures !Go(cfg, w, h, action).hand.stage.Late?
  {
    hide ClaimIds, Holding, ReadIds, CountAll, DeadFlags, FinishAsk, AskFor, AutoClaim, ReadGroup;
  }

  lemma HeardNoneLate(cfg: Config, f: Fleet, act: Act)
    requires NoneLate(f.hands) && Heard(act)
    ensures NoneLate(FleetNext(cfg, f, act).hands)
  {
    hide Go, Next;
    if act.Work? && act.k < |f.hands| {
      GoNotLate(cfg, f.world, f.hands[act.k], act.action);
    }
  }

  lemma {:induction false} FleetReported(cfg: Config, f: Fleet, acts: seq<Act>)
    requires NoneLate(f.hands)
    ensures var g := FleetRun(cfg, f, acts);
            && Reported(f.world, g.world, Credits(cfg, f.hands), Credits(cfg, g.hands), AllHeard(acts))
            && (AllHeard(acts) ==> NoneLate(g.hands))
  {
    if acts == [] {
    } else {
      hide FleetNext, Credits, Heard, NoneLate;
      var n := |acts| - 1;
      var g := FleetRun(cfg, f, acts[..n]);
      FleetReported(cfg, f, acts[..n]);
      ActReported(cfg, g, acts[n]);
      if AllHeard(acts) {
        assert AllHeard(acts[..n]) && Heard(acts[n]);
        HeardNoneLate(cfg, g, acts[n]);
      }
    }
  }

  /** No pipeline is under way. */
  ghost predicate AtRest(f: Fleet) {
    forall k :: 0 <= k < |f.hands| ==> !f.hands[k].stage.Sending? && !f.hands[k].stage.Late?
  }

  lemma {:induction false} CreditsCover(cfg: Config, hands: seq<Hand>)
    ensures Counters(hands).decisions <= Credits(cfg, hands).decisions
    ensures Counters(hands).dead <= Credits(cfg, hands).dead
    ensures (forall k :: 0 <= k < |hands| ==> !hands[k].stage.Sending?) ==> Counters(hands) == Credits(cfg, hands)
  {
    if hands == [] {
    } else {
      var n := |hands| - 1;
      CreditsCover(cfg, hands[..n]);
      if forall k :: 0 <= k < |hands| ==> !hands[k].stage.Sending? {
        assert forall k :: 0 <= k < n ==> hands[..n][k] == hands[k];
      }
    }
  }

  /**
    The counters of all workers, summed, never grow by more than what the two output streams grow by, in any
    interleaving with crashes, restarts and lost replies; and by exactly that when every reply is heard, once no
    pipeline is under way.
   */
  lemma CountersFollowLogs(cfg: Config, f: Fleet, acts: seq<Act>)
    requires AtRest(f)
    ensures var g := FleetRun(cfg, f, acts);
            Reported(f.world, g.world, Counters(f.hands), Counters(g.hands), AllHeard(acts) && AtRest(g))
  {
    hide FleetRun, Counters, Credits, AllHeard;
    FleetReported(cfg, f, acts);
    CreditsCover(cfg, f.hands);
    CreditsCover(cfg, FleetRun(cfg, f, acts).hands);
  }

  // ----------------------------------------------------------------------------------------------
  // Every delivery is finished once
  // ----------------------------------------------------------------------------------------------

  /** The delivery records of the scripts a worker has still to send. */
  ghost predicate Owes(h: Hand, ticket: nat) {
    && (h.stage.Sending? || h.stage.Late?)
    && h.stage.ticket + |h.stage.codes| <= ticket < h.stage.ticket + |h.stage.batch|
  }

  ghost predicate Finished(w: World, ticket: nat) {
    exists c :: 0 <= c < |w.completed| && w.completed[c].ticket == ticket
  }

  /** No delivery was finished twice. */
  ghost predicate TicketsOnce(w: World) {
    && (forall c :: 0 <= c < |w.completed| ==> w.completed[c].ticket < |w.delivered|)
    && (forall b, c :: 0 <= b < c < |w.completed| ==> w.completed[b].ticket != w.completed[c].ticket)
  }

  ghost predicate HandOwes(w: World, h: Hand) {
    forall t: nat :: Owes(h, t) ==> t < |w.delivered| && !Finished(w, t)
  }

  /** And none that was is owed, nor is any owed by two workers. */
  ghost predicate Orderly(f: Fleet) {
    && TicketsOnce(f.world)
    && (forall k :: 0 <= k < |f.hands| ==> HandOwes(f.world, f.hands[k]))
    && (forall k, l, t: nat :: 0 <= k < l < |f.hands| && Owes(f.hands[k], t) ==> !Owes(f.hands[l], t))
  }

  /** A step that finishes nothing. */
  lemma StepFinishesNothing(cfg: Config, w: World, step: Step)
    requires !step.Complete?
    ensures Next(cfg, w, step).completed == w.completed && w.delivered <= Next(cfg, w, step).delivered
  {
    DeliveredGrows(cfg, w, step);
    hide ClaimIds, ReadIds;
  }

  /** What an action does to the completion log and to what its worker owes. */
  ghost predicate ActionOwes(w: World, h: Hand, v: World, g: Hand) {
    && w.delivered <= v.delivered
    && ((v.completed == w.completed && forall t: nat :: Owes(g, t) ==> Owes(h, t) || |w.delivered| <= t < |v.delivered|)
        || (exists t: nat :: OwedDone(w, h, v, g, t)))
  }

  ghost predicate OwedDone(w: World, h: Hand, v: World, g: Hand, t: nat) {
    && Owes(h, t) && !Owes(g, t) && (forall u: nat :: Owes(g, u) ==> Owes(h, u))
    && |v.completed| == |w.completed| + 1 && w.completed <= v.completed && v.completed[|w.completed|].ticket == t
  }

  lemma ScriptOwes(cfg: Config, w: World, h: Hand, fault: Fault)
    requires ToSend(h.stage)
    ensures var turn := RunScript(cfg, w, h, fault); ActionOwes(w, h, turn.world, turn.hand)
  {
    hide AskFor;
    var turn := RunScript(cfg, w, h, fault);
    var t := h.stage.ticket + |h.stage.codes|;
    assert Owes(h, t) && !Owes(turn.hand, t);
    assert forall u: nat :: Owes(turn.hand, u) ==> Owes(h, u);
    if turn.world.completed != w.completed {
      assert OwedDone(w, h, turn.world, turn.hand, t);
    }
  }

  lemma DeliverCounts(w: World, ids: seq<nat>, owner: string)
    ensures |Deliver(w, ids, owner).delivered| == |w.delivered| + |ids|
    ensures w.delivered <= Deliver(w, ids, owner).delivered
    ensures |Holding(w.stream, ids)| <= |ids|
  {
  }

  lemma ReceivedOwes(h: Hand, now: nat, batch: seq<Held>, ticket: nat, claiming: bool)
    requires !h.stage.Sending? && !h.stage.Late?
    ensures var g := Received(h, now, batch, ticket, claiming);
            forall t: nat :: Owes(g, t) ==> ticket <= t < ticket + |batch|
  {
  }

  lemma ClaimOwes(cfg: Config, w: World, h: Hand, link: Link)
    requires !h.stage.Sending? && !h.stage.Late?
    ensures var turn := MakeClaim(cfg, w, h, link); ActionOwes(w, h, turn.world, turn.hand)
  {
    hide ClaimIds, Holding, Received, Deliver;
    if ClaimDue(w, h.memory) && link != Unsent && w.group.Some? {
      var scan := ClaimIds(cfg, w, h.memory.cursor, cfg.batch);
      var me := h.memory.(cursor := scan.next, reclaimed := h.memory.reclaimed + |scan.claimed|);
      DeliverCounts(w, scan.claimed, h.owner);
      DeliverFinishesNothing(w, scan.claimed, h.owner);
      ReceivedOwes(h.(memory := me), w.now, Holding(w.stream, scan.claimed), |w.delivered|, true);
    }
  }

  lemma DeliverFinishesNothing(w: World, ids: seq<nat>, owner: string)
    ensures Deliver(w, ids, owner).completed == w.completed && Deliver(w, ids, owner).now == w.now
  {
  }

  lemma ReadOwes(cfg: Config, w: World, h: Hand, link: Link)
    requires !h.stage.Sending? && !h.stage.Late?
    ensures var turn := MakeRead(cfg, w, h, link); ActionOwes(w, h, turn.world, turn.hand)
  {
    hide ReadIds, Holding, Received, Deliver;
    if link != Unsent && w.group.Some? {
      var ids := ReadIds(w, cfg.batch);
      DeliverCounts(w, ids, h.owner);
      DeliverFinishesNothing(w, ids, h.owner);
      ReceivedOwes(h, w.now, Holding(w.stream, ids), |w.delivered|, false);
      if ids == [] { assert |Holding(w.stream, ids)| == 0; }
    }
  }

  lemma StillOwes(w: World, h: Hand, v: World, g: Hand)
    requires v.completed == w.completed && w.delivered <= v.delivered
    requires (!g.stage.Sending? && !g.stage.Late?) || g.stage == h.stage
    ensures ActionOwes(w, h, v, g)
  {
  }

  lemma GoOwes(cfg: Config, w: World, h: Hand, action: Action)
    ensures var turn := Go(cfg, w, h, action); ActionOwes(w, h, turn.world, turn.hand)
  {
    hide MakeClaim, MakeRead, RunScript, ActionOwes, CountAll, DeadFlags;
    var turn := Go(cfg, w, h, action);
    if action.ClaimNext? && h.stage.AtClaim? {
      ClaimOwes(cfg, w, h, action.link);
    } else if action.ReadNext? && h.stage.AtRead? {
      ReadOwes(cfg, w, h, action.link);
    } else if action.SendScript? && ToSend(h.stage) {
      ScriptOwes(cfg, w, h, action.fault);
    } else {
      StillOwes(w, h, turn.world, turn.hand);
    }
  }

  lemma TicketsAfter(w: World, v: World, t: nat)
    requires TicketsOnce(w) && t < |w.delivered| && !Finished(w, t) && w.delivered <= v.delivered
    requires |v.completed| == |w.completed| + 1 && w.completed <= v.completed && v.completed[|w.completed|].ticket == t
    ensures TicketsOnce(v)
    ensures forall u: nat :: Finished(v, u) ==> u == t || Finished(w, u)
  {
    forall b | 0 <= b < |w.completed| ensures w.completed[b].ticket != t && v.completed[b] == w.completed[b] {
    }
  }

  lemma ActionKeepsOrder(f: Fleet, k: nat, v: World, g: Hand)
    requires Orderly(f) && k < |f.hands| && ActionOwes(f.world, f.hands[k], v, g)
    ensures Orderly(Fleet(v, f.hands[k := g]))
  {
    hide Owes, Finished, TicketsOnce;
    var w, h := f.world, f.hands[k];
    if v.completed == w.completed {
      SameTickets(w, v);
    } else {
      var t: nat :| OwedDone(w, h, v, g, t);
      TicketsAfter(w, v, t);
    }
  }

  lemma SameTickets(w: World, v: World)
    requires v.completed == w.completed && w.delivered <= v.delivered
    ensures TicketsOnce(w) ==> TicketsOnce(v)
    ensures forall u: nat :: Finished(v, u) ==> Finished(w, u) && (TicketsOnce(w) ==> u < |w.delivered|)
  {
  }

  /** Nobody but the fleet's workers finishes entries. */
  ghost predicate OwnHands(acts: seq<Act>) { forall i :: 0 <= i < |acts| ==>
      !(acts[i].Outside? && acts[i].step.Complete?) }

  /** What an abandoned pipeline still owes, its worker no longer does. */
  lemma AbandonKeepsOrder(f: Fleet, k: nat)
    requires Orderly(f)
    ensures k < |f.hands| && f.hands[k].stage.Sending? ==>
              Orderly(f.(hands := f.hands[k := Failed(f.hands[k])] + [Leftover(f.hands[k], f.world.now)]))
  {
    hide Finished, TicketsOnce;
    if k < |f.hands| && f.hands[k].stage.Sending? {
      var h := f.hands[k];
      assert forall t: nat :: Owes(Leftover(h, f.world.now), t) <==> Owes(h, t);
      assert forall t: nat :: !Owes(Failed(h), t);
    }
  }

  lemma ActKeepsOrder(cfg: Config, f: Fleet, act: Act)
    requires Orderly(f) && !(act.Outside? && act.step.Complete?)
    ensures Orderly(FleetNext(cfg, f, act))
  {
    hide Go, Next, ActionOwes, Owes, Finished, TicketsOnce;
    if act.Outside? {
      StepFinishesNothing(cfg, f.world, act.step);
      SameTickets(f.world, Next(cfg, f.world, act.step));
    } else if act.Abandon? {
      AbandonKeepsOrder(f, act.k);
    } else if act.k < |f.hands| {
      GoOwes(cfg, f.world, f.hands[act.k], act.action);
      var turn := Go(cfg, f.world, f.hands[act.k], act.action);
      ActionKeepsOrder(f, act.k, turn.world, turn.hand);
    }
  }

  lemma {:induction false} FleetKeepsOrder(cfg: Config, f: Fleet, acts: seq<Act>)
    requires Orderly(f) && OwnHands(acts)
    ensures Orderly(FleetRun(cfg, f, acts))
  {
    if acts == [] {
    } else {
      hide Orderly, FleetNext;
      var n := |acts| - 1;
      FleetKeepsOrder(cfg, f, acts[..n]);
      ActKeepsOrder(cfg, FleetRun(cfg, f, acts[..n]), acts[n]);
    }
  }

  lemma RestIsOrderly(f: Fleet)
    requires AtRest(f) && f.world.completed == []
    ensures Orderly(f)
  {
  }

  lemma RestIsManned(cfg: Config, f: Fleet)
    requires Live(cfg, f.world) && AtRest(f)
    ensures Manned(cfg, f)
  {
    hide Live;
  }

  // ----------------------------------------------------------------------------------------------
  // Holding one entry
  // ----------------------------------------------------------------------------------------------

  /** The worker has position i of a pipeline in hand. */
  ghost predicate InHand(h: Hand, i: nat) { (h.stage.Sending? || h.stage.Late?) && i < |h.stage.batch| }

  /**
    An entry is in the batches of two workers only if the later delivery came a full reclaim time after the earlier,
    and that was at the latest now.
   */
  lemma HeldTwice(cfg: Config, f: Fleet, k: nat, l: nat, i: nat, j: nat)
    requires Manned(cfg, f) && k < |f.hands| && l < |f.hands|
    requires InHand(f.hands[k], i) && InHand(f.hands[l], j)
    requires f.hands[k].stage.batch[i].id == f.hands[l].stage.batch[j].id
    requires f.hands[k].stage.ticket + i < f.hands[l].stage.ticket + j
    ensures f.hands[l].stage.ticket + j < |f.world.delivered|
    ensures var earlier := f.world.delivered[f.hands[k].stage.ticket + i];
            var later := f.world.delivered[f.hands[l].stage.ticket + j];
            earlier.at + cfg.reclaimMs <= later.at <= f.world.now
  {
    hide Live;
    assert HandFits(f.world, f.hands[k]) && HandFits(f.world, f.hands[l]);
    LeaseFacts(cfg, f.world);
    LeaseExclusive(cfg, f.world, f.hands[k].stage.ticket + i, f.hands[l].stage.ticket + j);
  }

  /**
    Whatever a fleet of workers does, no delivery is ever finished twice, not even when the scripts of an abandoned
    pipeline arrive late.
   */
  lemma DeliveryFinishedOnce(cfg: Config, f: Fleet, acts: seq<Act>, b: nat, c: nat)
    requires AtRest(f) && f.world.completed == [] && OwnHands(acts)
    requires var g := FleetRun(cfg, f, acts);
             b < c < |g.world.completed|
    ensures var g := FleetRun(cfg, f, acts);
            g.world.completed[b].ticket != g.world.completed[c].ticket
  {
    hide FleetRun, AtRest, OwnHands;
    RestIsOrderly(f);
    FleetKeepsOrder(cfg, f, acts);
  }

  /**
    And if its workers finish within the reclaim time, no entry is finished twice, by whichever of them and however
    often it was delivered.
   */
  lemma EntryFinishedOnce(cfg: Config, f: Fleet, acts: seq<Act>, b: nat, c: nat)
    requires Live(cfg, f.world) && AtRest(f) && f.world.completed == [] && OwnHands(acts)
    requires var g := FleetRun(cfg, f, acts);
             WithinLease(cfg, g.world) && b < c < |g.world.completed|
    ensures var g := FleetRun(cfg, f, acts);
            g.world.completed[b].id != g.world.completed[c].id
  {
    hide FleetRun, AtRest, OwnHands, Live, WithinLease;
    var g := FleetRun(cfg, f, acts);
    RestIsManned(cfg, f);
    var _ := FleetIsRun(cfg, f, acts);
    DeliveryFinishedOnce(cfg, f, acts, b, c);
    if g.world.completed[b].id == g.world.completed[c].id {
      FinishedFromOneDelivery(cfg, g.world, b, c);
    }
  }
}
