/**
  Any number of workers at once, each with its own memory and its own place in the consume loop. Their commands and
  scripts interleave one by one with each other, with the gateways, with the clock and with anything else. This
  file shows that all of it is a run of the protocol, and that the loop of Cycle.Round is a schedule of it.
 */
module Fleets {
  import opened Protocol
  import opened Ledger
  import opened Refinement
  import opened Safety
  import opened Cycle

  // ----------------------------------------------------------------------------------------------
  // Workers
  // ----------------------------------------------------------------------------------------------

  /**
    Where a worker is in its loop; codes are the answers Redis has given to the scripts of a batch so far. Late is a
    pipeline whose worker has gone on without it, while its scripts are still on their way.
   */
  datatype Stage =
    | AtClaim
    | AtRead
    | Sending(batch: seq<Held>, ticket: nat, codes: seq<int>, claiming: bool)
    | AtFailure
    | Late(batch: seq<Held>, ticket: nat, codes: seq<int>)

  /** A worker, or what is left of a pipeline it has abandoned. */
  datatype Hand = Hand(owner: string, memory: Memory, stage: Stage)

  datatype Fleet = Fleet(world: World, hands: seq<Hand>)

  /**
    What one worker can do next. It can give up on a pipeline at any point, of which then nothing more arrives, and
    it can be restarted.
   */
  datatype Action =
    | ClaimNext(link: Link)
    | ReadNext(link: Link)
    | SendScript(fault: Fault)
    | HearReply
    | GiveUp
    | Regroup(link: Link)
    | Restart

  /**
    An action of a worker, or a step of anybody else, or a worker going on without a pipeline whose remaining scripts
    still arrive some time later.
   */
  datatype Act = Outside(step: Step) | Work(k: nat, action: Action) | Abandon(k: nat)

  datatype Turn = Turn(world: World, hand: Hand)

  /** What a worker that has just started remembers. */
  function Fresh(now: nat): Memory { Memory(0, now - 2000, false, 0, 0, Tally(0, 0, 0, 0)) }

  /** A worker starts at the lowest entry, with nothing counted, and finds its first claim due at once. */
  lemma FreshStarts(now: nat)
    ensures Fresh(now).cursor == 0 && Fresh(now).lastClaim + 1000 <= now
    ensures !Fresh(now).ready && Fresh(now).errors == 0 && Fresh(now).reclaimed == 0
    ensures Fresh(now).tally == Tally(0, 0, 0, 0)
  {
  }

  /** The start of the failure branch. */
  function Failed(h: Hand): Hand {
    h.(memory := h.memory.(ready := false, errors := h.memory.errors + 1), stage := AtFailure)
  }

  /** After a batch: on to the read or to the next round, or to the failure branch. */
  function Processed(h: Hand, now: nat, claiming: bool, ok: bool): Hand {
    if !ok then Failed(h)
    else if claiming then h.(memory := h.memory.(lastClaim := now), stage := AtRead)
    else h.(memory := h.memory.(ready := true), stage := AtClaim)
  }

  /** A reply with entries starts a pipeline; an empty one is done with. */
  function Received(h: Hand, now: nat, batch: seq<Held>, ticket: nat, claiming: bool): Hand {
    if batch == [] then Processed(h, now, claiming, true) else h.(stage := Sending(batch, ticket, [], claiming))
  }

  function MakeClaim(cfg: Config, w: World, h: Hand, link: Link): Turn {
    if !ClaimDue(w, h.memory) then Turn(w, h.(stage := AtRead))
    else if link == Unsent || w.group.None? then Turn(w, Failed(h))
    else
      var scan := ClaimIds(cfg, w, h.memory.cursor, cfg.batch);
      var claimed := AutoClaim(cfg, w, h.owner, h.memory.cursor, cfg.batch);
      if link == ReplyLost then Turn(claimed, Failed(h))
      else
        var me := h.memory.(cursor := scan.next, reclaimed := h.memory.reclaimed + |scan.claimed|);
        Turn(claimed, Received(h.(memory := me), claimed.now, Holding(w.stream, scan.claimed), |w.delivered|, true))
  }

  function MakeRead(cfg: Config, w: World, h: Hand, link: Link): Turn {
    if link == Unsent || w.group.None? then Turn(w, Failed(h))
    else
      var read := ReadGroup(w, h.owner, cfg.batch);
      if link == ReplyLost then Turn(read, Failed(h))
      else Turn(read, Received(h, read.now, Holding(w.stream, ReadIds(w, cfg.batch)), |w.delivered|, false))
  }

  /** Some script of a pipeline has not run yet. */
  predicate ToSend(stage: Stage) { (stage.Sending? || stage.Late?) && |stage.codes| < |stage.batch| }

  function RunScript(cfg: Config, w: World, h: Hand, fault: Fault): Turn
    requires ToSend(h.stage)
  {
    var n := |h.stage.codes|;
    var held := h.stage.batch[n];
    var done := FinishAsk(cfg, w, h.stage.ticket + n, AskFor(cfg, held.id, held.entry), fault);
    Turn(done.world, h.(stage := h.stage.(codes := h.stage.codes + [done.code])))
  }

  function Hear(cfg: Config, w: World, h: Hand): Turn
    requires h.stage.Sending? && |h.stage.codes| == |h.stage.batch|
  {
    var tally := CountAll(h.stage.codes, DeadFlags(cfg, h.stage.batch));
    var counted := h.(memory := h.memory.(tally := h.memory.tally.Plus(tally)));
    Turn(w, Processed(counted, w.now, h.stage.claiming, tally.failures == 0))
  }

  function Recreate(w: World, h: Hand, link: Link): Turn {
    Turn(if link == Unsent then w else EnsureGroup(w), h.(stage := AtClaim))
  }

  /** One action of a worker; one that does not fit where the worker is does nothing. */
  function Go(cfg: Config, w: World, h: Hand, action: Action): Turn {
    match action
    case ClaimNext(link) => if h.stage.AtClaim? then MakeClaim(cfg, w, h, link) else Turn(w, h)
    case ReadNext(link) => if h.stage.AtRead? then MakeRead(cfg, w, h, link) else Turn(w, h)
    case SendScript(fault) => if ToSend(h.stage) then RunScript(cfg, w, h, fault) else Turn(w, h)
    case HearReply =>
      if h.stage.Sending? && |h.stage.codes| == |h.stage.batch| then Hear(cfg, w, h) else Turn(w, h)
    case GiveUp => Turn(w, if h.stage.Sending? then Failed(h) else h)
    case Regroup(link) => if h.stage.AtFailure? then Recreate(w, h, link) else Turn(w, h)
    case Restart => Turn(w, if h.stage.Late? then h else Hand(h.owner, Fresh(w.now), AtClaim))
  }

  /** What stays behind of an abandoned pipeline. */
  function Leftover(h: Hand, now: nat): Hand
    requires h.stage.Sending?
  {
    Hand(h.owner, Fresh(now), Late(h.stage.batch, h.stage.ticket, h.stage.codes))
  }

  function FleetNext(cfg: Config, f: Fleet, act: Act): Fleet {
    match act
    case Outside(step) => f.(world := Next(cfg, f.world, step))
    case Work(k, action) =>
      if k >= |f.hands| then f
      else
        var turn := Go(cfg, f.world, f.hands[k], action);
        Fleet(turn.world, f.hands[k := turn.hand])
    case Abandon(k) =>
      if k >= |f.hands| || !f.hands[k].stage.Sending? then f
      else f.(hands := f.hands[k := Failed(f.hands[k])] + [Leftover(f.hands[k], f.world.now)])
  }

  function FleetRun(cfg: Config, f: Fleet, acts: seq<Act>): Fleet {
    if acts == [] then f else FleetNext(cfg, FleetRun(cfg, f, acts[..|acts| - 1]), acts[|acts| - 1])
  }

  lemma {:induction false} FleetConcat(cfg: Config, f: Fleet, first: seq<Act>, second: seq<Act>)
    ensures FleetRun(cfg, f, first + second) == FleetRun(cfg, FleetRun(cfg, f, first), second)
    decreases |second|
  {
    if second == [] {
      assert first + second == first;
    } else {
      hide FleetNext;
      var n := |second| - 1;
      assert (first + second)[..|first + second| - 1] == first + second[..n];
      FleetConcat(cfg, f, first, second[..n]);
    }
  }

  lemma FleetOne(cfg: Config, f: Fleet, act: Act)
    ensures FleetRun(cfg, f, [act]) == FleetNext(cfg, f, act)
  {
    hide FleetNext;
    assert [act][..0] == [];
    assert FleetRun(cfg, f, []) == f;
  }

  /** One more act at the end. */
  lemma FleetMore(cfg: Config, f: Fleet, acts: seq<Act>, act: Act)
    ensures FleetRun(cfg, f, acts + [act]) == FleetNext(cfg, FleetRun(cfg, f, acts), act)
  {
    hide FleetNext, FleetRun;
    FleetConcat(cfg, f, acts, [act]);
    FleetOne(cfg, FleetRun(cfg, f, acts), act);
  }

  // ----------------------------------------------------------------------------------------------
  // A fleet runs the protocol
  // ----------------------------------------------------------------------------------------------

  /** The deliveries from ticket on are those of the batch, and the batch holds what was appended. */
  ghost predicate Ticketed(w: World, batch: seq<Held>, ticket: nat) {
    && ticket + |batch| <= |w.delivered|
    && forall i :: 0 <= i < |batch| ==>
         && w.delivered[ticket + i].id == batch[i].id
         && batch[i].id in w.appended && w.appended[batch[i].id].Content() == batch[i].entry
  }

  ghost predicate HandFits(w: World, h: Hand) {
    h.stage.Sending? || h.stage.Late? ==>
      |h.stage.codes| <= |h.stage.batch| && Ticketed(w, h.stage.batch, h.stage.ticket)
  }

  /** A reachable store, and every worker with a pipeline under way holds entries that were delivered to it. */
  ghost predicate Manned(cfg: Config, f: Fleet) {
    Live(cfg, f.world) && forall k :: 0 <= k < |f.hands| ==> HandFits(f.world, f.hands[k])
  }

  lemma HeldIsStep(cfg: Config, w: World, held: Held, ticket: nat, fault: Fault)
    requires ticket < |w.delivered| && w.delivered[ticket].id == held.id
    requires held.id in w.appended && w.appended[held.id].Content() == held.entry
    ensures Next(cfg, w, Complete(ticket, fault)) ==
            FinishAsk(cfg, w, ticket, AskFor(cfg, held.id, held.entry), fault).world
  {
    hide FinishAsk, AskFor;
  }

  lemma DeliveredGrows(cfg: Config, w: World, step: Step)
    ensures w.delivered <= Next(cfg, w, step).delivered
  {
    hide AskFor, ClaimIds, ReadIds;
  }

  lemma {:induction false} RunDelivers(cfg: Config, w: World, steps: seq<Step>)
    ensures w.delivered <= Run(cfg, w, steps).delivered
  {
    if steps == [] {
    } else {
      hide Next;
      RunDelivers(cfg, w, steps[..|steps| - 1]);
      DeliveredGrows(cfg, Run(cfg, w, steps[..|steps| - 1]), steps[|steps| - 1]);
    }
  }

  /** What a worker holds stays what was delivered to it, whatever happens meanwhile. */
  lemma FitsStill(cfg: Config, w: World, steps: seq<Step>, h: Hand)
    requires Live(cfg, w) && HandFits(w, h)
    ensures HandFits(Run(cfg, w, steps), h)
  {
    hide Live, Run;
    RunDelivers(cfg, w, steps);
    HistoryGrows(cfg, w, steps);
  }

  lemma HoldsDelivered(w: World, ids: seq<nat>, owner: string)
    requires Balanced(Abs(w)) && forall id :: id in ids ==> id in w.stream
    ensures Ticketed(Deliver(w, ids, owner), Holding(w.stream, ids), |w.delivered|)
  {
    var v := Deliver(w, ids, owner);
    forall i | 0 <= i < |ids|
      ensures v.delivered[|w.delivered| + i].id == ids[i]
      ensures ids[i] in w.appended && w.appended[ids[i]].Content() == w.stream[ids[i]]
    {
      assert ids[i] in Abs(w).unfinished;
    }
  }

  lemma ReceivedFits(w: World, h: Hand, now: nat, batch: seq<Held>, ticket: nat, claiming: bool)
    requires Ticketed(w, batch, ticket)
    ensures HandFits(w, Received(h, now, batch, ticket, claiming))
  {
  }

  lemma ClaimIsRun(cfg: Config, w: World, h: Hand, link: Link) returns (steps: seq<Step>)
    requires Live(cfg, w)
    ensures MakeClaim(cfg, w, h, link).world == Run(cfg, w, steps)
    ensures HandFits(MakeClaim(cfg, w, h, link).world, MakeClaim(cfg, w, h, link).hand)
  {
    hide Live, ClaimIds, Holding, Ticketed, Received, Conserved, Balanced;
    if !ClaimDue(w, h.memory) || link == Unsent || w.group.None? {
      steps := [];
    } else {
      var claim := Claim(h.owner, h.memory.cursor, cfg.batch);
      var ids := ClaimIds(cfg, w, h.memory.cursor, cfg.batch).claimed;
      RunOne(cfg, w, claim);
      steps := [claim];
      Shape(cfg, w);
      ClaimedInStream(cfg, w, h.memory.cursor);
      HoldsDelivered(w, ids, h.owner);
      if link == Answered {
        var turn := MakeClaim(cfg, w, h, link);
        var scan := ClaimIds(cfg, w, h.memory.cursor, cfg.batch);
        var me := h.memory.(cursor := scan.next, reclaimed := h.memory.reclaimed + |scan.claimed|);
        ReceivedFits(turn.world, h.(memory := me), turn.world.now, Holding(w.stream, ids), |w.delivered|, true);
      }
    }
  }

  lemma ReadIsRun(cfg: Config, w: World, h: Hand, link: Link) returns (steps: seq<Step>)
    requires Live(cfg, w)
    ensures MakeRead(cfg, w, h, link).world == Run(cfg, w, steps)
    ensures HandFits(MakeRead(cfg, w, h, link).world, MakeRead(cfg, w, h, link).hand)
  {
    hide Live, ReadIds, Holding, Ticketed, Received, Conserved, Balanced;
    if link == Unsent || w.group.None? {
      steps := [];
    } else {
      var read := Read(h.owner, cfg.batch);
      var ids := ReadIds(w, cfg.batch);
      RunOne(cfg, w, read);
      steps := [read];
      Shape(cfg, w);
      ReadInStream(w, cfg.batch);
      HoldsDelivered(w, ids, h.owner);
      var v := ReadGroup(w, h.owner, cfg.batch);
      ReadHolds(w, h.owner, cfg.batch);
      if link == Answered {
        ReceivedFits(v, h, v.now, Holding(w.stream, ids), |w.delivered|, false);
      }
    }
  }

  lemma ReadHolds(w: World, owner: string, count: nat)
    requires w.group.Some? && Ticketed(Deliver(w, ReadIds(w, count), owner), Holding(w.stream, ReadIds(w, count)),
             |w.delivered|)
    ensures Ticketed(ReadGroup(w, owner, count), Holding(w.stream, ReadIds(w, count)), |w.delivered|)
  {
  }

  lemma ScriptIsRun(cfg: Config, w: World, h: Hand, fault: Fault) returns (steps: seq<Step>)
    requires Live(cfg, w) && HandFits(w, h) && ToSend(h.stage)
    ensures RunScript(cfg, w, h, fault).world == Run(cfg, w, steps)
    ensures HandFits(RunScript(cfg, w, h, fault).world, RunScript(cfg, w, h, fault).hand)
  {
    hide Live, FinishAsk, AskFor, Next, Run;
    var n := |h.stage.codes|;
    var script := Complete(h.stage.ticket + n, fault);
    HeldIsStep(cfg, w, h.stage.batch[n], h.stage.ticket + n, fault);
    RunOne(cfg, w, script);
    steps := [script];
    FitsStill(cfg, w, steps, h);
  }

  lemma RegroupIsRun(cfg: Config, w: World, h: Hand, link: Link) returns (steps: seq<Step>)
    ensures Recreate(w, h, link).world == Run(cfg, w, steps)
  {
    steps := if link == Unsent then [] else [CreateGroup];
    RunOne(cfg, w, CreateGroup);
  }

  lemma ActionIsRun(cfg: Config, w: World, h: Hand, action: Action) returns (steps: seq<Step>)
    requires Live(cfg, w) && HandFits(w, h)
    ensures Go(cfg, w, h, action).world == Run(cfg, w, steps)
    ensures HandFits(Go(cfg, w, h, action).world, Go(cfg, w, h, action).hand)
  {
    hide Live, MakeClaim, MakeRead, RunScript, Ticketed;
    steps := [];
    if action.ClaimNext? && h.stage.AtClaim? {
      steps := ClaimIsRun(cfg, w, h, action.link);
    } else if action.ReadNext? && h.stage.AtRead? {
      steps := ReadIsRun(cfg, w, h, action.link);
    } else if action.SendScript? && ToSend(h.stage) {
      steps := ScriptIsRun(cfg, w, h, action.fault);
    } else if action.Regroup? && h.stage.AtFailure? {
      steps := RegroupIsRun(cfg, w, h, action.link);
    }
  }

  lemma LeftoverFits(w: World, h: Hand, now: nat)
    requires HandFits(w, h) && h.stage.Sending?
    ensures HandFits(w, Failed(h)) && HandFits(w, Leftover(h, now))
  {
  }

  lemma ActIsRun(cfg: Config, f: Fleet, act: Act) returns (steps: seq<Step>)
    requires Manned(cfg, f)
    ensures FleetNext(cfg, f, act).world == Run(cfg, f.world, steps)
    ensures Manned(cfg, FleetNext(cfg, f, act))
  {
    hide Live, Go, HandFits, Next, Run;
    steps := [];
    assert Run(cfg, f.world, []) == f.world by { RunNothing(cfg, f.world); }
    if act.Outside? {
      RunOne(cfg, f.world, act.step);
      steps := [act.step];
    } else if act.Work? && act.k < |f.hands| {
      steps := ActionIsRun(cfg, f.world, f.hands[act.k], act.action);
    } else if act.Abandon? && act.k < |f.hands| && f.hands[act.k].stage.Sending? {
      LeftoverFits(f.world, f.hands[act.k], f.world.now);
    }
    RunsStayLive(cfg, f.world, steps);
    forall k | 0 <= k < |f.hands| ensures HandFits(Run(cfg, f.world, steps), f.hands[k]) {
      FitsStill(cfg, f.world, steps, f.hands[k]);
    }
  }

  lemma RunNothing(cfg: Config, w: World)
    ensures Run(cfg, w, []) == w
  {
  }

  /**
    Whatever a fleet does, interleaved in any way with anything, is a run of the atomic steps; so everything proved
    of runs holds of workers.
   */
  lemma {:induction false} FleetIsRun(cfg: Config, f: Fleet, acts: seq<Act>) returns (steps: seq<Step>)
    requires Manned(cfg, f)
    ensures FleetRun(cfg, f, acts).world == Run(cfg, f.world, steps)
    ensures Manned(cfg, FleetRun(cfg, f, acts))
  {
    hide Manned, FleetNext, Run;
    if acts == [] {
      steps := [];
      RunNothing(cfg, f.world);
    } else {
      var before := FleetIsRun(cfg, f, acts[..|acts| - 1]);
      var more := ActIsRun(cfg, FleetRun(cfg, f, acts[..|acts| - 1]), acts[|acts| - 1]);
      RunConcat(cfg, f.world, before, more);
      steps := before + more;
    }
  }

  // ----------------------------------------------------------------------------------------------
  // The consume loop is one of the things a fleet can do
  // ----------------------------------------------------------------------------------------------

  function Outsides(steps: seq<Step>): seq<Act> {
    if steps == [] then [] else Outsides(steps[..|steps| - 1]) + [Outside(steps[|steps| - 1])]
  }

  lemma {:induction false} OutsidesRun(cfg: Config, f: Fleet, steps: seq<Step>)
    ensures FleetRun(cfg, f, Outsides(steps)) == f.(world := Run(cfg, f.world, steps))
  {
    if steps == [] {
      RunNothing(cfg, f.world);
    } else {
      hide FleetRun, Next;
      var n := |steps| - 1;
      OutsidesRun(cfg, f, steps[..n]);
      FleetMore(cfg, f, Outsides(steps[..n]), Outside(steps[n]));
    }
  }

  /** f with its store in state w and worker k as h. */
  function Put(f: Fleet, k: nat, w: World, h: Hand): Fleet
    requires k < |f.hands|
  {
    Fleet(w, f.hands[k := h])
  }

  /** First the others, then one action of worker k. */
  function OthersThen(others: seq<Step>, k: nat, action: Action): seq<Act> { Outsides(others) + [Work(k, action)] }

  lemma OthersThenAction(cfg: Config, f: Fleet, k: nat, others: seq<Step>, action: Action)
    requires k < |f.hands|
    ensures var turn := Go(cfg, Run(cfg, f.world, others), f.hands[k], action);
            FleetRun(cfg, f, OthersThen(others, k, action)) == Put(f, k, turn.world, turn.hand)
  {
    hide FleetRun, Go, Run;
    OutsidesRun(cfg, f, others);
    FleetMore(cfg, f, Outsides(others), Work(k, action));
  }

  function Underway(h: Hand, batch: seq<Held>, ticket: nat, codes: seq<int>, claiming: bool): Hand {
    h.(stage := Sending(batch, ticket, codes, claiming))
  }

  lemma SendsNext(cfg: Config, w: World, h: Hand, batch: seq<Held>, ticket: nat, codes: seq<int>, claiming: bool,
      fault: Fault)
    requires |codes| < |batch|
    ensures var n := |codes|;
            var done := FinishAsk(cfg, w, ticket + n, AskFor(cfg, batch[n].id, batch[n].entry), fault);
            Go(cfg, w, Underway(h, batch, ticket, codes, claiming), SendScript(fault)) ==
            Turn(done.world, Underway(h, batch, ticket, codes + [done.code], claiming))
  {
    hide FinishAsk, AskFor;
  }

  /** One more script of a pipeline, after the others. */
  lemma ScriptSchedule(
    cfg: Config, f: Fleet, k: nat, w: World, batch: seq<Held>, ticket: nat, claiming: bool, pipe: Pipe, n: nat)
    requires k < |f.hands| && n < |batch|
    requires var before := RunPipe(cfg, w, batch[..n], ticket, pipe);
             && |before.codes| == n && f.world == before.world
             && f.hands[k] == Underway(f.hands[k], batch, ticket, before.codes, claiming)
    ensures var piped := RunPipe(cfg, w, batch[..n + 1], ticket, pipe);
            && |piped.codes| == n + 1
            && FleetRun(cfg, f, OthersThen(OthersAt(pipe.others, n), k, SendScript(FaultAt(pipe.faults, n)))) ==
               Put(f, k, piped.world, Underway(f.hands[k], batch, ticket, piped.codes, claiming))
  {
    hide FleetRun, Run, FinishAsk, AskFor, RunPipe, Go, OthersThen, OthersAt, FaultAt;
    var part := batch[..n + 1];
    assert part[..n] == batch[..n] && part[n] == batch[n];
    PipeLast(cfg, w, part, ticket, pipe);
    var others, fault := OthersAt(pipe.others, n), FaultAt(pipe.faults, n);
    var codes := RunPipe(cfg, w, batch[..n], ticket, pipe).codes;
    SendsNext(cfg, Run(cfg, f.world, others), f.hands[k], batch, ticket, codes, claiming, fault);
    OthersThenAction(cfg, f, k, others, SendScript(fault));
  }

  /** Sending more of the same pipeline. */
  lemma PutUnderway(
    f: Fleet, k: nat, w: World, batch: seq<Held>, ticket: nat, codes: seq<int>, o: PipeOutcome, claiming: bool)
    requires k < |f.hands|
    ensures var g := Put(f, k, w, Underway(f.hands[k], batch, ticket, codes, claiming));
            && g.world == w && |g.hands| == |f.hands|
            && g.hands[k] == Underway(g.hands[k], batch, ticket, codes, claiming)
            && Put(g, k, o.world, Underway(g.hands[k], batch, ticket, o.codes, claiming)) ==
               Put(f, k, o.world, Underway(f.hands[k], batch, ticket, o.codes, claiming))
  {
  }

  /** g is f after the first n scripts of a pipeline of worker k. */
  ghost predicate Piped(
    cfg: Config, f: Fleet, g: Fleet, k: nat, batch: seq<Held>, ticket: nat, claiming: bool, pipe: Pipe, n: nat)
    requires k < |f.hands| && n <= |batch|
  {
    var piped := RunPipe(cfg, f.world, batch[..n], ticket, pipe);
    && |piped.codes| == n
    && g == Put(f, k, piped.world, Underway(f.hands[k], batch, ticket, piped.codes, claiming))
  }

  lemma PipedNone(
    cfg: Config, f: Fleet, k: nat, batch: seq<Held>, ticket: nat, claiming: bool, pipe: Pipe)
    requires k < |f.hands| && f.hands[k] == Underway(f.hands[k], batch, ticket, [], claiming)
    ensures Piped(cfg, f, f, k, batch, ticket, claiming, pipe, 0)
  {
    assert batch[..0] == [];
    assert f.hands[k := f.hands[k]] == f.hands;
  }

  lemma PipedMore(
    cfg: Config, f: Fleet, g: Fleet, k: nat, batch: seq<Held>, ticket: nat, claiming: bool, pipe: Pipe, n: nat)
    requires k < |f.hands| && n < |batch|
    requires Piped(cfg, f, g, k, batch, ticket, claiming, pipe, n)
    ensures var more := OthersThen(OthersAt(pipe.others, n), k, SendScript(FaultAt(pipe.faults, n)));
            Piped(cfg, f, FleetRun(cfg, g, more), k, batch, ticket, claiming, pipe, n + 1)
  {
    hide FleetRun, RunPipe, OthersThen, OthersAt, FaultAt, Put, Underway;
    var codes := RunPipe(cfg, f.world, batch[..n], ticket, pipe).codes;
    PutUnderway(f, k, g.world, batch, ticket, codes, RunPipe(cfg, f.world, batch[..n + 1], ticket, pipe), claiming);
    PutWorld(f, k, RunPipe(cfg, f.world, batch[..n], ticket, pipe).world,
        Underway(f.hands[k], batch, ticket, codes, claiming));
    ScriptSchedule(cfg, g, k, f.world, batch, ticket, claiming, pipe, n);
  }

  lemma PutWorld(f: Fleet, k: nat, w: World, h: Hand)
    requires k < |f.hands|
    ensures Put(f, k, w, h).world == w
  {
  }

  lemma {:induction false} PipeSchedule(
    cfg: Config, f: Fleet, k: nat, batch: seq<Held>, ticket: nat, claiming: bool, pipe: Pipe, n: nat)
    returns (acts: seq<Act>)
    requires k < |f.hands| && n <= |batch|
    requires f.hands[k] == Underway(f.hands[k], batch, ticket, [], claiming)
    ensures Piped(cfg, f, FleetRun(cfg, f, acts), k, batch, ticket, claiming, pipe, n)
    decreases n
  {
    hide FleetRun, Piped, Underway;
    if n == 0 {
      acts := [];
      FleetNothing(cfg, f);
      PipedNone(cfg, f, k, batch, ticket, claiming, pipe);
    } else {
      var before := PipeSchedule(cfg, f, k, batch, ticket, claiming, pipe, n - 1);
      PipedMore(cfg, f, FleetRun(cfg, f, before), k, batch, ticket, claiming, pipe, n - 1);
      var more := OthersThen(OthersAt(pipe.others, n - 1), k, SendScript(FaultAt(pipe.faults, n - 1)));
      FleetConcat(cfg, f, before, more);
      acts := before + more;
    }
  }

  /** Where process_batch leaves a worker. */
  function AfterBatch(h: Hand, o: BatchOutcome, claiming: bool): Hand {
    Processed(h.(memory := h.memory.(tally := h.memory.tally.Plus(o.tally))), o.world.now, claiming, o.ok)
  }

  lemma BatchSchedule(cfg: Config, f: Fleet, k: nat, h: Hand, batch: seq<Held>, ticket: nat, claiming: bool, pipe: Pipe)
    returns (acts: seq<Act>)
    requires k < |f.hands| && f.hands[k] == Received(h, f.world.now, batch, ticket, claiming)
    ensures var o := ProcessBatch(cfg, f.world, batch, ticket, pipe);
            FleetRun(cfg, f, acts) == Put(f, k, o.world, AfterBatch(h, o, claiming))
  {
    hide FleetRun, Run, RunPipe, CountAll, DeadFlags;
    if batch == [] {
      acts := [];
      assert FleetRun(cfg, f, []) == f by { FleetNothing(cfg, f); }
      assert f.hands[k := f.hands[k]] == f.hands;
    } else {
      var n := Executed(batch, pipe);
      var piped := PipeSchedule(cfg, f, k, batch, ticket, claiming, pipe, n);
      var g := FleetRun(cfg, f, piped);
      var last := if pipe.answered then HearReply else GiveUp;
      var others := if pipe.answered then OthersAt(pipe.others, n) else [];
      RunNothing(cfg, g.world);
      OthersThenAction(cfg, g, k, others, last);
      FleetConcat(cfg, f, piped, OthersThen(others, k, last));
      acts := piped + OthersThen(others, k, last);
      assert batch[..|batch|] == batch;
    }
  }

  lemma FleetNothing(cfg: Config, f: Fleet)
    ensures FleetRun(cfg, f, []) == f
  {
  }

  /** Where a part of the round leaves a worker. */
  function After(owner: string, o: RoundOutcome, stage: Stage): Hand {
    if o.ok then Hand(owner, o.memory, stage) else Failed(Hand(owner, o.memory, AtFailure))
  }

  lemma ClaimSchedule(cfg: Config, f: Fleet, k: nat, weather: Weather) returns (acts: seq<Act>)
    requires k < |f.hands| && f.hands[k].stage.AtClaim?
    ensures var h := f.hands[k];
            var o := ClaimRound(cfg, f.world, h.owner, h.memory, weather);
            FleetRun(cfg, f, acts) == Put(f, k, o.world, After(h.owner, o, AtRead))
  {
    hide FleetRun, ProcessBatch, ClaimIds, AutoClaim, Holding;
    var h, w := f.hands[k], f.world;
    var claim := ClaimNext(weather.claim);
    FleetOne(cfg, f, Work(k, claim));
    acts := [Work(k, claim)];
    if ClaimDue(w, h.memory) && weather.claim == Answered && w.group.Some? {
      var scan := ClaimIds(cfg, w, h.memory.cursor, cfg.batch);
      var me := h.memory.(cursor := scan.next, reclaimed := h.memory.reclaimed + |scan.claimed|);
      var g := FleetRun(cfg, f, acts);
      var batch := Holding(w.stream, scan.claimed);
      var more := BatchSchedule(cfg, g, k, h.(memory := me), batch, |w.delivered|, true, weather.claimPipe);
      FleetConcat(cfg, f, acts, more);
      acts := acts + more;
    }
  }

  lemma ReadSchedule(cfg: Config, f: Fleet, k: nat, weather: Weather) returns (acts: seq<Act>)
    requires k < |f.hands| && f.hands[k].stage.AtRead?
    ensures var h := f.hands[k];
            var o := ReadRound(cfg, f.world, h.owner, h.memory, weather);
            var me := if o.ok then o.memory.(ready := true) else o.memory;
            FleetRun(cfg, f, acts) == Put(f, k, o.world, After(h.owner, o.(memory := me), AtClaim))
  {
    hide FleetRun, ProcessBatch, ReadIds, ReadGroup, Holding;
    var h, w := f.hands[k], f.world;
    var read := ReadNext(weather.read);
    FleetOne(cfg, f, Work(k, read));
    acts := [Work(k, read)];
    if weather.read == Answered && w.group.Some? {
      var g := FleetRun(cfg, f, acts);
      var batch := Holding(w.stream, ReadIds(w, cfg.batch));
      var more := BatchSchedule(cfg, g, k, h, batch, |w.delivered|, false, weather.readPipe);
      FleetConcat(cfg, f, acts, more);
      acts := acts + more;
    }
  }

  lemma RegroupSchedule(cfg: Config, f: Fleet, k: nat, weather: Weather) returns (acts: seq<Act>)
    requires k < |f.hands| && f.hands[k].stage.AtFailure?
    ensures var turn := Recreate(Run(cfg, f.world, weather.beforeRegroup), f.hands[k], weather.regroup);
            FleetRun(cfg, f, acts) == Put(f, k, turn.world, turn.hand)
  {
    hide FleetRun, Run;
    acts := OthersThen(weather.beforeRegroup, k, Regroup(weather.regroup));
    OthersThenAction(cfg, f, k, weather.beforeRegroup, Regroup(weather.regroup));
  }

  /**
    A round of the loop is a schedule of the fleet in which the worker makes its moves in order and everybody else
    does what the round's surroundings say.
   */
  lemma RoundSchedule(cfg: Config, f: Fleet, k: nat, weather: Weather) returns (acts: seq<Act>)
    requires k < |f.hands| && f.hands[k].stage.AtClaim?
    ensures var h := f.hands[k];
            var o := Round(cfg, f.world, h.owner, h.memory, weather);
            FleetRun(cfg, f, acts) == Put(f, k, o.world, Hand(h.owner, o.memory, AtClaim))
  {
    hide FleetRun, Run, ClaimRound, ReadRound;
    var h := f.hands[k];
    acts := ClaimSchedule(cfg, f, k, weather);
    var claim := ClaimRound(cfg, f.world, h.owner, h.memory, weather);
    var g := FleetRun(cfg, f, acts);
    var failed := claim;
    if claim.ok {
      var wait := Outsides(weather.beforeRead);
      OutsidesRun(cfg, g, weather.beforeRead);
      FleetConcat(cfg, f, acts, wait);
      acts := acts + wait;
      g := FleetRun(cfg, f, acts);
      failed := ReadRound(cfg, g.world, h.owner, claim.memory, weather);
      var read := ReadSchedule(cfg, g, k, weather);
      FleetConcat(cfg, f, acts, read);
      acts := acts + read;
      g := FleetRun(cfg, f, acts);
    }
    if !failed.ok {
      var regroup := RegroupSchedule(cfg, g, k, weather);
      FleetConcat(cfg, f, acts, regroup);
      acts := acts + regroup;
    }
  }

  /** And so is a worker's whole life. */
  lemma {:induction false} RoundsSchedule(cfg: Config, f: Fleet, k: nat, days: seq<Day>) returns (acts: seq<Act>)
    requires k < |f.hands| && f.hands[k].stage.AtClaim?
    ensures var h := f.hands[k];
            var o := Rounds(cfg, f.world, h.owner, h.memory, days);
            FleetRun(cfg, f, acts) == Put(f, k, o.world, Hand(h.owner, o.memory, AtClaim))
  {
    if days == [] {
      acts := [];
      FleetNothing(cfg, f);
      assert f.hands[k := f.hands[k]] == f.hands;
    } else {
      hide FleetRun, Run, Round;
      var n := |days| - 1;
      acts := RoundsSchedule(cfg, f, k, days[..n]);
      var wait := Outsides(days[n].before);
      OutsidesRun(cfg, FleetRun(cfg, f, acts), days[n].before);
      FleetConcat(cfg, f, acts, wait);
      acts := acts + wait;
      var round := RoundSchedule(cfg, FleetRun(cfg, f, acts), k, days[n].weather);
      FleetConcat(cfg, f, acts, round);
      acts := acts + round;
    }
  }

  lemma AloneManned(cfg: Config, w: World, owner: string, me: Memory)
    requires Live(cfg, w)
    ensures Manned(cfg, Fleet(w, [Hand(owner, me, AtClaim)]))
  {
  }

  /** Whatever the network, the clock and everybody else do, a round of the loop is a run of the atomic steps. */
  lemma RoundIsRun(cfg: Config, w: World, owner: string, me: Memory, weather: Weather) returns (steps: seq<Step>)
    requires Live(cfg, w)
    ensures Round(cfg, w, owner, me, weather).world == Run(cfg, w, steps)
    ensures Live(cfg, Round(cfg, w, owner, me, weather).world)
  {
    hide Live, Round, FleetRun, Run;
    var f := Fleet(w, [Hand(owner, me, AtClaim)]);
    AloneManned(cfg, w, owner, me);
    var acts := RoundSchedule(cfg, f, 0, weather);
    steps := FleetIsRun(cfg, f, acts);
    RunsStayLive(cfg, w, steps);
  }

  /** However long a worker runs and whatever happens around it, it only takes the store through protocol runs. */
  lemma RoundsStayLive(cfg: Config, w: World, owner: string, me: Memory, days: seq<Day>)
    requires Live(cfg, w)
    ensures Live(cfg, Rounds(cfg, w, owner, me, days).world)
  {
    hide Live, Rounds, FleetRun, Run;
    var f := Fleet(w, [Hand(owner, me, AtClaim)]);
    AloneManned(cfg, w, owner, me);
    var acts := RoundsSchedule(cfg, f, 0, days);
    var steps := FleetIsRun(cfg, f, acts);
    RunsStayLive(cfg, w, steps);
  }
}
