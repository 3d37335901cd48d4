/**
  The risk worker as an object: its cursor, its claim clock, its counters, and the loop that drives them. Between
  any two of its commands it lets everybody else act.
 */
module Workers {
  import opened Protocol
  import opened Cycle
  import opened Store
  import Fleets

  class Worker {
    const redis: Redis
    const cfg: Config
    const owner: string
    var cursor: nat
    var lastClaim: int
    var ready: bool
    var errors: nat
    var reclaimed: nat
    var decisions: nat
    var duplicates: nat
    var dead: nat
    ghost var failures: nat   // negative replies; main.rs only logs them

    ghost function Recall(): Memory
      reads this
    {
      Memory(cursor, lastClaim, ready, errors, reclaimed, Tally(decisions, duplicates, dead, failures))
    }

    constructor (redis: Redis, cfg: Config, owner: string)
      ensures this.redis == redis && this.cfg == cfg && this.owner == owner
      ensures Recall() == Fleets.Fresh(redis.now)
      ensures cursor == 0 && lastClaim + 1000 <= redis.now && !ready
      ensures decisions == duplicates == dead == errors == reclaimed == 0
    {
      this.redis, this.cfg, this.owner := redis, cfg, owner;
      cursor, lastClaim, ready, errors, reclaimed := 0, redis.now - 2000, false, 0, 0;
      decisions, duplicates, dead, failures := 0, 0, 0, 0;
    }

    ghost function Tallied(): Tally
      reads this
    {
      Tally(decisions, duplicates, dead, failures)
    }

    /** Counts one reply; the result says whether the script failed. */
    method CountOne(code: int, isDead: bool) returns (failed: bool)
      modifies this`decisions, this`duplicates, this`dead, this`failures
      ensures Tallied() == old(Tallied()).Plus(CountOf(code, isDead))
      ensures failed <==> code < 0
    {
      failed := code < 0;
      if failed {
        failures := failures + 1;
      } else if code == 0 {
        duplicates := duplicates + 1;
      } else if isDead {
        dead := dead + 1;
      } else {
        decisions := decisions + 1;
      }
    }

    /** Adds the replies of an answered pipeline to the counters; the result says whether any script failed. */
    method Count(codes: seq<int>, flags: seq<bool>) returns (failed: bool)
      requires |codes| == |flags|
      modifies this`decisions, this`duplicates, this`dead, this`failures
      ensures Tallied() == old(Tallied()).Plus(CountAll(codes, flags))
      ensures failed <==> CountAll(codes, flags).failures > 0
    {
      hide CountAll, CountOf;
      failed := false;
      CountNone();
      for i := 0 to |codes|
        invariant Tallied() == old(Tallied()).Plus(CountAll(codes[..i], flags[..i]))
        invariant failed <==> CountAll(codes[..i], flags[..i]).failures > 0
      {
        CountStep(codes, flags, i);
        var bad := CountOne(codes[i], flags[i]);
        failed := failed || bad;
      }
      assert codes[..|codes|] == codes && flags[..|codes|] == flags;
    }

    lemma CountNone()
      ensures CountAll([], []) == Tally(0, 0, 0, 0)
    {
    }

    lemma CountStep(codes: seq<int>, flags: seq<bool>, i: nat)
      requires |codes| == |flags| && i < |codes|
      ensures CountAll(codes[..i + 1], flags[..i + 1]) ==
              CountAll(codes[..i], flags[..i]).Plus(CountOf(codes[i], flags[i]))
      ensures CountOf(codes[i], flags[i]).failures == if codes[i] < 0 then 1 else 0
    {
      assert codes[..i + 1][..i] == codes[..i] && flags[..i + 1][..i] == flags[..i];
    }

    /** The arguments of one script per entry, and which of them go to the dead-letter stream. */
    method Prepare(batch: seq<Held>) returns (asks: seq<Ask>, dead: seq<bool>)
      ensures |asks| == |batch| && forall i :: 0 <= i < |batch| ==> asks[i] == AskFor(cfg, batch[i].id, batch[i].entry)
      ensures dead == DeadFlags(cfg, batch)
    {
      asks, dead := [], [];
      for i := 0 to |batch|
        invariant |asks| == i && |dead| == i
        invariant forall j :: 0 <= j < i ==>
                    asks[j] == AskFor(cfg, batch[j].id, batch[j].entry) && dead[j] == asks[j].dead
      {
        var ask := AskFor(cfg, batch[i].id, batch[i].entry);
        asks := asks + [ask];
        dead := dead + [ask.dead];
      }
    }

    /** The first n scripts of a pipeline in the order they were sent, each when it gets to Redis. */
    method Pipeline(batch: seq<Held>, asks: seq<Ask>, n: nat, pipe: Pipe, ghost ticket: nat) returns (codes: seq<int>)
      requires n <= |asks| == |batch|
      requires forall i :: 0 <= i < |batch| ==> asks[i] == AskFor(cfg, batch[i].id, batch[i].entry)
      modifies redis
      ensures PipeOutcome(redis.View(), codes) == RunPipe(cfg, old(redis.View()), batch[..n], ticket, pipe)
    {
      hide FinishAsk, AskFor, Run, RunPipe, OthersAt, FaultAt;
      codes := [];
      PipeNone(old(redis.View()), ticket, pipe);
      assert batch[..0] == [];
      for i := 0 to n
        invariant PipeOutcome(redis.View(), codes) == RunPipe(cfg, old(redis.View()), batch[..i], ticket, pipe)
      {
        assert batch[..i + 1][..i] == batch[..i] && batch[..i + 1][i] == batch[i];
        PipeLast(cfg, old(redis.View()), batch[..i + 1], ticket, pipe);
        redis.Others(cfg, OthersAt(pipe.others, i));
        var code := redis.FinishScript(cfg, asks[i], FaultAt(pipe.faults, i), ticket + i);
        codes := codes + [code];
      }
    }

    lemma PipeNone(w: World, ticket: nat, pipe: Pipe)
      ensures RunPipe(cfg, w, [], ticket, pipe) == PipeOutcome(w, [])
    {
    }

    method ProcessBatch(batch: seq<Held>, pipe: Pipe, ghost ticket: nat) returns (ok: bool)
      modifies this`decisions, this`duplicates, this`dead, this`failures, redis
      ensures var o := Cycle.ProcessBatch(cfg, old(redis.View()), batch, ticket, pipe);
              && redis.View() == o.world && ok == o.ok
              && Tallied() == old(Tallied()).Plus(o.tally)
    {
      hide RunPipe, AskFor, CountAll, Run, OthersAt;
      if batch == [] {
        return true;
      }
      var asks, flags := Prepare(batch);
      var n := Executed(batch, pipe);
      var codes := Pipeline(batch, asks, n, pipe, ticket);
      if !pipe.answered {
        return false;
      }
      assert batch[..n] == batch;
      CodesPerEntry(cfg, old(redis.View()), batch, ticket, pipe);
      redis.Others(cfg, OthersAt(pipe.others, n));
      var failed := Count(codes, flags);
      return !failed;
    }

    /** The claiming part of a cycle. */
    method ClaimRound(weather: Weather) returns (ok: bool)
      modifies this, redis
      ensures RoundOutcome(redis.View(), Recall(), ok) ==
              Cycle.ClaimRound(cfg, old(redis.View()), owner, old(Recall()), weather)
    {
      hide Cycle.ProcessBatch, ClaimIds, Holding, AutoClaim;
      if redis.now - lastClaim < CLAIM_PERIOD {
        return true;
      }
      if weather.claim == Unsent {
        return false;
      }
      ghost var ticket := |redis.delivered|;
      var reply := redis.ClaimIdle(cfg, owner, cursor, cfg.batch);
      if reply.None? {
        NoGroupNoClaim(old(redis.View()));
        return false;
      }
      if weather.claim == ReplyLost {
        return false;
      }
      var (batch, next, count) := reply.value;
      cursor := next;
      reclaimed := reclaimed + count;
      ok := ProcessBatch(batch, weather.claimPipe, ticket);
      if !ok {
        return false;
      }
      lastClaim := redis.now;
    }

    lemma NoGroupNoClaim(w: World)
      requires w.group.None?
      ensures AutoClaim(cfg, w, owner, cursor, cfg.batch) == w
    {
    }

    /** The reading part of a cycle. */
    method ReadRound(weather: Weather) returns (ok: bool)
      modifies this, redis
      ensures RoundOutcome(redis.View(), Recall(), ok) ==
              Cycle.ReadRound(cfg, old(redis.View()), owner, old(Recall()), weather)
    {
      if weather.read == Unsent {
        return false;
      }
      ghost var ticket := |redis.delivered|;
      var batch := redis.ReadNew(owner, cfg.batch);
      if batch.None? || weather.read == ReplyLost {
        return false;
      }
      ok := ProcessBatch(batch.value, weather.readPipe, ticket);
    }

    /** One turn of the consume loop. */
    method RunCycle(weather: Weather) returns (ok: bool)
      modifies this, redis
      ensures RoundOutcome(redis.View(), Recall(), ok) == Round(cfg, old(redis.View()), owner, old(Recall()), weather)
    {
      hide Cycle.ClaimRound, Cycle.ReadRound, Run;
      ok := ClaimRound(weather);
      if ok {
        redis.Others(cfg, weather.beforeRead);
        ok := ReadRound(weather);
      }
      if ok {
        ready := true;
      } else {
        ready := false;
        errors := errors + 1;
        redis.Others(cfg, weather.beforeRegroup);
        if weather.regroup != Unsent {
          var _ := redis.CreateGroup();
        }
      }
    }

    /** The consume loop, one turn for each element of days, until it is told to stop. */
    method Consume(days: seq<Day>)
      modifies this, redis
      ensures var o := Rounds(cfg, old(redis.View()), owner, old(Recall()), days);
              redis.View() == o.world && Recall() == o.memory.(ready := false)
    {
      hide Round, Run;
      for i := 0 to |days|
        invariant var o := Rounds(cfg, old(redis.View()), owner, old(Recall()), days[..i]);
                  redis.View() == o.world && Recall() == o.memory
      {
        assert days[..i + 1][..i] == days[..i];
        redis.Others(cfg, days[i].before);
        var _ := RunCycle(days[i].weather);
      }
      assert days[..|days|] == days;
      ready := false;
    }
  }
}
