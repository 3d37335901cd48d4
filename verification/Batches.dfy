/**
  Batches of completion scripts: what sending one again does, and why the order in which overlapping batches of
  several workers reach Redis does not matter.
 */
module Batches {
  import opened Keys
  import opened Protocol

  /** One completion script that reaches Redis wait milliseconds after the previous one. */
  datatype Move = Move(wait: nat, ticket: nat, ask: Ask)

  function MoveOnce(cfg: Config, w: World, m: Move): World {
    FinishAsk(cfg, Tick(w, m.wait), m.ticket, m.ask, NoFault).world
  }

  function RunMoves(cfg: Config, w: World, moves: seq<Move>): World
    decreases |moves|
  {
    if moves == [] then w else RunMoves(cfg, MoveOnce(cfg, w, moves[0]), moves[1..])
  }

  function Duration(moves: seq<Move>): nat {
    if moves == [] then 0 else moves[0].wait + Duration(moves[1..])
  }

  function IdsOf(moves: seq<Move>): set<nat> { set m | m in moves :: m.ask.id }

  function KeysOf(moves: seq<Move>): set<string> { set m | m in moves :: m.ask.key }

  function AsksOf(moves: seq<Move>): set<Ask> { set m | m in moves :: m.ask }

  // ----------------------------------------------------------------------------------------------
  // The logs as a bag of lines
  // ----------------------------------------------------------------------------------------------

  datatype Line = Line(dead: bool, eventId: string, body: Body)

  function LineOf(ask: Ask): Line { Line(ask.dead, ask.eventId, ask.body) }

  /** The entries of one output stream through a view of their lines. */
  ghost function Lines<T>(view: Line -> T, ps: seq<Publication>, dead: bool): multiset<T> {
    if ps == [] then multiset{}
    else Lines(view, ps[..|ps| - 1], dead) + multiset{view(Line(dead, ps[|ps| - 1].eventId, ps[|ps| - 1].body))}
  }

  /** Everything both output streams carry, order and time aside, through a view. */
  ghost function LogLines<T>(view: Line -> T, w: World): multiset<T> {
    Lines(view, w.published, false) + Lines(view, w.rejected, true)
  }

  lemma PublishAddsLine<T>(view: Line -> T, w: World, ask: Ask)
    ensures LogLines(view, Publish(w, ask)) == LogLines(view, w) + multiset{view(LineOf(ask))}
  {
    var p := Publication(ask.id, ask.eventId, ask.body, w.now);
    assert (w.published + [p])[..|w.published|] == w.published;
    assert (w.rejected + [p])[..|w.rejected|] == w.rejected;
  }

  /** For each key in keys, the line of the first script in the list that uses it. */
  ghost function FirstLines<T>(view: Line -> T, keys: set<string>, moves: seq<Move>): multiset<T> {
    if moves == [] then multiset{}
    else if moves[0].ask.key in keys then
      multiset{view(LineOf(moves[0].ask))} + FirstLines(view, keys - {moves[0].ask.key}, moves[1..])
    else FirstLines(view, keys, moves[1..])
  }

  lemma {:induction false} FirstLinesAdd<T>(view: Line -> T, a: set<string>, b: set<string>, moves: seq<Move>)
    requires a !! b
    ensures FirstLines(view, a + b, moves) == FirstLines(view, a, moves) + FirstLines(view, b, moves)
  {
    if moves == [] {
    } else {
      var key := moves[0].ask.key;
      if key in a {
        FirstLinesAdd(view, a - {key}, b, moves[1..]);
        assert a + b - {key} == (a - {key}) + b;
      } else if key in b {
        FirstLinesAdd(view, a, b - {key}, moves[1..]);
        assert a + b - {key} == a + (b - {key});
      } else {
        FirstLinesAdd(view, a, b, moves[1..]);
      }
    }
  }

  lemma {:induction false} FirstLinesNone<T>(view: Line -> T, keys: set<string>, moves: seq<Move>)
    requires keys !! KeysOf(moves)
    ensures FirstLines(view, keys, moves) == multiset{}
  {
    if moves == [] {
    } else {
      assert moves[0] in moves;
      assert moves[0].ask.key in KeysOf(moves);
      assert KeysOf(moves[1..]) <= KeysOf(moves);
      FirstLinesNone(view, keys, moves[1..]);
    }
  }

  lemma {:induction false} FirstLinesSplit<T>(view: Line -> T, keys: set<string>, xs: seq<Move>, ys: seq<Move>)
    ensures FirstLines(view, keys, xs + ys) == FirstLines(view, keys, xs) + FirstLines(view, keys - KeysOf(xs), ys)
  {
    if xs == [] {
      assert xs + ys == ys && KeysOf(xs) == {} && keys - {} == keys;
    } else {
      var key := xs[0].ask.key;
      assert (xs + ys)[1..] == xs[1..] + ys;
      KeysOfCons(xs);
      if key in keys {
        FirstLinesSplit(view, keys - {key}, xs[1..], ys);
        assert keys - {key} - KeysOf(xs[1..]) == keys - KeysOf(xs);
      } else {
        FirstLinesSplit(view, keys, xs[1..], ys);
        assert keys - KeysOf(xs[1..]) == keys - KeysOf(xs);
      }
    }
  }

  lemma KeysOfCons(xs: seq<Move>)
    requires xs != []
    ensures KeysOf(xs) == {xs[0].ask.key} + KeysOf(xs[1..])
    ensures IdsOf(xs) == {xs[0].ask.id} + IdsOf(xs[1..])
    ensures AsksOf(xs) == {xs[0].ask} + AsksOf(xs[1..])
  {
    assert xs == [xs[0]] + xs[1..];
    assert forall m :: m in xs <==> m == xs[0] || m in xs[1..];
  }

  // ----------------------------------------------------------------------------------------------
  // A lost reply
  // ----------------------------------------------------------------------------------------------

  ghost predicate SameWork(u: World, v: World, moves: seq<Move>) {
    u.stream - IdsOf(moves) == v.stream - IdsOf(moves) && u.pending - IdsOf(moves) == v.pending - IdsOf(moves)
  }

  ghost predicate MarkedAhead(u: World, v: World, done: set<string>, until: int) {
    && done !! v.markers.Keys
    && u.markers.Keys == v.markers.Keys + done
    && (forall key :: key in v.markers ==>
          u.markers[key] == v.markers[key] || (until < u.markers[key].expires && until < v.markers[key].expires))
    && (forall key :: key in done ==> until < u.markers[key].expires)
  }

  /**
    u is v with some of the coming scripts already done: their markers are set and outlast the rest of the
    schedule, their lines are in the log, and otherwise the two agree.
   */
  ghost predicate Ahead<T>(view: Line -> T, cfg: Config, u: World, v: World, done: set<string>, moves: seq<Move>) {
    && u.now == v.now && done <= KeysOf(moves) && Duration(moves) < WorkWindow(cfg)
    && SameWork(u, v, moves)
    && MarkedAhead(u, v, done, u.now + Duration(moves))
    && LogLines(view, u) == LogLines(view, v) + FirstLines(view, done, moves)
  }

  lemma MoveWork(cfg: Config, w: World, m: Move)
    ensures MoveOnce(cfg, w, m).now == w.now + m.wait
    ensures MoveOnce(cfg, w, m).stream == w.stream - {m.ask.id}
    ensures MoveOnce(cfg, w, m).pending == w.pending - {m.ask.id}
  {
    hide Tick, FinishAsk;
    TickWork(w, m.wait);
    FinishWork(cfg, Tick(w, m.wait), m.ticket, m.ask);
  }

  lemma TickWork(w: World, ms: nat)
    ensures Tick(w, ms).now == w.now + ms && Tick(w, ms).stream == w.stream && Tick(w, ms).pending == w.pending
  {
  }

  lemma FinishWork(cfg: Config, w: World, ticket: nat, ask: Ask)
    ensures var v := FinishAsk(cfg, w, ticket, ask, NoFault).world;
            v.now == w.now && v.stream == w.stream - {ask.id} && v.pending == w.pending - {ask.id}
  {
  }

  lemma MoveMarks(cfg: Config, w: World, m: Move)
    ensures MoveOnce(cfg, w, m).markers ==
            if m.ask.key in Tick(w, m.wait).markers then Tick(w, m.wait).markers
            else Tick(w, m.wait).markers[m.ask.key := Marker("1", w.now + m.wait + WorkWindow(cfg))]
  {
  }

  lemma MoveLines<T>(view: Line -> T, cfg: Config, w: World, m: Move)
    ensures LogLines(view, MoveOnce(cfg, w, m)) ==
            LogLines(view, w) +
            if m.ask.key in Tick(w, m.wait).markers then multiset{} else multiset{view(LineOf(m.ask))}
  {
    var ticked := Tick(w, m.wait);
    PublishAddsLine(view, ticked.(markers := ticked.markers[m.ask.key := Marker("1", ticked.now + WorkWindow(cfg))]),
        m.ask);
  }

  lemma TickKeys(w: World, ms: nat)
    ensures Tick(w, ms).markers.Keys <= w.markers.Keys
    ensures forall key :: key in w.markers ==> (key in Tick(w, ms).markers <==> w.now + ms < w.markers[key].expires)
    ensures forall key :: key in Tick(w, ms).markers ==> Tick(w, ms).markers[key] == w.markers[key]
  {
  }

  lemma WorkStep(cfg: Config, u: World, v: World, moves: seq<Move>)
    requires SameWork(u, v, moves) && moves != []
    ensures SameWork(MoveOnce(cfg, u, moves[0]), MoveOnce(cfg, v, moves[0]), moves[1..])
  {
    hide MoveOnce, IdsOf;
    var id, rest := moves[0].ask.id, IdsOf(moves[1..]);
    MoveWork(cfg, u, moves[0]);
    MoveWork(cfg, v, moves[0]);
    KeysOfCons(moves);
    DropTwice(u.stream, {id}, rest);
    DropTwice(v.stream, {id}, rest);
    DropTwice(u.pending, {id}, rest);
    DropTwice(v.pending, {id}, rest);
  }

  /** Which of the two sides sees the key of the next script as marked. */
  lemma MarkedTick(u: World, v: World, done: set<string>, wait: nat, until: int)
    requires MarkedAhead(u, v, done, until) && u.now == v.now && u.now + wait <= until
    ensures MarkedAhead(Tick(u, wait), Tick(v, wait), done, until)
  {
    hide Tick;
    TickKeys(u, wait);
    TickKeys(v, wait);
    forall k ensures k in Tick(u, wait).markers <==> k in Tick(v, wait).markers || k in done {
    }
  }

  lemma MarkedStep(cfg: Config, u: World, v: World, done: set<string>, m: Move, until: int)
    requires MarkedAhead(u, v, done, until) && u.now == v.now && u.now + m.wait <= until
    requires until < u.now + WorkWindow(cfg)
    ensures MarkedAhead(MoveOnce(cfg, u, m), MoveOnce(cfg, v, m), done - {m.ask.key}, until)
    ensures m.ask.key in Tick(u, m.wait).markers <==> m.ask.key in Tick(v, m.wait).markers || m.ask.key in done
    ensures m.ask.key in done ==> m.ask.key !in Tick(v, m.wait).markers
  {
    hide MoveOnce, Tick;
    MarkedTick(u, v, done, m.wait, until);
    MoveMarks(cfg, u, m);
    MoveMarks(cfg, v, m);
    forall k ensures k in MoveOnce(cfg, u, m).markers <==> k in MoveOnce(cfg, v, m).markers || k in done - {m.ask.key} {
    }
  }

  lemma LinesStep<T>(view: Line -> T, cfg: Config, u: World, v: World, done: set<string>, moves: seq<Move>)
    requires moves != [] && LogLines(view, u) == LogLines(view, v) + FirstLines(view, done, moves)
    requires var m := moves[0];
             && (m.ask.key in Tick(u, m.wait).markers <==> m.ask.key in Tick(v, m.wait).markers || m.ask.key in done)
             && (m.ask.key in done ==> m.ask.key !in Tick(v, m.wait).markers)
    ensures LogLines(view, MoveOnce(cfg, u, moves[0])) ==
            LogLines(view, MoveOnce(cfg, v, moves[0])) + FirstLines(view, done - {moves[0].ask.key}, moves[1..])
  {
    hide MoveOnce, Tick, LogLines;
    MoveLines(view, cfg, u, moves[0]);
    MoveLines(view, cfg, v, moves[0]);
    if moves[0].ask.key !in done { assert done - {moves[0].ask.key} == done; }
  }

  /** One more script keeps one side ahead of the other by exactly what is left to repeat. */
  lemma AheadStep<T>(view: Line -> T, cfg: Config, u: World, v: World, done: set<string>, moves: seq<Move>)
    requires Ahead(view, cfg, u, v, done, moves) && moves != []
    ensures Ahead(view, cfg, MoveOnce(cfg, u, moves[0]), MoveOnce(cfg, v, moves[0]), done - {moves[0].ask.key},
            moves[1..])
  {
    hide MoveOnce, Tick, SameWork, MarkedAhead, LogLines, FirstLines, KeysOf, IdsOf, AsksOf;
    var m := moves[0];
    WorkStep(cfg, u, v, moves);
    MarkedStep(cfg, u, v, done, m, u.now + Duration(moves));
    LinesStep(view, cfg, u, v, done, moves);
    MoveWork(cfg, u, m);
    MoveWork(cfg, v, m);
    KeysOfCons(moves);
  }

  lemma {:induction false} AheadToTheEnd<T>(view: Line -> T, cfg: Config, u: World, v: World, done: set<string>,
      moves: seq<Move>)
    requires Ahead(view, cfg, u, v, done, moves)
    ensures var u', v' := RunMoves(cfg, u, moves), RunMoves(cfg, v, moves);
            && u'.stream == v'.stream && u'.pending == v'.pending
            && u'.markers.Keys == v'.markers.Keys && LogLines(view, u') == LogLines(view, v')
    decreases |moves|
  {
    if moves == [] {
      assert IdsOf(moves) == {} && KeysOf(moves) == {} && done == {};
      assert u.stream - {} == u.stream && v.stream - {} == v.stream;
      assert u.pending - {} == u.pending && v.pending - {} == v.pending;
    } else {
      AheadStep(view, cfg, u, v, done, moves);
      AheadToTheEnd(view, cfg, MoveOnce(cfg, u, moves[0]), MoveOnce(cfg, v, moves[0]), done - {moves[0].ask.key},
          moves[1..]);
    }
  }

  lemma TickZero(w: World)
    requires Unexpired(w)
    ensures Tick(w, 0) == w
  {
    assert Tick(w, 0).markers == w.markers;
  }

  lemma TickTick(w: World, ms: nat, more: nat)
    ensures Tick(Tick(w, ms), more) == Tick(w, ms + more)
  {
    assert Tick(Tick(w, ms), more).markers == Tick(w, ms + more).markers;
  }

  lemma PrefixWork(u: World, v: World, w: World, prefix: seq<Move>)
    requires prefix != [] && SameWork(u, v, prefix[1..])
    requires v.stream == w.stream - {prefix[0].ask.id} && v.pending == w.pending - {prefix[0].ask.id}
    ensures SameWork(u, w, prefix)
  {
    KeysOfCons(prefix);
    var id, rest := prefix[0].ask.id, IdsOf(prefix[1..]);
    assert u.stream - IdsOf(prefix) == (u.stream - rest) - {id} == (v.stream - rest) - {id};
    assert u.pending - IdsOf(prefix) == (u.pending - rest) - {id} == (v.pending - rest) - {id};
  }

  lemma MarksBefore(u: World, v: World, w: World, key: string, expires: nat, rest: set<string>, done: set<string>,
      until: int)
    requires MarkedAhead(u, v, rest, until) && until < expires
    requires v.markers == if key in w.markers then w.markers else w.markers[key := Marker("1", expires)]
    requires done == if key in w.markers then rest else rest + {key}
    ensures MarkedAhead(u, w, done, until)
  {
    forall k ensures k in u.markers <==> k in w.markers || k in done {
    }
  }

  /** The markers after the first script and the rest of the time, against the markers had it not run. */
  lemma FirstMarks(cfg: Config, w: World, moves: seq<Move>)
    requires WithinWindow(cfg, w, moves) && moves != []
    ensures var m := moves[0];
            var v := Tick(MoveOnce(cfg, w, m), Duration(moves[1..]));
            var idle := Tick(w, Duration(moves));
            && (m.ask.key in idle.markers <==> m.ask.key in w.markers)
            && v.markers == if m.ask.key in w.markers then idle.markers
                            else idle.markers[m.ask.key := Marker("1", w.now + m.wait + WorkWindow(cfg))]
  {
    hide MoveOnce, KeysOf, Tick;
    var m, after := moves[0], Duration(moves[1..]);
    KeysOfCons(moves);
    TickKeys(w, m.wait);
    TickKeys(w, Duration(moves));
    MoveWork(cfg, w, m);
    MoveMarks(cfg, w, m);
    TickWork(w, m.wait);
    TickTick(w, m.wait, after);
    if m.ask.key in w.markers {
      SameMarksTick(Tick(w, m.wait), MoveOnce(cfg, w, m), after);
    } else {
      MarkSurvives(Tick(w, m.wait), MoveOnce(cfg, w, m), after, m.ask.key,
          Marker("1", w.now + m.wait + WorkWindow(cfg)));
    }
  }

  lemma SameMarksTick(w: World, v: World, ms: nat)
    requires v.now == w.now && v.markers == w.markers
    ensures Tick(v, ms).markers == Tick(w, ms).markers
  {
  }

  lemma MarkSurvives(w: World, v: World, ms: nat, key: string, marker: Marker)
    requires v.now == w.now && v.markers == w.markers[key := marker] && w.now + ms < marker.expires
    ensures Tick(v, ms).markers == Tick(w, ms).markers[key := marker]
  {
  }

  lemma UnmarkedRest(cfg: Config, w: World, moves: seq<Move>)
    requires WithinWindow(cfg, w, moves) && moves != []
    ensures var key := moves[0].ask.key;
            var rest := KeysOf(moves[1..]) - MoveOnce(cfg, w, moves[0]).markers.Keys;
            KeysOf(moves) - w.markers.Keys == if key in w.markers then rest else rest + {key}
  {
    hide MoveOnce, KeysOf, WithinWindow;
    FirstInWindow(cfg, w, moves);
    KeysOfCons(moves);
  }

  lemma MoveUnexpired(cfg: Config, w: World, m: Move)
    requires WorkWindow(cfg) > 0
    ensures Unexpired(MoveOnce(cfg, w, m))
  {
    hide MoveOnce;
    MoveWork(cfg, w, m);
    MoveMarks(cfg, w, m);
  }

  lemma RestInWindow(cfg: Config, w: World, moves: seq<Move>)
    requires WithinWindow(cfg, w, moves) && moves != []
    ensures var v := MoveOnce(cfg, w, moves[0]);
            && WithinWindow(cfg, v, moves[1..]) && Unexpired(v) && v.now == w.now + moves[0].wait
            && Duration(moves) == moves[0].wait + Duration(moves[1..]) < WorkWindow(cfg)
  {
    hide MoveOnce, WithinWindow;
    ShortWindow(cfg, w, moves);
    FirstInWindow(cfg, w, moves);
    MoveUnexpired(cfg, w, moves[0]);
    MoveWork(cfg, w, moves[0]);
  }

  /** The markers of u are those of w after the schedule's time without it, and those the schedule sets. */
  ghost predicate MarksDone(cfg: Config, u: World, w: World, moves: seq<Move>) {
    && u.now == w.now + Duration(moves)
    && MarkedAhead(u, Tick(w, Duration(moves)), KeysOf(moves) - w.markers.Keys, w.now + WorkWindow(cfg) - 1)
  }

  lemma MarksNone(cfg: Config, w: World)
    requires Unexpired(w)
    ensures MarksDone(cfg, w, w, [])
  {
    TickZero(w);
    assert KeysOf([]) - w.markers.Keys == {};
  }

  lemma MarksOneMore(cfg: Config, u: World, w: World, moves: seq<Move>)
    requires WithinWindow(cfg, w, moves) && Unexpired(w) && moves != []
    requires MarksDone(cfg, u, MoveOnce(cfg, w, moves[0]), moves[1..])
    ensures MarksDone(cfg, u, w, moves)
  {
    hide MoveOnce, Tick, MarkedAhead, KeysOf, WithinWindow, Unexpired;
    var m := moves[0];
    var v := MoveOnce(cfg, w, m);
    RestInWindow(cfg, w, moves);
    FirstMarks(cfg, w, moves);
    UnmarkedRest(cfg, w, moves);
    var rest, until := KeysOf(moves[1..]) - v.markers.Keys, w.now + WorkWindow(cfg) - 1;
    var later := Tick(v, Duration(moves[1..]));
    MarksUntil(u, later, rest, v.now + WorkWindow(cfg) - 1, until);
    MarksBefore(u, later, Tick(w, Duration(moves)), m.ask.key, w.now + m.wait + WorkWindow(cfg), rest,
        KeysOf(moves) - w.markers.Keys, until);
  }

  lemma {:induction false} MarksEffect(cfg: Config, w: World, moves: seq<Move>)
    requires WithinWindow(cfg, w, moves) && Unexpired(w)
    ensures MarksDone(cfg, RunMoves(cfg, w, moves), w, moves)
    decreases |moves|
  {
    hide MoveOnce, WithinWindow, Unexpired, MarksDone;
    if moves == [] {
      MarksNone(cfg, w);
    } else {
      RestInWindow(cfg, w, moves);
      MarksEffect(cfg, MoveOnce(cfg, w, moves[0]), moves[1..]);
      MarksOneMore(cfg, RunMoves(cfg, w, moves), w, moves);
    }
  }

  lemma PrefixLines<T>(view: Line -> T, v: World, w: World, prefix: seq<Move>)
    requires prefix != []
    requires forall k :: k in KeysOf(prefix) ==> (k in v.markers <==> k in w.markers || k == prefix[0].ask.key)
    ensures var key := prefix[0].ask.key;
            FirstLines(view, KeysOf(prefix) - w.markers.Keys, prefix) ==
            (if key in w.markers then multiset{} else multiset{view(LineOf(prefix[0].ask))}) +
            FirstLines(view, KeysOf(prefix[1..]) - v.markers.Keys, prefix[1..])
  {
    KeysOfCons(prefix);
    var key := prefix[0].ask.key;
    var keys := KeysOf(prefix) - w.markers.Keys;
    FirstLinesOnKeys(view, keys - {key}, prefix[1..]);
    assert (keys - {key}) * KeysOf(prefix[1..]) == KeysOf(prefix[1..]) - v.markers.Keys;
    if key in w.markers { assert keys - {key} == keys; }
  }

  lemma FirstLinesOnKeys<T>(view: Line -> T, keys: set<string>, moves: seq<Move>)
    ensures FirstLines(view, keys, moves) == FirstLines(view, keys * KeysOf(moves), moves)
  {
    var used, unused := keys * KeysOf(moves), keys - KeysOf(moves);
    FirstLinesAdd(view, used, unused, moves);
    FirstLinesNone(view, unused, moves);
    assert used + unused == keys;
  }

  /**
    A worker that loses the reply to any prefix of its batch and sends the whole batch again within the worker
    window leaves the same stream, the same pending list, the same live markers and the same log lines as a
    worker that sent it once, whatever time the prefix took.
   */
  lemma LostReplyHarmless<T>(view: Line -> T, cfg: Config, w: World, prefix: seq<Move>, suffix: seq<Move>, pause: nat)
    requires WithinWindow(cfg, w, prefix) && Unexpired(w)
    requires Duration(prefix) + pause + Duration(prefix + suffix) < WorkWindow(cfg)
    ensures var again := RunMoves(cfg, Tick(RunMoves(cfg, w, prefix), pause), prefix + suffix);
            var once := RunMoves(cfg, Tick(w, Duration(prefix) + pause), prefix + suffix);
            && again.stream == once.stream && again.pending == once.pending
            && again.markers.Keys == once.markers.Keys && LogLines(view, again) == LogLines(view, once)
  {
    hide RunMoves, SameWork, MarkedAhead, LogLines, FirstLines, KeysOf, IdsOf, Tick, WithinWindow;
    var whole, took := prefix + suffix, Duration(prefix);
    var u, idle := RunMoves(cfg, w, prefix), Tick(w, took);
    ScheduleEffect(view, cfg, w, prefix);
    MarksEffect(cfg, w, prefix);
    var done := KeysOf(prefix) - w.markers.Keys;
    FirstLinesSplit(view, done, prefix, suffix);
    assert done - KeysOf(prefix) == {};
    FirstLinesNone(view, done - KeysOf(prefix), suffix);
    LinesOf(view, w, took);
    LinesOf(view, u, pause);
    LinesOf(view, idle, pause);
    TickWork(w, took);
    SameWorkStill(u, w, idle, prefix);
    PausedWork(u, idle, prefix, suffix, pause);
    MarkedTick(u, idle, done, pause, w.now + WorkWindow(cfg) - 1);
    MarksUntil(Tick(u, pause), Tick(idle, pause), done, w.now + WorkWindow(cfg) - 1,
        w.now + took + pause + Duration(whole));
    assert Ahead(view, cfg, Tick(u, pause), Tick(idle, pause), done, whole);
    AheadToTheEnd(view, cfg, Tick(u, pause), Tick(idle, pause), done, whole);
    TickTick(w, took, pause);
  }

  lemma SameWorkStill(u: World, w: World, v: World, moves: seq<Move>)
    requires SameWork(u, w, moves) && v.stream == w.stream && v.pending == w.pending
    ensures SameWork(u, v, moves)
  {
  }

  lemma PausedWork(u: World, w: World, prefix: seq<Move>, suffix: seq<Move>, pause: nat)
    requires SameWork(u, w, prefix)
    ensures SameWork(Tick(u, pause), Tick(w, pause), prefix + suffix) && KeysOf(prefix) <= KeysOf(prefix + suffix)
  {
    var ids, more := IdsOf(prefix), IdsOf(prefix + suffix);
    assert ids <= more;
    assert u.stream - more == (u.stream - ids) - more && w.stream - more == (w.stream - ids) - more;
    assert u.pending - more == (u.pending - ids) - more && w.pending - more == (w.pending - ids) - more;
  }

  lemma LinesOf<T>(view: Line -> T, w: World, pause: nat)
    ensures LogLines(view, Tick(w, pause)) == LogLines(view, w) && Tick(w, pause).now == w.now + pause
  {
  }

  lemma MarksUntil(u: World, v: World, done: set<string>, until: int, sooner: int)
    requires MarkedAhead(u, v, done, until) && sooner <= until
    ensures MarkedAhead(u, v, done, sooner)
  {
  }

  // ----------------------------------------------------------------------------------------------
  // Confluence
  // ----------------------------------------------------------------------------------------------

  /** The schedule ends before any completion marker it looks up can expire, old or new. */
  ghost predicate WithinWindow(cfg: Config, w: World, moves: seq<Move>) {
    && Duration(moves) < WorkWindow(cfg)
    && forall key :: key in KeysOf(moves) && key in w.markers ==> w.now + Duration(moves) < w.markers[key].expires
  }

  /** What a schedule does, without its order: entries gone, keys marked, one line for each key not marked before. */
  ghost predicate ScheduleDone<T>(view: Line -> T, v: World, w: World, moves: seq<Move>) {
    && SameWork(v, w, moves) && IdsOf(moves) !! v.stream.Keys && IdsOf(moves) !! v.pending.Keys
    && KeysOf(moves) <= v.markers.Keys
    && LogLines(view, v) == LogLines(view, w) + FirstLines(view, KeysOf(moves) - w.markers.Keys, moves)
  }

  lemma FirstInWindow(cfg: Config, w: World, moves: seq<Move>)
    requires WithinWindow(cfg, w, moves) && moves != []
    ensures var v := MoveOnce(cfg, w, moves[0]);
            && WithinWindow(cfg, v, moves[1..])
            && (forall k :: k in KeysOf(moves) ==> (k in v.markers <==> k in w.markers || k == moves[0].ask.key))
            && (moves[0].ask.key in Tick(w, moves[0].wait).markers <==> moves[0].ask.key in w.markers)
            && moves[0].ask.key in v.markers
            && v.now + Duration(moves[1..]) < v.markers[moves[0].ask.key].expires
  {
    hide MoveOnce, Tick;
    MoveWork(cfg, w, moves[0]);
    MoveMarks(cfg, w, moves[0]);
    TickKeys(w, moves[0].wait);
    KeysOfCons(moves);
  }

  lemma {:induction false} MarkStays(cfg: Config, w: World, moves: seq<Move>, key: string)
    requires key in w.markers && w.now + Duration(moves) < w.markers[key].expires && Duration(moves) < WorkWindow(cfg)
    ensures key in RunMoves(cfg, w, moves).markers
    decreases |moves|
  {
    hide MoveOnce, Tick;
    if moves == [] {
    } else {
      MoveWork(cfg, w, moves[0]);
      MoveMarks(cfg, w, moves[0]);
      TickKeys(w, moves[0].wait);
      MarkStays(cfg, MoveOnce(cfg, w, moves[0]), moves[1..], key);
    }
  }

  lemma ScheduleOne<T>(view: Line -> T, cfg: Config, u: World, w: World, moves: seq<Move>)
    requires moves != [] && WithinWindow(cfg, w, moves)
    requires ScheduleDone(view, u, MoveOnce(cfg, w, moves[0]), moves[1..])
    requires moves[0].ask.key in u.markers
    requires moves[0].ask.id !in u.stream && moves[0].ask.id !in u.pending
    ensures ScheduleDone(view, u, w, moves)
  {
    hide MoveOnce, SameWork, LogLines, FirstLines, KeysOf, IdsOf, Tick;
    var v := MoveOnce(cfg, w, moves[0]);
    MoveWork(cfg, w, moves[0]);
    MoveLines(view, cfg, w, moves[0]);
    FirstInWindow(cfg, w, moves);
    PrefixWork(u, v, w, moves);
    PrefixLines(view, v, w, moves);
    KeysOfCons(moves);
  }

  lemma {:induction false} GoneStays(cfg: Config, w: World, moves: seq<Move>, id: nat)
    requires id !in w.stream && id !in w.pending
    ensures id !in RunMoves(cfg, w, moves).stream && id !in RunMoves(cfg, w, moves).pending
    decreases |moves|
  {
    hide MoveOnce;
    if moves == [] {
    } else {
      MoveWork(cfg, w, moves[0]);
      GoneStays(cfg, MoveOnce(cfg, w, moves[0]), moves[1..], id);
    }
  }

  lemma {:induction false} ScheduleEffect<T>(view: Line -> T, cfg: Config, w: World, moves: seq<Move>)
    requires WithinWindow(cfg, w, moves)
    ensures ScheduleDone(view, RunMoves(cfg, w, moves), w, moves)
    decreases |moves|
  {
    if moves == [] {
    } else {
      hide MoveOnce, ScheduleDone, WithinWindow;
      var v := MoveOnce(cfg, w, moves[0]);
      FirstInWindow(cfg, w, moves);
      ScheduleEffect(view, cfg, v, moves[1..]);
      ShortWindow(cfg, v, moves[1..]);
      MarkStays(cfg, v, moves[1..], moves[0].ask.key);
      MoveWork(cfg, w, moves[0]);
      GoneStays(cfg, v, moves[1..], moves[0].ask.id);
      ScheduleOne(view, cfg, RunMoves(cfg, w, moves), w, moves);
    }
  }

  lemma ShortWindow(cfg: Config, w: World, moves: seq<Move>)
    requires WithinWindow(cfg, w, moves)
    ensures Duration(moves) < WorkWindow(cfg)
  {
  }

  /** All scripts that use one key look alike through the view. */
  ghost predicate KeyTells<T>(view: Line -> T, moves: seq<Move>) {
    forall m, n :: m in moves && n in moves && m.ask.key == n.ask.key ==> view(LineOf(m.ask)) == view(LineOf(n.ask))
  }

  lemma {:induction false} OneKeyLine<T>(view: Line -> T, moves: seq<Move>, key: string, line: T)
    requires key in KeysOf(moves)
    requires forall m :: m in moves && m.ask.key == key ==> view(LineOf(m.ask)) == line
    ensures FirstLines(view, {key}, moves) == multiset{line}
  {
    assert moves[0] in moves;
    KeysOfCons(moves);
    if moves[0].ask.key == key {
      assert {key} - {key} == {};
      FirstLinesNone(view, {}, moves[1..]);
    } else {
      OneKeyLine(view, moves[1..], key, line);
    }
  }

  lemma {:induction false} FirstLinesUnordered<T>(view: Line -> T, keys: set<string>, xs: seq<Move>, ys: seq<Move>)
    requires AsksOf(xs) == AsksOf(ys) && KeyTells(view, xs) && keys <= KeysOf(xs)
    ensures FirstLines(view, keys, xs) == FirstLines(view, keys, ys)
    decreases |keys|
  {
    if keys == {} {
      FirstLinesNone(view, keys, xs);
      FirstLinesNone(view, keys, ys);
    } else {
      var key :| key in keys;
      var m :| m in xs && m.ask.key == key;
      var line := view(LineOf(m.ask));
      assert m.ask in AsksOf(ys);
      forall n | n in ys && n.ask.key == key ensures view(LineOf(n.ask)) == line {
        assert n.ask in AsksOf(xs);
      }
      OneKeyLine(view, xs, key, line);
      OneKeyLine(view, ys, key, line);
      FirstLinesUnordered(view, keys - {key}, xs, ys);
      FirstLinesAdd(view, {key}, keys - {key}, xs);
      FirstLinesAdd(view, {key}, keys - {key}, ys);
      assert {key} + (keys - {key}) == keys;
    }
  }

  lemma SameAsks(xs: seq<Move>, ys: seq<Move>)
    requires AsksOf(xs) == AsksOf(ys)
    ensures IdsOf(xs) == IdsOf(ys) && KeysOf(xs) == KeysOf(ys)
  {
    AsksCover(xs, ys);
    AsksCover(ys, xs);
  }

  lemma AsksCover(xs: seq<Move>, ys: seq<Move>)
    requires AsksOf(xs) <= AsksOf(ys)
    ensures IdsOf(xs) <= IdsOf(ys) && KeysOf(xs) <= KeysOf(ys)
  {
    forall m | m in xs ensures m.ask.id in IdsOf(ys) && m.ask.key in KeysOf(ys) {
      assert m.ask in AsksOf(ys);
    }
  }

  lemma SameRemains<V>(a: map<nat, V>, b: map<nat, V>, ids: set<nat>)
    requires a - ids == b - ids && ids !! a.Keys && ids !! b.Keys
    ensures a == b
  {
    assert a - ids == a && b - ids == b;
  }

  /**
    Overlapping batches: any two orders and timings of the same scripts within the window, repetitions
    included, leave the same stream and the same pending list, every key of theirs marked, and log lines that agree
    through any view on which scripts with one key agree.
   */
  lemma OrderIsIrrelevant<T>(view: Line -> T, cfg: Config, w: World, xs: seq<Move>, ys: seq<Move>)
    requires AsksOf(xs) == AsksOf(ys) && KeyTells(view, xs)
    requires WithinWindow(cfg, w, xs) && WithinWindow(cfg, w, ys)
    ensures var u, v := RunMoves(cfg, w, xs), RunMoves(cfg, w, ys);
            && u.stream == v.stream && u.pending == v.pending
            && KeysOf(xs) <= u.markers.Keys && KeysOf(xs) <= v.markers.Keys
            && LogLines(view, u) == LogLines(view, v)
  {
    hide RunMoves, LogLines, FirstLines, KeyTells, WithinWindow, KeysOf, IdsOf, AsksOf;
    ScheduleEffect(view, cfg, w, xs);
    ScheduleEffect(view, cfg, w, ys);
    SameAsks(xs, ys);
    FirstLinesUnordered(view, KeysOf(xs) - w.markers.Keys, xs, ys);
    var u, v := RunMoves(cfg, w, xs), RunMoves(cfg, w, ys);
    SameRemains(u.stream, v.stream, IdsOf(xs));
    SameRemains(u.pending, v.pending, IdsOf(xs));
  }

  /** The event a line is about. */
  function Subject(line: Line): (bool, string) { (line.dead, line.eventId) }

  /** The scripts are the ones workers send for the entries of w. */
  ghost predicate WorkerMoves(cfg: Config, w: World, moves: seq<Move>) {
    forall m :: m in moves ==> m.ask.id in w.appended && m.ask == AskFor(cfg, m.ask.id, w.appended[m.ask.id].Content())
  }

  lemma WorkerKeysTellSubject(cfg: Config, w: World, moves: seq<Move>)
    requires WorkerMoves(cfg, w, moves)
    ensures KeyTells(Subject, moves)
  {
    KeyFamilies(cfg.stream);
    forall m, n | m in moves && n in moves && m.ask.key == n.ask.key
      ensures Subject(LineOf(m.ask)) == Subject(LineOf(n.ask))
    {
      AskKnows(cfg, m.ask.id, w.appended[m.ask.id].Content());
      AskKnows(cfg, n.ask.id, w.appended[n.ask.id].Content());
    }
  }

  /** Which events are decided, and how often, never depends on the order. */
  lemma DecidedEventsConfluent(cfg: Config, w: World, xs: seq<Move>, ys: seq<Move>)
    requires WorkerMoves(cfg, w, xs) && AsksOf(xs) == AsksOf(ys)
    requires WithinWindow(cfg, w, xs) && WithinWindow(cfg, w, ys)
    ensures LogLines(Subject, RunMoves(cfg, w, xs)) == LogLines(Subject, RunMoves(cfg, w, ys))
  {
    WorkerKeysTellSubject(cfg, w, xs);
    OrderIsIrrelevant(Subject, cfg, w, xs, ys);
  }

  /** With distinct event ids in distinct entries, not even the decisions themselves do. */
  lemma DecisionsConfluent(cfg: Config, w: World, xs: seq<Move>, ys: seq<Move>)
    requires AsksOf(xs) == AsksOf(ys)
    requires forall m, n :: m in xs && n in xs && m.ask.key == n.ask.key ==> m.ask.id == n.ask.id
    requires WorkerMoves(cfg, w, xs)
    requires WithinWindow(cfg, w, xs) && WithinWindow(cfg, w, ys)
    ensures LogLines(line => line, RunMoves(cfg, w, xs)) == LogLines(line => line, RunMoves(cfg, w, ys))
  {
    var whole: Line -> Line := line => line;
    assert KeyTells(whole, xs);
    OrderIsIrrelevant(whole, cfg, w, xs, ys);
  }

  /**
    When two entries share an event id, the order does decide which of them is scored: two such scripts, neither
    marked yet, leave the same stream, pending list and mark in either order, and the same log lines exactly when
    they would publish the same line.
   */
  lemma SharedKeyOrder(cfg: Config, w: World, a: Move, b: Move)
    requires a.ask.key == b.ask.key && a.ask.key !in w.markers
    requires a.wait + b.wait < WorkWindow(cfg)
    ensures var u, v := RunMoves(cfg, w, [a, b]), RunMoves(cfg, w, [b, a]);
            && u.stream == v.stream && u.pending == v.pending
            && a.ask.key in u.markers && a.ask.key in v.markers
    ensures LogLines(line => line, RunMoves(cfg, w, [a, b])) == LogLines(line => line, RunMoves(cfg, w, [b, a])) <==>
            LineOf(a.ask) == LineOf(b.ask)
  {
    var whole: Line -> Line := line => line;
    PairInWindow(cfg, w, a, b);
    PairInWindow(cfg, w, b, a);
    PairEitherWay(cfg, w, a, b);
    ScheduleEffect(whole, cfg, w, [a, b]);
    ScheduleEffect(whole, cfg, w, [b, a]);
    PairLines(whole, w, a, b);
    PairLines(whole, w, b, a);
    var before := LogLines(whole, w);
    if LineOf(a.ask) != LineOf(b.ask) {
      assert (before + multiset{LineOf(a.ask)})[LineOf(a.ask)] == before[LineOf(a.ask)] + 1;
    }
  }

  lemma PairEitherWay(cfg: Config, w: World, a: Move, b: Move)
    requires WithinWindow(cfg, w, [a, b]) && WithinWindow(cfg, w, [b, a])
    ensures var u, v := RunMoves(cfg, w, [a, b]), RunMoves(cfg, w, [b, a]);
            && u.stream == v.stream && u.pending == v.pending
            && a.ask.key in u.markers && a.ask.key in v.markers
  {
    hide RunMoves, WithinWindow;
    var blank: Line -> bool := _ => true;
    assert a in [a, b] && b in [a, b] && a in [b, a] && b in [b, a];
    OrderIsIrrelevant(blank, cfg, w, [a, b], [b, a]);
    assert a.ask.key in KeysOf([a, b]);
  }

  lemma PairInWindow(cfg: Config, w: World, a: Move, b: Move)
    requires a.ask.key == b.ask.key && a.ask.key !in w.markers && a.wait + b.wait < WorkWindow(cfg)
    ensures WithinWindow(cfg, w, [a, b])
  {
    assert [a, b][1..] == [b] && [b][1..] == [];
    assert Duration([b]) == b.wait;
    assert Duration([a, b]) == a.wait + b.wait;
  }

  lemma PairLines<T>(view: Line -> T, w: World, a: Move, b: Move)
    requires a.ask.key == b.ask.key && a.ask.key !in w.markers
    ensures FirstLines(view, KeysOf([a, b]) - w.markers.Keys, [a, b]) == multiset{view(LineOf(a.ask))}
  {
    var key := a.ask.key;
    assert KeysOf([a, b]) - w.markers.Keys == {key} by {
      assert a in [a, b];
    }
    assert {key} - {key} == {};
    assert [a, b][1..] == [b];
    FirstLinesNone(view, {}, [b]);
  }

  // ----------------------------------------------------------------------------------------------
  // Schedules are runs
  // ----------------------------------------------------------------------------------------------

  ghost function StepsOf(moves: seq<Move>): seq<Step> {
    if moves == [] then [] else [Pass(moves[0].wait), Complete(moves[0].ticket, NoFault)] + StepsOf(moves[1..])
  }

  /** Each script is the one a worker sends for the delivery it names. */
  ghost predicate Sent(cfg: Config, w: World, moves: seq<Move>) {
    forall m :: m in moves ==>
      && m.ticket < |w.delivered| && w.delivered[m.ticket].id == m.ask.id && m.ask.id in w.appended
      && m.ask == AskFor(cfg, m.ask.id, w.appended[m.ask.id].Content())
  }

  lemma MoveIsTwoSteps(cfg: Config, w: World, m: Move)
    requires Sent(cfg, w, [m])
    ensures MoveOnce(cfg, w, m) == Run(cfg, w, [Pass(m.wait), Complete(m.ticket, NoFault)])
    ensures MoveOnce(cfg, w, m).delivered == w.delivered && MoveOnce(cfg, w, m).appended == w.appended
  {
    hide AskFor;
    assert m in [m];
    var steps := [Pass(m.wait), Complete(m.ticket, NoFault)];
    assert steps == [Pass(m.wait)] + [Complete(m.ticket, NoFault)];
    RunConcat(cfg, w, [Pass(m.wait)], [Complete(m.ticket, NoFault)]);
    RunOne(cfg, w, Pass(m.wait));
    RunOne(cfg, Tick(w, m.wait), Complete(m.ticket, NoFault));
  }

  /** The schedules compared above are runs of the protocol. */
  lemma {:induction false} MovesAreSteps(cfg: Config, w: World, moves: seq<Move>)
    requires Sent(cfg, w, moves)
    ensures RunMoves(cfg, w, moves) == Run(cfg, w, StepsOf(moves))
    decreases |moves|
  {
    hide MoveOnce;
    if moves == [] {
    } else {
      var m := moves[0];
      MoveIsTwoSteps(cfg, w, m);
      var v := MoveOnce(cfg, w, m);
      assert Sent(cfg, v, moves[1..]);
      MovesAreSteps(cfg, v, moves[1..]);
      RunConcat(cfg, w, [Pass(m.wait), Complete(m.ticket, NoFault)], StepsOf(moves[1..]));
    }
  }
}
