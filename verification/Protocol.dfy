/**
  The shared Redis state and the atomic transitions that gateways and workers run on it: the admission
  script, the completion script and the consumer-group commands. Identifiers are the 128-bit numbers behind
  Redis stream IDs. The marker map holds live keys only: the passing of time drops what has expired.

  The fields appended, delivered, completed and removed are histories; no transition looks at them except to find
  the entry a worker was handed.
 */
module Protocol {
  import opened Wrappers
  import opened Event
  import opened Scoring
  import opened Keys
  import opened Ordered

  datatype Config = Config(
    stream: string,
    result: string,
    maxQueue: nat,
    admitTtl: nat,      // seconds
    workTtl: nat,       // seconds
    reclaimMs: nat,
    batch: nat,
    encode: PaymentEvent -> string,               // the gateway's canonical payload
    decode: string -> Option<PaymentEvent>,       // the worker's reading of a payload
    score: PaymentEvent -> RiskDecision,
    digest: string -> string)

  /** What both services check at startup. */
  ghost predicate Configured(cfg: Config) {
    && cfg.maxQueue > 0 && cfg.admitTtl > 0 && cfg.workTtl > 0 && cfg.reclaimMs > 0
    && 1 <= cfg.batch <= 1024
  }

  /** What the protocol relies on: the worker reads back what the gateway wrote, and accepts valid events only. */
  ghost predicate WireContract(cfg: Config) {
    && (forall e :: Valid(e) ==> cfg.decode(cfg.encode(e)) == Some(e))
    && (forall s :: cfg.decode(s).Some? ==> Valid(cfg.decode(s).value))
  }

  ghost predicate InjectiveDigest(cfg: Config) {
    forall a, b :: cfg.digest(a) == cfg.digest(b) ==> a == b
  }

  function AdmitWindow(cfg: Config): nat { cfg.admitTtl * 1000 }

  function WorkWindow(cfg: Config): nat { cfg.workTtl * 1000 }

  // ----------------------------------------------------------------------------------------------
  // State
  // ----------------------------------------------------------------------------------------------

  datatype Marker = Marker(value: string, expires: nat)

  datatype Entry = Entry(eventId: Option<string>, payload: Option<string>)

  datatype Nack = Nack(owner: string, deliveredAt: nat)

  datatype Body =
    | Decision(decision: RiskDecision)
    | Rejection(streamId: string, eventId: string)

  /** One entry of an output stream; id is the input entry it came from. */
  datatype Publication = Publication(id: nat, eventId: string, body: Body, at: nat)

  datatype Appended =
    | Admitted(eventId: string, payload: string, at: nat)
    | Foreign(entry: Entry, at: nat)   // written by something other than the gateway
  {
    function Content(): Entry {
      match this
      case Admitted(e, p, _) => Entry(Some(e), Some(p))
      case Foreign(entry, _) => entry
    }
  }

  datatype Delivery = Delivery(id: nat, owner: string, at: nat)

  /** A completion script that answered 0 or 1; first means 1. */
  datatype Completion = Completion(ticket: nat, id: nat, at: nat, first: bool, dead: bool)

  datatype World = World(
    now: nat,
    markers: map<string, Marker>,
    stream: map<nat, Entry>,
    lastId: nat,
    group: Option<nat>,             // the last delivered identifier
    pending: map<nat, Nack>,
    published: seq<Publication>,
    rejected: seq<Publication>,
    appended: map<nat, Appended>,
    delivered: seq<Delivery>,
    completed: seq<Completion>,
    removed: map<nat, nat>)         // when each finished entry left the stream

  function Start(now: nat): World {
    World(now, map[], map[], 0, None, map[], [], [], map[], [], [], map[])
  }

  /** What can go wrong inside a script: a key of the wrong type, a refused SET, a refused XADD. */
  datatype Fault = NoFault | WrongType | SetRefused | AppendRefused

  // ----------------------------------------------------------------------------------------------
  // Time and appends
  // ----------------------------------------------------------------------------------------------

  function Tick(w: World, ms: nat): World {
    w.(now := w.now + ms, markers := map k | k in w.markers && w.now + ms < w.markers[k].expires :: w.markers[k])
  }

  /** Only live keys are visible. */
  ghost predicate Unexpired(w: World) { forall key :: key in w.markers ==> w.now < w.markers[key].expires }

  /** The identifier XADD * assigns: the clock, or one past the last identifier if the clock is not ahead. */
  function NextId(w: World): nat {
    if w.now * SEQUENCE_SPAN > w.lastId then w.now * SEQUENCE_SPAN else w.lastId + 1
  }

  function Append(w: World, a: Appended): World {
    w.(stream := w.stream[NextId(w) := a.Content()],
       lastId := NextId(w),
       appended := w.appended[NextId(w) := a])
  }

  // ----------------------------------------------------------------------------------------------
  // Admission script
  // ----------------------------------------------------------------------------------------------

  datatype AdmitReply = Conflict | Full | Duplicate | Added(id: nat) | ScriptError

  datatype AdmitOutcome = AdmitOutcome(world: World, reply: AdmitReply)

  function Admit(cfg: Config, w: World, eventId: string, payload: string, fault: Fault): AdmitOutcome {
    var key := IdempotencyKey(cfg.stream, eventId);
    if key in w.markers then
      AdmitOutcome(w, if w.markers[key].value != cfg.digest(payload) then Conflict else Duplicate)
    else if fault == WrongType then AdmitOutcome(w, ScriptError)
    else if |w.stream| >= cfg.maxQueue then AdmitOutcome(w, Full)
    else if fault != NoFault then AdmitOutcome(w, ScriptError)
    else
      var marked := w.(markers := w.markers[key := Marker(cfg.digest(payload), w.now + AdmitWindow(cfg))]);
      AdmitOutcome(Append(marked, Admitted(eventId, payload, w.now)), Added(NextId(w)))
  }

  // ----------------------------------------------------------------------------------------------
  // Consumer group
  // ----------------------------------------------------------------------------------------------

  /** XGROUP CREATE ... 0 MKSTREAM, with BUSYGROUP tolerated. */
  function EnsureGroup(w: World): World {
    if w.group.Some? then w else w.(group := Some(0))
  }

  function Undelivered(w: World): set<nat> {
    set id | id in w.stream && (w.group.None? || w.group.value < id)
  }

  /** Puts the entries into the pending list under a new owner, which restarts their idle time. */
  function Deliver(w: World, ids: seq<nat>, owner: string): World {
    w.(pending := w.pending + (map id | id in SetOf(ids) :: Nack(owner, w.now)),
       delivered := w.delivered + seq(|ids|, i requires 0 <= i < |ids| => Delivery(ids[i], owner, w.now)))
  }

  function ReadIds(w: World, count: nat): seq<nat> { FirstK(Undelivered(w), count) }

  /** XREADGROUP with '>'. */
  function ReadGroup(w: World, owner: string, count: nat): World {
    var ids := ReadIds(w, count);
    if w.group.None? || ids == [] then w
    else Deliver(w, ids, owner).(group := Some(ids[|ids| - 1]))
  }

  predicate Idle(cfg: Config, w: World, id: nat)
    requires id in w.pending
  {
    w.pending[id].deliveredAt + cfg.reclaimMs <= w.now
  }

  datatype Scan = Scan(claimed: seq<nat>, next: nat)

  /** The XAUTOCLAIM loop over the pending identifiers not yet looked at; 0 is the wrapped cursor. */
  function ClaimScan(cfg: Config, w: World, left: set<nat>, count: nat, attempts: nat): Scan
    requires left <= w.pending.Keys
    decreases |left|
  {
    if left == {} then Scan([], 0)
    else
      var id := Min(left);
      if count == 0 || attempts == 0 then Scan([], id)
      else if !Idle(cfg, w, id) then ClaimScan(cfg, w, left - {id}, count, attempts - 1)
      else
        var more := ClaimScan(cfg, w, left - {id}, count - 1, attempts - 1);
        Scan([id] + more.claimed, more.next)
  }

  function FromCursor(w: World, cursor: nat): set<nat> {
    set id | id in w.pending && cursor <= id
  }

  /** Redis looks at no more than ten pending entries for each one asked for. */
  const ATTEMPTS_PER_CLAIM: nat := 10

  function ClaimIds(cfg: Config, w: World, cursor: nat, count: nat): Scan {
    ClaimScan(cfg, w, FromCursor(w, cursor), count, ATTEMPTS_PER_CLAIM * count)
  }

  /** XAUTOCLAIM from a cursor. */
  function AutoClaim(cfg: Config, w: World, owner: string, cursor: nat, count: nat): World {
    if w.group.None? then w else Deliver(w, ClaimIds(cfg, w, cursor, count).claimed, owner)
  }

  // ----------------------------------------------------------------------------------------------
  // Completion script
  // ----------------------------------------------------------------------------------------------

  /** The arguments a worker computes for one entry before it sends the completion script. */
  datatype Ask = Ask(id: nat, key: string, eventId: string, body: Body, dead: bool)

  /** The event of an entry, if the worker can read and accept one. */
  function EventOf(cfg: Config, entry: Entry): Option<PaymentEvent> {
    match entry.payload
    case None => None
    case Some(text) => cfg.decode(text)
  }

  function AskFor(cfg: Config, id: nat, entry: Entry): Ask {
    match EventOf(cfg, entry)
    case Some(event) =>
      Ask(id, CompletedKey(cfg.stream, event.eventId), event.eventId, Decision(cfg.score(event)), false)
    case None =>
      var name := match entry.eventId case Some(e) => e case None => IdText(id);
      Ask(id, RejectedKey(cfg.stream, IdText(id)), name, Rejection(IdText(id), name), true)
  }

  lemma AskKnows(cfg: Config, id: nat, entry: Entry)
    ensures AskFor(cfg, id, entry).id == id
    ensures AskFor(cfg, id, entry).dead <==> EventOf(cfg, entry).None?
    ensures AskFor(cfg, id, entry).key ==
            if AskFor(cfg, id, entry).dead then RejectedKey(cfg.stream, IdText(id))
            else CompletedKey(cfg.stream, AskFor(cfg, id, entry).eventId)
    ensures EventOf(cfg, entry).Some? ==> AskFor(cfg, id, entry).eventId == EventOf(cfg, entry).value.eventId
    ensures EventOf(cfg, entry).Some? ==> AskFor(cfg, id, entry).body == Decision(cfg.score(EventOf(cfg, entry).value))
    ensures EventOf(cfg, entry).None? ==>
              && AskFor(cfg, id, entry).eventId == (if entry.eventId.Some? then entry.eventId.value else IdText(id))
              && AskFor(cfg, id, entry).body == Rejection(IdText(id), AskFor(cfg, id, entry).eventId)
  {
  }

  datatype FinishOutcome = FinishOutcome(world: World, code: int)

  function Publish(w: World, ask: Ask): World {
    var p := Publication(ask.id, ask.eventId, ask.body, w.now);
    if ask.dead then w.(rejected := w.rejected + [p]) else w.(published := w.published + [p])
  }

  /** XACK and XDEL. */
  function Remove(w: World, id: nat): World {
    w.(pending := w.pending - {id},
       stream := w.stream - {id},
       removed := if id in w.stream then w.removed[id := w.now] else w.removed)
  }

  lemma DropTwice<K, V>(m: map<K, V>, a: set<K>, b: set<K>)
    ensures (m - a) - b == m - (a + b)
  {
  }

  function FinishAsk(cfg: Config, w: World, ticket: nat, ask: Ask, fault: Fault): FinishOutcome {
    if ask.key in w.markers then
      FinishOutcome(Remove(w, ask.id).(completed :=
          w.completed + [Completion(ticket, ask.id, w.now, false, ask.dead)]), 0)
    else if fault != NoFault then FinishOutcome(w, -1)
    else
      var marked := w.(markers := w.markers[ask.key := Marker("1", w.now + WorkWindow(cfg))]);
      FinishOutcome(
        Remove(Publish(marked, ask), ask.id).(completed :=
            w.completed + [Completion(ticket, ask.id, w.now, true, ask.dead)]), 1)
  }

  /** The completion script for the entry of one delivery. */
  function Finish(cfg: Config, w: World, ticket: nat, fault: Fault): FinishOutcome
    requires ticket < |w.delivered| && w.delivered[ticket].id in w.appended
  {
    var id := w.delivered[ticket].id;
    FinishAsk(cfg, w, ticket, AskFor(cfg, id, w.appended[id].Content()), fault)
  }

  // ----------------------------------------------------------------------------------------------
  // Runs
  // ----------------------------------------------------------------------------------------------

  /**
    One atomic step of anybody. A worker may run the completion script for any delivery it ever received, at
    any later time and any number of times: that covers crashes, abandoned pipelines, lost replies and
    stale workers, whose memory therefore needs no state of its own.
   */
  datatype Step =
    | Pass(ms: nat)
    | Submit(event: PaymentEvent, fault: Fault)
    | Write(entry: Entry)
    | CreateGroup
    | Read(owner: string, count: nat)
    | Claim(owner: string, cursor: nat, count: nat)
    | Complete(ticket: nat, fault: Fault)

  predicate Enabled(w: World, step: Step) {
    match step
    case Submit(event, _) => Valid(event)
    case Complete(ticket, _) => ticket < |w.delivered| && w.delivered[ticket].id in w.appended
    case _ => true
  }

  function Next(cfg: Config, w: World, step: Step): World {
    if !Enabled(w, step) then w
    else
      match step
      case Pass(ms) => Tick(w, ms)
      case Submit(e, fault) => Admit(cfg, w, e.eventId, cfg.encode(e), fault).world
      case Write(entry) => Append(w, Foreign(entry, w.now))
      case CreateGroup => EnsureGroup(w)
      case Read(owner, count) => ReadGroup(w, owner, count)
      case Claim(owner, cursor, count) => AutoClaim(cfg, w, owner, cursor, count)
      case Complete(ticket, fault) => Finish(cfg, w, ticket, fault).world
  }

  function Run(cfg: Config, w: World, steps: seq<Step>): World {
    if steps == [] then w else Next(cfg, Run(cfg, w, steps[..|steps| - 1]), steps[|steps| - 1])
  }

  lemma {:induction false} RunConcat(cfg: Config, w: World, first: seq<Step>, second: seq<Step>)
    ensures Run(cfg, w, first + second) == Run(cfg, Run(cfg, w, first), second)
    decreases |second|
  {
    if second == [] {
      assert first + second == first;
    } else {
      var n := |second| - 1;
      assert (first + second)[..|first + second| - 1] == first + second[..n];
      RunConcat(cfg, w, first, second[..n]);
    }
  }

  lemma RunOne(cfg: Config, w: World, step: Step)
    ensures Run(cfg, w, [step]) == Next(cfg, w, step)
  {
    assert [step][..0] == [];
    assert Run(cfg, w, []) == w;
  }

  /** The states a run from an empty store can reach. */
  ghost predicate Reachable(cfg: Config, w: World) {
    exists start: nat, steps: seq<Step> :: w == Run(cfg, Start(start), steps)
  }
}
