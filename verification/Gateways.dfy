/** The webhook gateway: the admitter that runs the script, and the handler in front of it. */
module Gateways {
  import opened Wrappers
  import opened Json
  import opened Event
  import opened Ingress
  import Canonical
  import opened Keys
  import opened Protocol
  import opened Ledger
  import opened Refinement
  import opened Cycle
  import opened Store
  import opened Safety

  datatype AdmitResult = AdmitResult(accepted: bool, duplicate: bool, streamId: nat)

  datatype AdmitError = ErrConflict | ErrFull | Unavailable

  /** A request body: over the limit, cut off, or read completely. */
  datatype Upload = TooLarge | CutOff | Whole(raw: string)

  datatype Request = Request(body: Upload, signature: string)

  datatype Response = Response(status: nat, retryAfter: bool, duplicate: bool)

  /**
    What a gateway replica is configured with: tokens is what its JSON decoder sees in the bytes of a body, signed is
    the check of the provider's signature on the same bytes.
   */
  datatype Setup = Setup(
    cfg: Config, names: seq<string>, tokens: string -> seq<Tok>, signed: (string, string) -> bool)

  // ----------------------------------------------------------------------------------------------
  // What handling a request does
  // ----------------------------------------------------------------------------------------------

  datatype Handled = Handled(world: World, response: Response)

  /** The event of a request that passes every check in front of Redis. */
  ghost function EventIn(setup: Setup, request: Request): Option<PaymentEvent>
    requires |setup.names| == FIELDS
  {
    if !request.body.Whole? || !setup.signed(request.body.raw, request.signature) then None
    else match Decoded(setup.names, setup.tokens(request.body.raw))
      case Err(_) => None
      case Ok(event) => Some(event)
  }

  /** The answer to a request that does not. */
  ghost function Refusal(setup: Setup, request: Request): nat {
    if request.body.TooLarge? then 413
    else if request.body.CutOff? then 400
    else if !setup.signed(request.body.raw, request.signature) then 401
    else 400
  }

  function Answer(reply: AdmitReply): Response {
    match reply
    case Added(_) => Response(202, false, false)
    case Duplicate => Response(202, false, true)
    case Conflict => Response(409, false, false)
    case Full => Response(503, true, false)
    case ScriptError => Response(503, true, false)
  }

  /** Submitting a decoded event over a link that may fail. */
  function Submitted(cfg: Config, w: World, event: PaymentEvent, link: Link, fault: Fault): Handled {
    if link == Unsent then Handled(w, Response(503, true, false))
    else
      var outcome := Admit(cfg, w, event.eventId, cfg.encode(event), fault);
      Handled(outcome.world, if link == ReplyLost then Response(503, true, false) else Answer(outcome.reply))
  }

  ghost function Handle(setup: Setup, w: World, request: Request, link: Link, fault: Fault): Handled
    requires |setup.names| == FIELDS
  {
    match EventIn(setup, request)
    case None => Handled(w, Response(Refusal(setup, request), false, false))
    case Some(event) => Submitted(setup.cfg, w, event, link, fault)
  }

  /** How many answers of each status were given, with one more. */
  function Bumped(requests: map<nat, nat>, code: nat): (bumped: map<nat, nat>)
    ensures code in bumped && bumped[code] > 0
    ensures bumped[code] == 1 || (code in requests && bumped[code] == requests[code] + 1)
    ensures code in requests ==> bumped[code] == requests[code] + 1
    ensures forall other :: other != code ==> (other in bumped <==> other in requests)
    ensures forall other :: other != code && other in requests ==> bumped[other] == requests[other]
  {
    requests[code := (if code in requests then requests[code] else 0) + 1]
  }

  // ----------------------------------------------------------------------------------------------
  // The objects
  // ----------------------------------------------------------------------------------------------

  class RedisAdmitter {
    const redis: Redis
    const cfg: Config

    constructor (redis: Redis, cfg: Config)
      ensures this.redis == redis && this.cfg == cfg
    {
      this.redis, this.cfg := redis, cfg;
    }

    /** Binds an event id to canonical payload bytes for the retention window. */
    method Admit(eventId: string, payload: string, link: Link, fault: Fault)
        returns (r: Result<AdmitResult, AdmitError>)
      modifies redis
      ensures redis.View() == if link == Unsent then old(redis.View())
                              else Protocol.Admit(cfg, old(redis.View()), eventId, payload, fault).world
      ensures r == if link != Answered then Err(Unavailable)
                   else match Protocol.Admit(cfg, old(redis.View()), eventId, payload, fault).reply
                        case Conflict => Err(ErrConflict)
                        case Full => Err(ErrFull)
                        case Duplicate => Ok(AdmitResult(false, true, 0))
                        case Added(id) => Ok(AdmitResult(true, false, id))
                        case ScriptError => Err(Unavailable)
    {
      if link == Unsent {
        return Err(Unavailable);
      }
      var raw := redis.AdmitScript(cfg, eventId, payload, fault);
      if link == ReplyLost || raw.ErrorReply? {
        return Err(Unavailable);
      }
      if raw.code == -1 {
        return Err(ErrConflict);
      } else if raw.code == -2 {
        return Err(ErrFull);
      } else if raw.code == 0 {
        return Ok(AdmitResult(false, true, 0));
      }
      return Ok(AdmitResult(true, false, raw.id));
    }
  }

  class App {
    const setup: Setup
    const admitter: RedisAdmitter
    var admissionErrors: nat
    var duplicates: nat
    var requests: map<nat, nat>   // answers by status

    constructor (setup: Setup, redis: Redis)
      ensures this.setup == setup && admitter.redis == redis && admitter.cfg == setup.cfg
      ensures admissionErrors == 0 && duplicates == 0 && requests == map[]
    {
      this.setup := setup;
      this.admitter := new RedisAdmitter(redis, setup.cfg);
      admissionErrors, duplicates, requests := 0, 0, map[];
    }

    /** Counts the answer under its status. */
    method Respond(code: nat)
      modifies this`requests
      ensures requests == Bumped(old(requests), code)
    {
      requests := requests[code := (if code in requests then requests[code] else 0) + 1];
    }

    /** The part of the handler after decoding: canonical bytes, admission, status. */
    method AdmitEvent(event: PaymentEvent, link: Link, fault: Fault) returns (response: Response)
      requires admitter.cfg == setup.cfg
      modifies this, admitter.redis
      ensures Handled(admitter.redis.View(), response) ==
              Submitted(setup.cfg, old(admitter.redis.View()), event, link, fault)
      ensures requests == Bumped(old(requests), response.status)
      ensures duplicates == old(duplicates) + if response.duplicate then 1 else 0
      ensures admissionErrors == old(admissionErrors) + if response.retryAfter then 1 else 0
    {
      hide Protocol.Admit;
      var payload := setup.cfg.encode(event);
      var result := admitter.Admit(event.eventId, payload, link, fault);
      if result.Err? {
        if result.error == ErrConflict {
          Respond(409);
          return Response(409, false, false);
        }
        admissionErrors := admissionErrors + 1;
        Respond(503);
        return Response(503, true, false);
      }
      if result.value.duplicate {
        duplicates := duplicates + 1;
      }
      Respond(202);
      return Response(202, false, result.value.duplicate);
    }

    method HandleEvent(request: Request, link: Link, fault: Fault) returns (response: Response)
      requires |setup.names| == FIELDS && admitter.cfg == setup.cfg
      modifies this, admitter.redis
      ensures Handled(admitter.redis.View(), response) ==
              Handle(setup, old(admitter.redis.View()), request, link, fault)
      ensures requests == Bumped(old(requests), response.status)
      ensures duplicates == old(duplicates) + if response.duplicate then 1 else 0
      ensures admissionErrors == old(admissionErrors) + if response.retryAfter then 1 else 0
    {
      hide Decoded, Submitted, Bumped;
      var refused: nat := 0;
      if request.body.TooLarge? {
        refused := 413;
      } else if request.body.CutOff? {
        refused := 400;
      } else if !setup.signed(request.body.raw, request.signature) {
        refused := 401;
      } else {
        var decoded := Decode(setup.names, setup.tokens(request.body.raw));
        if decoded.Ok? {
          response := AdmitEvent(decoded.value, link, fault);
          return;
        }
        refused := 400;
      }
      Respond(refused);
      response := Response(refused, false, false);
    }
  }

  // ----------------------------------------------------------------------------------------------
  // What the answers mean
  // ----------------------------------------------------------------------------------------------

  lemma AuthenticIsValid(setup: Setup, request: Request)
    requires Schema(setup.names) && EventIn(setup, request).Some?
    ensures Valid(EventIn(setup, request).value)
    ensures setup.signed(request.body.raw, request.signature)
    ensures Decoded(setup.names, setup.tokens(request.body.raw)) == Ok(EventIn(setup, request).value)
  {
    GatewayAcceptsExactly(setup.names, setup.tokens(request.body.raw), EventIn(setup, request).value);
  }

  /**
    Handling a request is at most one submission step of the protocol, and only a request that is signed and
    decodes to a valid event can change anything.
   */
  lemma OnlyAuthenticChanges(setup: Setup, w: World, request: Request, link: Link, fault: Fault)
    requires Schema(setup.names)
    ensures var v := Handle(setup, w, request, link, fault).world;
            v != w ==>
              && link != Unsent && fault == NoFault
              && request.body.Whole? && setup.signed(request.body.raw, request.signature)
              && EventIn(setup, request).Some? && Decoded(setup.names, setup.tokens(request.body.raw)) ==
                 Ok(EventIn(setup, request).value)
              && v == Next(setup.cfg, w, Submit(EventIn(setup, request).value, NoFault))
  {
    hide Decoded, Valid, Submitted, Next;
    if EventIn(setup, request).Some? {
      AuthenticIsValid(setup, request);
      SubmittedIsStep(setup.cfg, w, EventIn(setup, request).value, link, fault);
    }
  }

  /** Only a delivered, fault-free script changes anything, and it is then a submission step. */
  lemma SubmittedIsStep(cfg: Config, w: World, e: PaymentEvent, link: Link, fault: Fault)
    requires Valid(e)
    ensures var v := Submitted(cfg, w, e, link, fault).world;
            v != w ==> link != Unsent && fault == NoFault && v == Next(cfg, w, Submit(e, NoFault))
  {
    hide Valid;
  }

  /**
    Which status a request gets that does not pass the checks in front of Redis: 413 for a body over the limit, 400 for
    one cut off, 401 for a complete one whose signature is wrong, whatever it contains, and 400 for a signed one that
    does not decode. Nothing else is in the answer, and the store is as before.
   */
  lemma RefusedExactly(setup: Setup, w: World, request: Request, link: Link, fault: Fault)
    requires |setup.names| == FIELDS && EventIn(setup, request).None?
    ensures var h := Handle(setup, w, request, link, fault);
            var body := request.body;
            var signed := body.Whole? && setup.signed(body.raw, request.signature);
            && h.world == w && !h.response.retryAfter && !h.response.duplicate
            && (h.response.status == 413 <==> body.TooLarge?)
            && (h.response.status == 401 <==> body.Whole? && !signed)
            && (h.response.status == 400 <==>
                  body.CutOff? || (signed && Decoded(setup.names, setup.tokens(body.raw)).Err?))
  {
    hide Decoded;
  }

  /** A submission that is not answered is a 503 to be retried, whether or not the script ran. */
  lemma UnansweredRetries(setup: Setup, w: World, request: Request, link: Link, fault: Fault)
    requires |setup.names| == FIELDS && EventIn(setup, request).Some? && link != Answered
    ensures var h := Handle(setup, w, request, link, fault);
            var e := EventIn(setup, request).value;
            && h.response == Response(503, true, false)
            && h.world == if link == Unsent then w
                          else Admit(setup.cfg, w, e.eventId, setup.cfg.encode(e), fault).world
  {
    hide EventIn, Admit;
  }

  lemma HandlingStaysLive(setup: Setup, w: World, request: Request, link: Link, fault: Fault)
    requires Schema(setup.names) && Live(setup.cfg, w)
    ensures Live(setup.cfg, Handle(setup, w, request, link, fault).world)
  {
    hide Live, Next;
    OnlyAuthenticChanges(setup, w, request, link, fault);
    if Handle(setup, w, request, link, fault).world != w {
      StepsStayLive(setup.cfg, w, Submit(EventIn(setup, request).value, NoFault));
    }
  }

  /** An entry with exactly this payload was admitted less than the window ago, and its marker is live. */
  ghost predicate Backed(cfg: Config, w: World, e: PaymentEvent) {
    && IdempotencyKey(cfg.stream, e.eventId) in w.markers
    && w.markers[IdempotencyKey(cfg.stream, e.eventId)].value == cfg.digest(cfg.encode(e))
    && exists id :: id in w.appended && w.appended[id] == Admitted(e.eventId, cfg.encode(e), w.appended[id].at) &&
                    w.now < w.appended[id].at + AdmitWindow(cfg)
  }

  lemma MarkedIsBacked(cfg: Config, w: World, e: PaymentEvent)
    requires Live(cfg, w) && InjectiveDigest(cfg)
    requires IdempotencyKey(cfg.stream, e.eventId) in w.markers
    requires w.markers[IdempotencyKey(cfg.stream, e.eventId)].value == cfg.digest(cfg.encode(e))
    ensures Backed(cfg, w, e)
  {
    AgreesOnIds(cfg, w);
    assert RecentlyAdmitted(cfg, Abs(w), e.eventId);
    var id :| id in w.appended && IsAdmission(w.appended[id], e.eventId) &&
        w.now < w.appended[id].at + AdmitWindow(cfg);
    assert cfg.digest(w.appended[id].payload) == cfg.digest(cfg.encode(e));
  }

  /** A fresh admission is visible in the state it leaves. */
  lemma AddedIsMarked(cfg: Config, w: World, e: PaymentEvent, fault: Fault)
    requires Admit(cfg, w, e.eventId, cfg.encode(e), fault).reply.Added?
    ensures var v := Admit(cfg, w, e.eventId, cfg.encode(e), fault).world;
            && IdempotencyKey(cfg.stream, e.eventId) in v.markers
            && v.markers[IdempotencyKey(cfg.stream, e.eventId)].value == cfg.digest(cfg.encode(e))
  {
  }

  /**
    A 202 is backed: it is given exactly when an answered request was authentic and its event is, after the
    request, remembered with this payload and was appended with it less than the window ago.
   */
  lemma AcceptedExactlyWhenBacked(setup: Setup, w: World, request: Request, link: Link, fault: Fault)
    requires Schema(setup.names) && Live(setup.cfg, w) && InjectiveDigest(setup.cfg)
    ensures var h := Handle(setup, w, request, link, fault);
            h.response.status == 202 <==>
            && link == Answered && EventIn(setup, request).Some?
            && Backed(setup.cfg, h.world, EventIn(setup, request).value)
  {
    hide Live, InjectiveDigest, Backed, Submitted, EventIn;
    if EventIn(setup, request).Some? && link == Answered {
      HandlingStaysLive(setup, w, request, link, fault);
      BackedAnswer(setup.cfg, w, EventIn(setup, request).value, fault);
    } else if EventIn(setup, request).Some? {
      UnansweredNever202(setup.cfg, w, EventIn(setup, request).value, link, fault);
    }
  }

  lemma UnansweredNever202(cfg: Config, w: World, e: PaymentEvent, link: Link, fault: Fault)
    requires link != Answered
    ensures Submitted(cfg, w, e, link, fault).response.status == 503
  {
    hide Admit;
  }

  lemma BackedAnswer(cfg: Config, w: World, e: PaymentEvent, fault: Fault)
    requires Live(cfg, Submitted(cfg, w, e, Answered, fault).world) && InjectiveDigest(cfg)
    ensures var h := Submitted(cfg, w, e, Answered, fault);
            h.response.status == 202 <==> Backed(cfg, h.world, e)
  {
    hide Live, InjectiveDigest;
    var h := Submitted(cfg, w, e, Answered, fault);
    var reply := Admit(cfg, w, e.eventId, cfg.encode(e), fault).reply;
    if reply.Added? {
      AddedIsMarked(cfg, w, e, fault);
      MarkedIsBacked(cfg, h.world, e);
    } else if reply.Duplicate? {
      MarkedIsBacked(cfg, h.world, e);
    }
  }

  /** This very event was admitted less than the window ago. */
  ghost predicate RecentlyThis(cfg: Config, w: World, e: PaymentEvent) {
    exists id :: id in w.appended && w.appended[id] == Admitted(e.eventId, cfg.encode(e), w.appended[id].at) &&
                 w.now < w.appended[id].at + AdmitWindow(cfg)
  }

  lemma RecentlyThisIsMarked(cfg: Config, w: World, e: PaymentEvent)
    requires Live(cfg, w) && InjectiveDigest(cfg)
    ensures RecentlyThis(cfg, w, e) <==>
            var key := IdempotencyKey(cfg.stream, e.eventId);
            key in w.markers && w.markers[key].value == cfg.digest(cfg.encode(e))
    ensures RecentlyAdmitted(cfg, Abs(w), e.eventId) <==> IdempotencyKey(cfg.stream, e.eventId) in w.markers
  {
    AgreesOnIds(cfg, w);
    var key := IdempotencyKey(cfg.stream, e.eventId);
    if key in w.markers && w.markers[key].value == cfg.digest(cfg.encode(e)) {
      MarkedIsBacked(cfg, w, e);
    }
  }

  /**
    Each answer an authentic, answered request can get, and exactly when it gets it: judged by what was
    admitted before and not by any marker.
   */
  lemma AnswersExactly(setup: Setup, w: World, request: Request, fault: Fault)
    requires Schema(setup.names) && Live(setup.cfg, w) && InjectiveDigest(setup.cfg)
    requires EventIn(setup, request).Some?
    ensures var e := EventIn(setup, request).value;
            var known := RecentlyAdmitted(setup.cfg, Abs(w), e.eventId);
            var fits := fault == NoFault && |w.stream| < setup.cfg.maxQueue;
            Handle(setup, w, request, Answered, fault).response ==
            if RecentlyThis(setup.cfg, w, e) then Response(202, false, true)
            else if known then Response(409, false, false)
            else if fits then Response(202, false, false)
            else Response(503, true, false)
  {
    hide Live, InjectiveDigest, RecentlyThis, RecentlyAdmitted, EventIn;
    RecentlyThisIsMarked(setup.cfg, w, EventIn(setup, request).value);
    SubmittedAnswer(setup.cfg, w, EventIn(setup, request).value, fault);
  }

  lemma SubmittedAnswer(cfg: Config, w: World, e: PaymentEvent, fault: Fault)
    ensures var key := IdempotencyKey(cfg.stream, e.eventId);
            Submitted(cfg, w, e, Answered, fault).response ==
            if key in w.markers then
              (if w.markers[key].value == cfg.digest(cfg.encode(e)) then Response(202, false, true)
                  else Response(409, false, false))
            else if fault == NoFault && |w.stream| < cfg.maxQueue then Response(202, false, false)
            else Response(503, true, false)
  {
    hide IdempotencyKey;
  }

  /**
    Reformatting is invisible: two signed requests whose documents hold the same members in any order decode to the
    same event, so they are handled alike.
   */
  lemma ReformattedAlike(setup: Setup, w: World, a: Request, b: Request, link: Link, fault: Fault)
    requires Schema(setup.names)
    requires a.body.Whole? && b.body.Whole?
    requires setup.signed(a.body.raw, a.signature) && setup.signed(b.body.raw, b.signature)
    requires Members(setup.tokens(a.body.raw)).Some? && Members(setup.tokens(b.body.raw)).Some?
    requires multiset(Members(setup.tokens(a.body.raw)).value) == multiset(Members(setup.tokens(b.body.raw)).value)
    ensures Handle(setup, w, a, link, fault) == Handle(setup, w, b, link, fault)
  {
    hide Decoded, Members, Submitted;
    var ms, ns := Members(setup.tokens(a.body.raw)).value, Members(setup.tokens(b.body.raw)).value;
    MembersIffRender(setup.tokens(a.body.raw), ms);
    MembersIffRender(setup.tokens(b.body.raw), ns);
    Canonical.OrderIrrelevant(setup.names, ms, ns);
  }

  /** The bytes of a flat object with whitespace in the given places. */
  function Layout(ms: seq<Member>, gaps: seq<string>): string
    requires |gaps| == |Render(ms)| + 1
  {
    Spaced(Render(ms), gaps)
  }

  /**
    The same on the bytes of the two bodies: however they order the members and wherever they put insignificant
    whitespace, signed requests with the same members are handled alike.
   */
  lemma LaidOutAlike(
    setup: Setup, w: World, a: Request, b: Request, link: Link, fault: Fault,
    ms: seq<Member>, gaps: seq<string>, ns: seq<Member>, holes: seq<string>)
    requires Schema(setup.names) && forall s :: setup.tokens(s) == Lex(s)
    requires Canonical.SpellableMembers(ms) && Canonical.SpellableMembers(ns) && multiset(ms) == multiset(ns)
    requires |gaps| == |Render(ms)| + 1 && forall i :: 0 <= i < |gaps| ==> AllSpace(gaps[i])
    requires |holes| == |Render(ns)| + 1 && forall i :: 0 <= i < |holes| ==> AllSpace(holes[i])
    requires a.body == Whole(Layout(ms, gaps)) && b.body == Whole(Layout(ns, holes))
    requires setup.signed(a.body.raw, a.signature) && setup.signed(b.body.raw, b.signature)
    ensures Handle(setup, w, a, link, fault) == Handle(setup, w, b, link, fault)
  {
    hide Lex, Spaced, Render, Members, Handle, Schema, Canonical.SpellableMembers;
    Canonical.LayoutReadsBack(ms, gaps);
    Canonical.LayoutReadsBack(ns, holes);
    ReformattedAlike(setup, w, a, b, link, fault);
  }
}
