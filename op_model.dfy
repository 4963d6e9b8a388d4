/**
 * The exec-agent message envelopes: a lightweight take on JSON-RPC 2.0
 * (section 4 "Request object", section 4.1 "Notification", section 5
 * "Response object", section 5.1 "Error object"). Requests travel from a
 * websocket client to the agent; responses and events travel back.
 *
 * JSON encoding is a boundary concern: params, results and error data are
 * opaque payloads here, and the `interface{}` id becomes a closed tagged
 * value so that echoing it is a checkable equality.
 */
module Op {
  import opened Wrappers

  /** An encoded JSON payload, kept opaque. */
  datatype Json = Json(raw: seq<bv8>)

  /** A request identifier: absent (nil), a string or a number; never anything else. */
  datatype Id = Absent | Str(s: string) | Num(n: int)

  /** A named operation a client asks the agent to perform. */
  datatype Request = Request(version: string, methodName: string, id: Id, params: Json)

  /** The error member of a failed response. */
  datatype Error = Error(code: int, message: string, data: Option<Json>)

  /** The agent's answer to one request. */
  datatype Response = Response(version: string, id: Id, body: Option<Json>, error: Option<Error>)

  /** A request without an id: the client does not expect to identify its result. */
  predicate IsNotification(req: Request)
  {
    req.id.Absent?
  }

  /** Body and Error are mutually exclusive: at most one of them is present. */
  predicate ValidResponse(r: Response)
  {
    !(r.body.Some? && r.error.Some?)
  }

  /** How an operation ended: with an (optional) result, or with an error. */
  datatype Outcome = Done(result: Option<Json>) | Failed(error: Error)

  /**
   * The response to `req` for the given outcome. It carries the request's id
   * unchanged, so a request without an id gets a response without one, and
   * it never holds a body and an error together.
   */
  function ReplyTo(req: Request, outcome: Outcome): (r: Response)
    ensures ValidResponse(r)
    ensures r.id == req.id && r.version == req.version
    ensures IsNotification(req) <==> r.id.Absent?
    ensures r.error.Some? <==> outcome.Failed?
    ensures outcome.Failed? ==> r.error == Some(outcome.error)
    ensures outcome.Done? ==> r.body == outcome.result
  {
    match outcome
    case Done(result) => Response(req.version, req.id, result, None)
    case Failed(e) => Response(req.version, req.id, None, Some(e))
  }

  /** Reads back the outcome a valid response reports. */
  function OutcomeOf(r: Response): (o: Outcome)
    requires ValidResponse(r)
    ensures o.Failed? <==> r.error.Some?
  {
    if r.error.Some? then Failed(r.error.value) else Done(r.body)
  }

  /** A reply loses nothing: the outcome can be read back from it. */
  lemma ReplyRoundTrip(req: Request, outcome: Outcome)
    ensures OutcomeOf(ReplyTo(req, outcome)) == outcome
  {
  }

  /**
   * Every valid response is the reply to any request with its version and
   * id, so validity is exactly "can be produced by ReplyTo".
   */
  lemma ValidResponseIsReply(r: Response, methodName: string, params: Json)
    requires ValidResponse(r)
    ensures ReplyTo(Request(r.version, methodName, r.id, params), OutcomeOf(r)) == r
  {
  }

  /** Echoing an id keeps its kind: a numeric id never comes back as a string, nor the reverse. */
  lemma ReplyKeepsIdKind(req: Request, outcome: Outcome)
    ensures ReplyTo(req, outcome).id.Num? <==> req.id.Num?
    ensures ReplyTo(req, outcome).id.Str? <==> req.id.Str?
  {
  }

  /** An instant of time; Go's time.Time internals are not modelled. */
  type Instant = int

  /** The zero time.Time value a body holds before anything sets it. */
  const ZeroTime: Instant := 0

  /** Holds a value of time; the Periodical implementation events carry. */
  class EventBody {
    var time: Instant

    /** A zero-valued EventBody{}. */
    constructor ()
      ensures time == ZeroTime
    {
      time := ZeroTime;
    }

    /** Overwrites the stored time with t. */
    method SetTime(t: Instant)
      modifies this
      ensures time == t
    {
      time := t;
    }
  }

  /**
   * The time a body holds after SetTime(ts[0]), ..., SetTime(ts[|ts| - 1])
   * are called on it in turn, starting from `start`: each call leaves
   * exactly its argument behind, as SetTime's postcondition says.
   */
  function TimeAfter(start: Instant, ts: seq<Instant>): (t: Instant)
    decreases |ts|
  {
    if ts == [] then start else TimeAfter(ts[0], ts[1..])
  }

  /** After any non-empty sequence of SetTime calls, the stored time is the last call's argument. */
  lemma {:induction false} LastSetTimeWins(start: Instant, ts: seq<Instant>)
    requires ts != []
    ensures TimeAfter(start, ts) == ts[|ts| - 1]
    decreases |ts|
  {
    if |ts| > 1 {
      LastSetTimeWins(ts[0], ts[1..]);
    }
  }

  /** Two runs of SetTime calls compose: the second run starts from where the first one left the body. */
  lemma {:induction false} TimeAfterAppend(start: Instant, a: seq<Instant>, b: seq<Instant>)
    ensures TimeAfter(start, a + b) == TimeAfter(TimeAfter(start, a), b)
    decreases |a|
  {
    if a == [] {
      assert a + b == b;
    } else {
      assert (a + b)[1..] == a[1..] + b;
      TimeAfterAppend(a[0], a[1..], b);
    }
  }

  /**
   * Calls body.SetTime(ts[0]), ..., body.SetTime(ts[|ts| - 1]) in turn: the
   * body ends with the time TimeAfter gives, which is the last argument
   * whenever there was a call.
   */
  method SetTimeEach(body: EventBody, ts: seq<Instant>)
    modifies body
    ensures body.time == TimeAfter(old(body.time), ts)
    ensures ts != [] ==> body.time == ts[|ts| - 1]
  {
    ghost var start := body.time;
    var i := 0;
    while i < |ts|
      invariant 0 <= i <= |ts|
      invariant body.time == TimeAfter(start, ts[..i])
    {
      TimeAfterAppend(start, ts[..i], [ts[i]]);
      assert ts[..i] + [ts[i]] == ts[..i + 1];
      body.SetTime(ts[i]);
      i := i + 1;
    }
    assert ts[..i] == ts;
    if ts != [] {
      LastSetTimeWins(start, ts);
    }
  }

  /** A notification from the agent to a client; its body is shared with the caller, not copied. */
  datatype Event = Event(eventType: string, body: EventBody)

  /** The type of an event must always be set. */
  predicate WellFormedEvent(e: Event)
  {
    e.eventType != ""
  }

  /**
   * Stamps `body` with the current clock reading and wraps it in an event of
   * type eType. The clock reading is the parameter `now`.
   */
  method NewEventNow(eType: string, body: EventBody, now: Instant) returns (e: Event)
    modifies body
    ensures body.time == now
    ensures e.eventType == eType && e.body == body
    ensures WellFormedEvent(e) <==> eType != ""
  {
    body.SetTime(now);
    e := Event(eType, body);
  }

  /** Stamps `body` with the given instant and wraps it in an event of type eType. */
  method NewEvent(eType: string, body: EventBody, when: Instant) returns (e: Event)
    modifies body
    ensures body.time == when
    ensures e.eventType == eType && e.body == body
    ensures WellFormedEvent(e) <==> eType != ""
  {
    body.SetTime(when);
    e := Event(eType, body);
  }

  /**
   * Restamping a body through a second event overwrites the first stamp,
   * and both events share that body.
   */
  method RestampSharedBody(type1: string, type2: string, body: EventBody, first: Instant, second: Instant)
    returns (e1: Event, e2: Event)
    modifies body
    ensures body.time == second == TimeAfter(old(body.time), [first, second])
    ensures e1.body == e2.body == body
    ensures e1.eventType == type1 && e2.eventType == type2
  {
    e1 := NewEvent(type1, body, first);
    e2 := NewEvent(type2, body, second);
    LastSetTimeWins(old(body.time), [first, second]);
  }
}
