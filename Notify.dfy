/**
 * The `POST /notify` handler as one pure function from the configuration, the
 * request and a snapshot of the document store to the response and the mail
 * (if any) handed to the transport.
 */
module Notify {
  import opened Wrappers
  import opened Js
  import opened Resolver
  import opened Messages

  /** `API_KEY` and `SENDGRID_FROM`. */
  datatype Config = Config(apiKey: Option<string>, sender: string)

  /** The `x-api-key` header and the `type` and `id` fields of the JSON body. */
  datatype Request = Request(apiKeyHeader: Option<string>, eventType: Option<string>, id: Option<string>)

  /** The documents the handler reads: `meetings` and `flights` by id, and all of `users`. */
  datatype Store = Store(meetings: map<string, MeetingDoc>, flights: map<string, FlightDoc>, users: seq<User>)

  datatype Collection = Meetings | Flights

  datatype Response = Unauthorized | BadRequest | NotFound | Sent(count: nat)

  /** What one request produces: the response and the message given to the mail transport. */
  datatype Outcome = Outcome(response: Response, mail: Option<Mail>)

  function StatusCode(r: Response): int {
    match r
    case Unauthorized => 401
    case BadRequest => 400
    case NotFound => 404
    case Sent(_) => 200
  }

  /**
   * `API_KEY && req.headers['x-api-key'] !== API_KEY` is false: with no key (or
   * an empty one) every request passes, otherwise only an identical header does.
   */
  predicate Authorized(c: Config, req: Request)
    ensures c.apiKey == None || c.apiKey == Some("") ==> Authorized(c, req)
    ensures Truthy(c.apiKey) ==> (Authorized(c, req) <==> req.apiKeyHeader == c.apiKey)
  {
    !Truthy(c.apiKey) || req.apiKeyHeader == c.apiKey
  }

  /** `!type || !id` is false: both fields are present and non-empty. */
  predicate WellFormed(req: Request)
    ensures WellFormed(req) <==>
      req.eventType !in {None, Some("")} && req.id !in {None, Some("")}
  {
    Truthy(req.eventType) && Truthy(req.id)
  }

  /** `type === 'meeting' ? 'meetings' : 'flights'`: every other type goes to `flights`. */
  function CollectionFor(eventType: string): (col: Collection)
    ensures col == Meetings <==> eventType == "meeting"
  {
    if eventType == "meeting" then Meetings else Flights
  }

  /** `db.collection(col).doc(id).get()`, with `snap.exists` as `Some`. */
  function Lookup(store: Store, col: Collection, id: string): (found: Option<Event>)
    ensures found.Some? <==> (if col == Meetings then id in store.meetings else id in store.flights)
    ensures found.Some? ==> (found.value.Meeting? <==> col == Meetings)
    ensures found.Some? ==>
      found.value == (if col == Meetings then Meeting(store.meetings[id]) else Flight(store.flights[id]))
  {
    match col
    case Meetings => if id in store.meetings then Some(Meeting(store.meetings[id])) else None
    case Flights => if id in store.flights then Some(Flight(store.flights[id])) else None
  }

  /** Resolving, sending and answering once the record is loaded. */
  function Deliver(c: Config, e: Event, users: seq<User>): (o: Outcome)
    ensures o.response == Sent(|Recipients(e, users)|)
    ensures o.mail.None? <==> Recipients(e, users) == []
    ensures o.mail.Some? ==> o.mail.value.to == Recipients(e, users) && o.mail.value.from == c.sender
    ensures o.mail.Some? ==> o.mail.value.subject == Subject(e) && o.mail.value.text == Text(e)
  {
    var recipients := Recipients(e, users);
    Outcome(Sent(|recipients|), SendMail(c.sender, recipients, Subject(e), Text(e)))
  }

  /** The whole handler, its checks in source order. */
  function Handle(c: Config, req: Request, store: Store): (o: Outcome)
    ensures o.mail.Some? ==> o.response.Sent? && o.response.count == |o.mail.value.to| > 0
    ensures o.response.Sent? ==> (o.response.count == 0 <==> o.mail.None?)
    ensures !o.response.Sent? ==> o.mail.None?
  {
    if !Authorized(c, req) then Outcome(Unauthorized, None)
    else if !WellFormed(req) then Outcome(BadRequest, None)
    else
      match Lookup(store, CollectionFor(req.eventType.value), req.id.value)
      case None => Outcome(NotFound, None)
      case Some(e) => Deliver(c, e, store.users)
  }

  /** Which response a request gets, stated as four exclusive conditions in order of precedence. */
  lemma ResponseClassification(c: Config, req: Request, store: Store)
    ensures Handle(c, req, store).response == Unauthorized <==>
      Truthy(c.apiKey) && req.apiKeyHeader != c.apiKey
    ensures Handle(c, req, store).response == BadRequest <==>
      Authorized(c, req) && (!Truthy(req.eventType) || !Truthy(req.id))
    ensures Handle(c, req, store).response == NotFound <==>
      Authorized(c, req) && WellFormed(req)
      && (if req.eventType.value == "meeting" then req.id.value !in store.meetings
          else req.id.value !in store.flights)
    ensures Handle(c, req, store).response.Sent? <==>
      Authorized(c, req) && WellFormed(req)
      && (if req.eventType.value == "meeting" then req.id.value in store.meetings
          else req.id.value in store.flights)
  {
  }

  /** A wrong or missing key is refused before the body or the store is looked at. */
  lemma UnauthorizedFirst(c: Config, req: Request, store: Store, eventType: Option<string>, id: Option<string>, other: Store)
    requires Truthy(c.apiKey) && req.apiKeyHeader != c.apiKey
    ensures Handle(c, req, store) == Outcome(Unauthorized, None)
    ensures Handle(c, req.(eventType := eventType, id := id), other) == Outcome(Unauthorized, None)
  {
  }

  /** With no key configured (absent or empty), no request is refused as unauthorized. */
  lemma NoKeyNoCheck(c: Config, req: Request, store: Store)
    requires !Truthy(c.apiKey)
    ensures Handle(c, req, store).response != Unauthorized
  {
  }

  /** A falsy `type` or `id` is refused before the store is read: the store cannot change the outcome. */
  lemma BadRequestBeforeStore(c: Config, req: Request, store: Store, other: Store)
    requires Authorized(c, req) && !WellFormed(req)
    ensures Handle(c, req, store) == Outcome(BadRequest, None)
    ensures Handle(c, req, other) == Handle(c, req, store)
  {
  }

  /** A missing record gets 404 and no mail is sent. */
  lemma NotFoundSendsNothing(c: Config, req: Request, store: Store)
    requires Authorized(c, req) && WellFormed(req)
    requires req.eventType == Some("meeting") ==> req.id.value !in store.meetings
    requires req.eventType != Some("meeting") ==> req.id.value !in store.flights
    ensures Handle(c, req, store) == Outcome(NotFound, None)
  {
  }

  /**
   * Any truthy type other than "meeting" (including an unknown one) is served
   * from `flights` as a flight, and the `meetings` collection plays no part.
   */
  lemma OtherTypesAreFlights(c: Config, req: Request, store: Store, meetings: map<string, MeetingDoc>)
    requires Authorized(c, req) && WellFormed(req) && req.eventType.value != "meeting"
    ensures Handle(c, req, store) ==
      (if req.id.value in store.flights then Deliver(c, Flight(store.flights[req.id.value]), store.users)
       else Outcome(NotFound, None))
    ensures Handle(c, req, store.(meetings := meetings)) == Handle(c, req, store)
  {
  }

  /**
   * The type "meeting" is served from `meetings` as a meeting carrying the
   * stored document, and the `flights` collection plays no part.
   */
  lemma MeetingTypeIsMeeting(c: Config, req: Request, store: Store, flights: map<string, FlightDoc>)
    requires Authorized(c, req) && WellFormed(req) && req.eventType == Some("meeting")
    ensures Handle(c, req, store) ==
      (if req.id.value in store.meetings then Deliver(c, Meeting(store.meetings[req.id.value]), store.users)
       else Outcome(NotFound, None))
    ensures Handle(c, req, store.(flights := flights)) == Handle(c, req, store)
  {
  }

  /** The `sent` count is always the length of the recipient list; zero recipients means no send. */
  lemma SentCountIsRecipientCount(c: Config, req: Request, store: Store)
    requires Authorized(c, req) && WellFormed(req)
    requires Lookup(store, CollectionFor(req.eventType.value), req.id.value).Some?
    ensures var e := Lookup(store, CollectionFor(req.eventType.value), req.id.value).value;
      && Handle(c, req, store).response == Sent(|Recipients(e, store.users)|)
      && (Handle(c, req, store).mail.None? <==> Recipients(e, store.users) == [])
  {
  }
}
