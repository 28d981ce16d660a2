/**
 * Recipient resolution: which users of the directory are emailed about a
 * meeting or a flight, as the `filter(...).filter(...).map(...)` chains of the
 * `/notify` handler compute it.
 */
module Resolver {
  import opened Wrappers
  import opened Js
  import opened Prefs
  import opened Seqs

  /** A document of the `users` collection, with its document id. */
  datatype User = User(
    id: string,
    email: Option<string>,
    username: Option<string>,
    notificationPrefs: Option<StoredPrefs>)

  /** A document of the `meetings` collection. */
  datatype MeetingDoc = MeetingDoc(
    date: Option<string>,
    locationName: Option<string>,
    address: Option<string>,
    notes: Option<string>,
    host: Option<string>,
    coPilot: Option<string>)

  /** A document of the `flights` collection. */
  datatype FlightDoc = FlightDoc(
    spot: Option<string>,
    pilot: Option<string>,
    coPilot: Option<string>,
    notes: Option<string>)

  /** The record a notification is about, tagged by the branch of the handler that treats it. */
  datatype Event = Meeting(meeting: MeetingDoc) | Flight(flight: FlightDoc)

  /** The first filter, `u => u.email`: a truthiness test, after which the map reads a real address. */
  predicate HasEmail(u: User)
    ensures HasEmail(u) <==> u.email.Some? && Address(u) != ""
    ensures HasEmail(u) ==> u.email == Some(Address(u))
  {
    Truthy(u.email)
  }

  /** The final map, `u => u.email`; only ever applied to users that passed `HasEmail`. */
  function Address(u: User): string {
    match u.email
    case Some(a) => a
    case None => ""
  }

  /** The identifiers a record names: host and co-pilot, or pilot and co-pilot; absent ones as `None`. */
  function Named(e: Event): set<Option<string>> {
    match e
    case Meeting(m) => {m.host, m.coPilot}
    case Flight(f) => {f.pilot, f.coPilot}
  }

  /**
   * `involves`. The comparisons are `===` on values that may be `undefined`,
   * and `undefined === undefined` holds: a user without a username is involved
   * in any event whose co-pilot (or host, or pilot) is absent.
   */
  predicate Involves(e: Event, u: User)
    ensures Involves(e, u) <==> u.username in Named(e)
    ensures u.username.None? && Named(e) * {None} != {} ==> Involves(e, u)
  {
    match e
    case Meeting(m) => m.host == u.username || m.coPilot == u.username
    case Flight(f) => f.pilot == u.username || f.coPilot == u.username
  }

  /** The second filter: the inclusion rule of each event kind, on the effective preferences. */
  predicate Wants(e: Event, u: User)
    ensures e.Flight? && Involves(e, u) ==> Wants(e, u)
    ensures e.Meeting? && Involves(e, u) && Effective(u.notificationPrefs).notifyMeetingInvolvingMe ==> Wants(e, u)
    ensures e.Meeting? && Effective(u.notificationPrefs).notifyMeetingCreated ==> Wants(e, u)
    ensures !Involves(e, u) ==> (Wants(e, u) <==>
      if e.Meeting? then Effective(u.notificationPrefs).notifyMeetingCreated
      else Effective(u.notificationPrefs).notifyNewFlight)
  {
    var p := Effective(u.notificationPrefs);
    match e
    case Meeting(_) => p.notifyMeetingCreated || (Involves(e, u) && p.notifyMeetingInvolvingMe)
    case Flight(_) => p.notifyNewFlight || Involves(e, u)
  }

  /** The users that survive both filters, in directory order. */
  function Selected(e: Event, users: seq<User>): (r: seq<User>)
    ensures forall u :: u in r <==> u in users && HasEmail(u) && Wants(e, u)
    ensures IsSubsequence(r, users)
  {
    var withEmail := Filter(users, HasEmail);
    SubsequenceTransitive(Filter(withEmail, u => Wants(e, u)), withEmail, users);
    Filter(withEmail, u => Wants(e, u))
  }

  /** `recipients`: the addresses of the selected users, in directory order, duplicates kept. */
  function Recipients(e: Event, users: seq<User>): (r: seq<string>)
    ensures |r| <= |users|
    ensures forall a :: a in r ==> a != ""
    ensures forall a :: a in r <==> exists u :: u in users && HasEmail(u) && Wants(e, u) && Address(u) == a
  {
    var sel := Selected(e, users);
    var r := Map(sel, Address);
    assert forall i :: 0 <= i < |sel| ==> sel[i] in users && HasEmail(sel[i]);
    assert forall a :: a in r ==> exists i :: 0 <= i < |sel| && r[i] == a;
    assert forall u :: u in sel ==> Address(u) in r by {
      forall u | u in sel ensures Address(u) in r {
        var i :| 0 <= i < |sel| && sel[i] == u;
        assert r[i] == Address(u);
      }
    }
    r
  }

  /** Every address the directory holds, in directory order: what the first filter and the map alone give. */
  function AllAddresses(users: seq<User>): seq<string> {
    Map(Filter(users, HasEmail), Address)
  }

  /** The recipient list is a subsequence of the directory's addresses: order kept, nothing added. */
  lemma RecipientsAreSubsequence(e: Event, users: seq<User>)
    ensures IsSubsequence(Recipients(e, users), AllAddresses(users))
  {
    var withEmail := Filter(users, HasEmail);
    MapSubsequence(Filter(withEmail, u => Wants(e, u)), withEmail, Address);
  }

  /** Resolution over a concatenated directory is the concatenation: order kept, no de-duplication. */
  lemma RecipientsAppend(e: Event, a: seq<User>, b: seq<User>)
    ensures Recipients(e, a + b) == Recipients(e, a) + Recipients(e, b)
  {
    FilterAppend(a, b, HasEmail);
    FilterAppend(Filter(a, HasEmail), Filter(b, HasEmail), u => Wants(e, u));
    MapAppend(Selected(e, a), Selected(e, b), Address);
  }

  /** A one-user directory: the user's address exactly when they have one and the rule selects them. */
  lemma RecipientsSingle(e: Event, u: User)
    ensures Recipients(e, [u]) == if HasEmail(u) && Wants(e, u) then [u.email.value] else []
  {
    assert [u][1..] == [];
  }

  /** Two users sharing an address who are both selected yield that address twice. */
  lemma NoDeduplication(e: Event, u: User, v: User)
    requires HasEmail(u) && Wants(e, u) && HasEmail(v) && Wants(e, v)
    requires u.email == v.email
    ensures Recipients(e, [u, v]) == [u.email.value, u.email.value]
  {
    assert [u, v] == [u] + [v];
    RecipientsAppend(e, [u], [v]);
    RecipientsSingle(e, u);
    RecipientsSingle(e, v);
  }

  /** A user without a (non-empty) email is never selected, whatever their preferences. */
  lemma NoEmailNeverSelected(e: Event, users: seq<User>, u: User)
    requires u.email == None || u.email == Some("")
    ensures u !in Selected(e, users)
  {
  }

  /** Meeting rule: a user with an email is selected iff created, or involved and involving-me. */
  lemma MeetingInclusion(m: MeetingDoc, users: seq<User>, u: User)
    requires u in users && HasEmail(u)
    ensures u in Selected(Meeting(m), users) <==>
      Effective(u.notificationPrefs).notifyMeetingCreated
      || ((m.host == u.username || m.coPilot == u.username)
          && Effective(u.notificationPrefs).notifyMeetingInvolvingMe)
  {
  }

  /** A host or co-pilot who keeps involving-me on is emailed even with created turned off. */
  lemma MeetingInvolvedIncluded(m: MeetingDoc, users: seq<User>, u: User)
    requires u in users && HasEmail(u)
    requires m.host == u.username || m.coPilot == u.username
    requires Effective(u.notificationPrefs).notifyMeetingInvolvingMe
    ensures u.email.value in Recipients(Meeting(m), users)
  {
  }

  /** A user with an email and no preference record hears of every meeting (created defaults to true). */
  lemma MeetingDefaultUserIncluded(m: MeetingDoc, users: seq<User>, u: User)
    requires u in users && HasEmail(u) && u.notificationPrefs.None?
    ensures u.email.value in Recipients(Meeting(m), users)
  {
  }

  /** Flight rule: a pilot or co-pilot with an email is always selected, whatever their preferences. */
  lemma FlightInvolvedIncluded(f: FlightDoc, users: seq<User>, u: User)
    requires u in users && HasEmail(u)
    requires f.pilot == u.username || f.coPilot == u.username
    ensures u in Selected(Flight(f), users)
    ensures u.email.value in Recipients(Flight(f), users)
  {
  }

  /** Flight rule: a user who is neither pilot nor co-pilot is selected iff they stored new-flight = true. */
  lemma FlightBystanderInclusion(f: FlightDoc, users: seq<User>, u: User)
    requires u in users && HasEmail(u)
    requires f.pilot != u.username && f.coPilot != u.username
    ensures u in Selected(Flight(f), users) <==>
      u.notificationPrefs.Some? && u.notificationPrefs.value.notifyNewFlight == Some(true)
  {
  }

  /**
   * The `undefined === undefined` case: a user with an email but no username
   * is "involved" in a meeting without co-pilot, and in a flight without
   * co-pilot is emailed whatever their preferences.
   */
  lemma AnonymousUserInvolved(m: MeetingDoc, f: FlightDoc, users: seq<User>, u: User)
    requires u in users && HasEmail(u) && u.username.None?
    requires m.coPilot.None? && f.coPilot.None?
    ensures Involves(Meeting(m), u)
    ensures Effective(u.notificationPrefs).notifyMeetingInvolvingMe ==> u in Selected(Meeting(m), users)
    ensures u in Selected(Flight(f), users)
  {
  }
}
