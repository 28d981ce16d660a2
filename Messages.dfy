/**
 * The email the handler sends: subject and body text built from the record,
 * and `sendMail`, which skips the send when there is nobody to write to.
 */
module Messages {
  import opened Wrappers
  import opened Js
  import opened Resolver

  /** The one message handed to the mail transport. */
  datatype Mail = Mail(to: seq<string>, from: string, subject: string, text: string)

  const MeetingSubjectPrefix := "Nouveau rendez-vous: "
  const FlightSubjectPrefix := "Nouveau vol: "

  /** `${v || ''}`: an absent or empty field renders as nothing. */
  function OrEmpty(v: Option<string>): string {
    Interpolate(Or(v, Some("")))
  }

  /** The meeting "Lieu" value, `${locationName || address || ''}`. */
  function MeetingPlace(m: MeetingDoc): (r: string)
    ensures Truthy(m.locationName) ==> r == m.locationName.value
    ensures !Truthy(m.locationName) && Truthy(m.address) ==> r == m.address.value
    ensures !Truthy(m.locationName) && !Truthy(m.address) ==> r == ""
  {
    Interpolate(Or(Or(m.locationName, m.address), Some("")))
  }

  /** `Nouveau rendez-vous: ${locationName || 'FPV'}`. */
  function MeetingSubject(m: MeetingDoc): (r: string)
    ensures r == MeetingSubjectPrefix + (if Truthy(m.locationName) then m.locationName.value else "FPV")
  {
    MeetingSubjectPrefix + Interpolate(Or(m.locationName, Some("FPV")))
  }

  /**
   * The meeting body: date (no fallback, so a missing one renders "undefined"),
   * place, notes. When the date and place fields hold no newline, it reads back
   * as the Date and Lieu lines followed by the lines of the (free-text) notes.
   */
  function MeetingText(m: MeetingDoc): (r: string)
    ensures OneLine(m.date) && OneLine(m.locationName) && OneLine(m.address) ==>
      Lines(r) == [
        "Date: " + (if m.date.Some? then m.date.value else "undefined"),
        "Lieu: " + MeetingPlace(m)]
        + Lines("Notes: " + (if Truthy(m.notes) then m.notes.value else ""))
  {
    var date := "Date: " + Interpolate(m.date);
    var place := "Lieu: " + MeetingPlace(m);
    var notes := "Notes: " + OrEmpty(m.notes);
    var r := date + "\n" + place + "\n" + notes;
    if OneLine(m.date) && OneLine(m.locationName) && OneLine(m.address) then
      RenderedOneLine(m.date);
      InterpolateOrFallback(m.notes, "");
      assert r == date + "\n" + (place + "\n" + notes);
      LinesCons(date, place + "\n" + notes);
      LinesCons(place, notes);
      r
    else
      r
  }

  /** `Nouveau vol: ${spot || 'FPV'}`. */
  function FlightSubject(f: FlightDoc): (r: string)
    ensures r == FlightSubjectPrefix + (if Truthy(f.spot) then f.spot.value else "FPV")
  {
    FlightSubjectPrefix + Interpolate(Or(f.spot, Some("FPV")))
  }

  /**
   * The flight body: spot, pilot, co-pilot, notes, each empty when absent.
   * When the first three fields hold no newline, it reads back as the Spot,
   * Pilote and Co-pilote lines followed by the lines of the (free-text) notes.
   */
  function FlightText(f: FlightDoc): (r: string)
    ensures OneLine(f.spot) && OneLine(f.pilot) && OneLine(f.coPilot) ==>
      Lines(r) == [
        "Spot: " + (if Truthy(f.spot) then f.spot.value else ""),
        "Pilote: " + (if Truthy(f.pilot) then f.pilot.value else ""),
        "Co-pilote: " + (if Truthy(f.coPilot) then f.coPilot.value else "")]
        + Lines("Notes: " + (if Truthy(f.notes) then f.notes.value else ""))
  {
    var spot := "Spot: " + OrEmpty(f.spot);
    var pilot := "Pilote: " + OrEmpty(f.pilot);
    var coPilot := "Co-pilote: " + OrEmpty(f.coPilot);
    var notes := "Notes: " + OrEmpty(f.notes);
    var r := spot + "\n" + pilot + "\n" + coPilot + "\n" + notes;
    if OneLine(f.spot) && OneLine(f.pilot) && OneLine(f.coPilot) then
      RenderedOneLine(f.spot);
      RenderedOneLine(f.pilot);
      RenderedOneLine(f.coPilot);
      InterpolateOrFallback(f.spot, "");
      InterpolateOrFallback(f.pilot, "");
      InterpolateOrFallback(f.coPilot, "");
      InterpolateOrFallback(f.notes, "");
      assert r == spot + "\n" + (pilot + "\n" + (coPilot + "\n" + notes));
      LinesCons(spot, pilot + "\n" + (coPilot + "\n" + notes));
      LinesCons(pilot, coPilot + "\n" + notes);
      LinesCons(coPilot, notes);
      r
    else
      r
  }

  function Subject(e: Event): string {
    match e
    case Meeting(m) => MeetingSubject(m)
    case Flight(f) => FlightSubject(f)
  }

  function Text(e: Event): string {
    match e
    case Meeting(m) => MeetingText(m)
    case Flight(f) => FlightText(f)
  }

  /**
   * `sendMail(to, subject, text)`: no send for an empty list, otherwise
   * exactly one message carrying every recipient and the configured sender.
   */
  function SendMail(from: string, to: seq<string>, subject: string, text: string): (sent: Option<Mail>)
    ensures sent.None? <==> to == []
    ensures sent.Some? ==> sent.value.to == to && sent.value.from == from
    ensures sent.Some? ==> sent.value.subject == subject && sent.value.text == text
  {
    if |to| == 0 then None else Some(Mail(to, from, subject, text))
  }

  /**
   * The lines of a text, split at every newline. The handler never splits a
   * text; this read-back only states the line layout of the bodies it builds.
   */
  function Lines(s: string): (r: seq<string>)
    ensures |r| >= 1
  {
    if s == [] then [""]
    else
      var rest := Lines(s[1..]);
      if s[0] == '\n' then [""] + rest else [[s[0]] + rest[0]] + rest[1..]
  }

  /** A text without newline is one line. */
  lemma {:induction false} LinesOfOneLine(a: string)
    requires '\n' !in a
    ensures Lines(a) == [a]
  {
    if a != [] {
      assert '\n' !in a[1..];
      LinesOfOneLine(a[1..]);
      assert [a[0]] + a[1..] == a;
    }
  }

  /** A first line without newline, then a newline, then the rest. */
  lemma {:induction false} LinesCons(a: string, b: string)
    requires '\n' !in a
    ensures Lines(a + "\n" + b) == [a] + Lines(b)
  {
    if a == [] {
      assert a + "\n" + b == "\n" + b;
      assert ("\n" + b)[1..] == b;
    } else {
      assert (a + "\n" + b)[1..] == a[1..] + "\n" + b;
      assert '\n' !in a[1..];
      LinesCons(a[1..], b);
      assert [a[0]] + a[1..] == a;
    }
  }

  /** No newline inside a stored field. */
  predicate OneLine(v: Option<string>) {
    v.None? || '\n' !in v.value
  }

  /** A one-line field renders as a one-line value, with or without its fallback. */
  lemma RenderedOneLine(v: Option<string>)
    requires OneLine(v)
    ensures '\n' !in OrEmpty(v)
    ensures v.Some? ==> '\n' !in Interpolate(v)
  {
  }
}
