/** Worked requests against small directories, checked against the general model. */
module Scenarios {
  import opened Wrappers
  import opened Prefs
  import opened Resolver
  import opened Messages
  import opened Notify

  const Alice := User("u-alice", Some("a@x.com"), Some("alice"), None)
  const Bob := User("u-bob", Some("b@x.com"), Some("bob"), Some(StoredPrefs(Some(false), Some(false), None)))
  const M1 := MeetingDoc(Some("2024-05-01"), None, None, None, Some("alice"), None)

  /** Alice keeps the default created = true; Bob opted out of both meeting kinds and is not involved. */
  lemma MeetingScenario(sender: string)
    ensures Recipients(Meeting(M1), [Alice, Bob]) == ["a@x.com"]
    ensures Handle(Config(None, sender), Request(None, Some("meeting"), Some("m1")),
                   Store(map["m1" := M1], map[], [Alice, Bob]))
         == Outcome(Sent(1), Some(Mail(["a@x.com"], sender, "Nouveau rendez-vous: FPV", MeetingText(M1))))
  {
    assert [Alice, Bob] == [Alice] + [Bob];
    RecipientsAppend(Meeting(M1), [Alice], [Bob]);
    RecipientsSingle(Meeting(M1), Alice);
    RecipientsSingle(Meeting(M1), Bob);
    assert MeetingSubject(M1) == "Nouveau rendez-vous: FPV";
  }

  /** Carol flies, so she is emailed whatever her preferences; Dave opted out and is not on board. */
  lemma FlightScenario(carolPrefs: Option<StoredPrefs>)
    ensures
      var dave := User("u-dave", Some("d@x.com"), Some("dave"), Some(StoredPrefs(None, None, Some(false))));
      var carol := User("u-carol", Some("c@x.com"), Some("carol"), carolPrefs);
      Recipients(Flight(FlightDoc(Some("Lakeview"), Some("carol"), None, None)), [dave, carol]) == ["c@x.com"]
  {
    var dave := User("u-dave", Some("d@x.com"), Some("dave"), Some(StoredPrefs(None, None, Some(false))));
    var carol := User("u-carol", Some("c@x.com"), Some("carol"), carolPrefs);
    var e := Flight(FlightDoc(Some("Lakeview"), Some("carol"), None, None));
    assert [dave, carol] == [dave] + [carol];
    RecipientsAppend(e, [dave], [carol]);
    RecipientsSingle(e, dave);
    RecipientsSingle(e, carol);
  }

  /** A body without `id` is a bad request, whatever the store holds. */
  lemma MissingIdScenario(store: Store, eventType: Option<string>)
    ensures Handle(Config(None, "noreply@x.com"), Request(None, eventType, None), store) == Outcome(BadRequest, None)
  {
  }

  /** A meeting id that the store does not hold is not found, and nothing is sent. */
  lemma UnknownMeetingScenario(users: seq<User>)
    ensures Handle(Config(None, "noreply@x.com"), Request(None, Some("meeting"), Some("m404")),
                   Store(map["m1" := M1], map["m404" := FlightDoc(None, None, None, None)], users))
         == Outcome(NotFound, None)
  {
  }

  /** A meeting without a date whose notes span two lines still reads "Date: undefined" first. */
  lemma MultiLineNotesScenario()
    ensures Lines(MeetingText(MeetingDoc(None, None, None, Some("a\nb"), None, None)))
         == ["Date: undefined", "Lieu: ", "Notes: a", "b"]
  {
    var m := MeetingDoc(None, None, None, Some("a\nb"), None, None);
    assert MeetingPlace(m) == "";
    assert "Date: " + "undefined" == "Date: undefined";
    assert "Lieu: " + "" == "Lieu: ";
    var notes := "Notes: " + "a\nb";
    assert notes == "Notes: a" + "\n" + "b";
    LinesCons("Notes: a", "b");
    LinesOfOneLine("b");
  }
}
