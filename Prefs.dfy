/**
 * Per-user notification preferences: a sparse stored record laid over fixed
 * defaults, field by field (the `DEFAULT_PREFS` / `prefs` pair of the mailer).
 */
module Prefs {
  import opened Wrappers

  /** The effective preferences the recipient rules read. */
  datatype Prefs = Prefs(
    notifyMeetingCreated: bool,
    notifyMeetingInvolvingMe: bool,
    notifyNewFlight: bool)

  /** A user's stored `notificationPrefs`: each field may be missing. */
  datatype StoredPrefs = StoredPrefs(
    notifyMeetingCreated: Option<bool>,
    notifyMeetingInvolvingMe: Option<bool>,
    notifyNewFlight: Option<bool>)

  /** A stored record with no field set: `{}`. */
  const NoStoredPrefs := StoredPrefs(None, None, None)

  /** `DEFAULT_PREFS`. */
  const DefaultPrefs := Prefs(true, true, false)

  /** One field of the object spread: the stored value when present, else the base value. */
  function Field(stored: Option<bool>, base: bool): bool {
    match stored
    case Some(b) => b
    case None => base
  }

  /**
   * `{ ...base, ...(stored || {}) }`: a missing record spreads as `{}`; each
   * field present in the record replaces the base value, each absent one keeps it.
   */
  function Overlay(base: Prefs, stored: Option<StoredPrefs>): (r: Prefs)
    ensures stored.None? || stored == Some(NoStoredPrefs) ==> r == base
    ensures stored.Some? && stored.value.notifyMeetingCreated.Some?
      ==> r.notifyMeetingCreated == stored.value.notifyMeetingCreated.value
    ensures stored.Some? && stored.value.notifyMeetingInvolvingMe.Some?
      ==> r.notifyMeetingInvolvingMe == stored.value.notifyMeetingInvolvingMe.value
    ensures stored.Some? && stored.value.notifyNewFlight.Some?
      ==> r.notifyNewFlight == stored.value.notifyNewFlight.value
    ensures (stored.None? || stored.value.notifyMeetingCreated.None?)
      ==> r.notifyMeetingCreated == base.notifyMeetingCreated
    ensures (stored.None? || stored.value.notifyMeetingInvolvingMe.None?)
      ==> r.notifyMeetingInvolvingMe == base.notifyMeetingInvolvingMe
    ensures (stored.None? || stored.value.notifyNewFlight.None?)
      ==> r.notifyNewFlight == base.notifyNewFlight
  {
    var s := match stored case Some(p) => p case None => NoStoredPrefs;
    Prefs(
      Field(s.notifyMeetingCreated, base.notifyMeetingCreated),
      Field(s.notifyMeetingInvolvingMe, base.notifyMeetingInvolvingMe),
      Field(s.notifyNewFlight, base.notifyNewFlight))
  }

  /** `prefs(u)`: the user's stored record laid over `DEFAULT_PREFS`. */
  function Effective(stored: Option<StoredPrefs>): (p: Prefs)
    ensures stored.None? ==> p == Prefs(true, true, false)
  {
    Overlay(DefaultPrefs, stored)
  }

  /** No record and an empty record both give the defaults (true, true, false). */
  lemma NoRecordGivesDefaults()
    ensures Effective(None) == Prefs(true, true, false)
    ensures Effective(Some(NoStoredPrefs)) == Prefs(true, true, false)
  {
  }

  /** A record with every field set replaces the defaults entirely. */
  lemma FullRecordWins(a: bool, b: bool, c: bool)
    ensures Effective(Some(StoredPrefs(Some(a), Some(b), Some(c)))) == Prefs(a, b, c)
  {
  }

  /**
   * Setting one stored field changes only the matching effective field; the
   * other two keep whatever the rest of the record (or the default) gave them.
   */
  lemma SettingOneFieldIsLocal(s: StoredPrefs, b: bool)
    ensures Effective(Some(s.(notifyMeetingCreated := Some(b))))
         == Effective(Some(s)).(notifyMeetingCreated := b)
    ensures Effective(Some(s.(notifyMeetingInvolvingMe := Some(b))))
         == Effective(Some(s)).(notifyMeetingInvolvingMe := b)
    ensures Effective(Some(s.(notifyNewFlight := Some(b))))
         == Effective(Some(s)).(notifyNewFlight := b)
  {
  }

  /** A record with a single field set keeps the documented defaults for the other two. */
  lemma PartialRecordKeepsOtherDefaults(b: bool)
    ensures Effective(Some(NoStoredPrefs.(notifyMeetingCreated := Some(b)))) == Prefs(b, true, false)
    ensures Effective(Some(NoStoredPrefs.(notifyMeetingInvolvingMe := Some(b)))) == Prefs(true, b, false)
    ensures Effective(Some(NoStoredPrefs.(notifyNewFlight := Some(b)))) == Prefs(true, true, b)
  {
  }
}
