/** The month slider, its reset button and the list of seasonal events active in the chosen month. */
module TimeControl {
  import opened Types
  import opened Sequences

  const MonthNames: seq<string> := [
    "January", "February", "March", "April", "May", "June",
    "July", "August", "September", "October", "November", "December"
  ]

  /** The slider runs over the integers 1 to 12. */
  predicate ValidMonth(m: int)
  {
    1 <= m <= 12
  }

  /** `monthNames[currentMonth - 1]`: in bounds for every month the slider or the reset can produce. */
  function MonthName(currentMonth: int): (name: string)
    requires ValidMonth(currentMonth)
    ensures name in MonthNames
    ensures currentMonth == 1 ==> name == "January"
    ensures currentMonth == 12 ==> name == "December"
  {
    MonthNames[currentMonth - 1]
  }

  datatype PlaybackState = PlaybackState(currentMonth: int, isPlaying: bool)

  /** `handleReset`: back to month 1, and the play toggle is pressed only when playback is running. */
  function HandleReset(s: PlaybackState): (r: (PlaybackState, bool))
    ensures r.0.currentMonth == 1 && !r.0.isPlaying
    ensures r.1 <==> s.isPlaying
  {
    var toggled := s.isPlaying;
    (PlaybackState(1, if toggled then !s.isPlaying else s.isPlaying), toggled)
  }

  /** `activeEvents`: the events whose month list contains the current month. */
  function ActiveEvents(events: seq<SeasonalEvent>, currentMonth: int): (r: seq<SeasonalEvent>)
    ensures forall e :: e in r <==> e in events && currentMonth in e.months
  {
    Filter(events, (e: SeasonalEvent) => currentMonth in e.months)
  }

  /** The active events keep the catalog's order: filtering a concatenation filters each part. */
  lemma ActiveEventsKeepOrder(a: seq<SeasonalEvent>, b: seq<SeasonalEvent>, currentMonth: int)
    ensures ActiveEvents(a + b, currentMonth) == ActiveEvents(a, currentMonth) + ActiveEvents(b, currentMonth)
  {
    FilterAppend(a, b, (e: SeasonalEvent) => currentMonth in e.months);
  }

  lemma ActiveEventsOfOne(e: SeasonalEvent, currentMonth: int)
    ensures ActiveEvents([e], currentMonth) == if currentMonth in e.months then [e] else []
  {
    FilterSingleton(e, (e: SeasonalEvent) => currentMonth in e.months);
  }
}
