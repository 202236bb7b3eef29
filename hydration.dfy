/** The hydration record: one row holding the current logical day, the
    millilitres drunk on it, the daily goal and the day-start hour. */
module Hydration {
  import opened SheetCells
  import opened TimeCycle

  /** `last_log_date`: empty before the first reset, otherwise a logical date. */
  datatype DateKey = Blank | Day(index: int)

  /** The four fields of the hydration dict, as a value. */
  datatype Hydro = Hydro(lastLogDate: DateKey, totalMl: int, dailyGoalMl: int, dayStartHour: int)

  /** The two "Drink" buttons. */
  datatype Glass = Glass250 | Glass500 {
    function Ml(): int {
      match this
      case Glass250 => 250
      case Glass500 => 500
    }
  }

  const DEFAULT_GOAL_ML := 3000
  const DEFAULT_START_HOUR := 6

  /** A record the hydration tab can show in full: the progress bar takes
      `curr/goal` and the settings expander takes the start hour. */
  predicate Sane(h: Hydro) {
    h.dailyGoalMl > 0 && h.totalMl >= 0 && 0 <= h.dayStartHour < 24
  }

  /** The record used when the worksheet is empty or cannot be read. */
  function DefaultRecord(): (r: Hydro)
    ensures Sane(r) && r.lastLogDate == Blank && r.totalMl == 0
  {
    Hydro(Blank, 0, DEFAULT_GOAL_ML, DEFAULT_START_HOUR)
  }

  /** The day-reset check done each time the hydration tab is shown. */
  function ResetDay(h: Hydro, now: Timestamp): (r: Hydro)
    ensures r.lastLogDate == Day(LogicalDate(now, h.dayStartHour))
    ensures r.dailyGoalMl == h.dailyGoalMl && r.dayStartHour == h.dayStartHour
    ensures h.lastLogDate == r.lastLogDate ==> r == h
    ensures h.lastLogDate != r.lastLogDate ==> r.totalMl == 0
  {
    var today := Day(LogicalDate(now, h.dayStartHour));
    if h.lastLogDate != today then h.(lastLogDate := today, totalMl := 0) else h
  }

  /** Resetting twice at the same moment is resetting once. */
  lemma ResetIdempotent(h: Hydro, now: Timestamp)
    ensures ResetDay(ResetDay(h, now), now) == ResetDay(h, now)
  {
  }

  /** The "remaining" figure shown beside today's total; it is not clamped. */
  function Remaining(h: Hydro): (r: int)
    ensures r < 0 <==> h.totalMl > h.dailyGoalMl
    ensures r == 0 <==> h.totalMl == h.dailyGoalMl
  {
    h.dailyGoalMl - h.totalMl
  }

  /** The header row `save_hydration` writes. */
  const HYDRATION_HEADER: seq<string> := ["last_log_date", "total_ml", "daily_goal_ml", "day_start_hour"]

  /** The one data row `save_hydration` writes under that header: the date
      as a string and the other three fields as numbers, in header order. */
  function HydrationRow(h: Hydro): (r: seq<Cell>)
    ensures |r| == |HYDRATION_HEADER|
    ensures IsString(r[0]) && r[1] == Number(h.totalMl)
    ensures r[2] == Number(h.dailyGoalMl) && r[3] == Number(h.dayStartHour)
  {
    [ match h.lastLogDate
      case Blank => Text("")
      case Day(d) => DateText(d),
      Number(h.totalMl), Number(h.dailyGoalMl), Number(h.dayStartHour) ]
  }

  /** Reading such a row back as a hydration record; None for any other shape. */
  function RecordOfRow(row: seq<Cell>): Option<Hydro> {
    if |row| != 4 || !row[1].Number? || !row[2].Number? || !row[3].Number? then None
    else
      match row[0]
      case Text(s) => if s == "" then Some(Hydro(Blank, row[1].n, row[2].n, row[3].n)) else None
      case DateText(d) => Some(Hydro(Day(d), row[1].n, row[2].n, row[3].n))
      case _ => None
  }

  /** The row layout loses nothing. */
  lemma RowRoundTrip(h: Hydro)
    ensures RecordOfRow(HydrationRow(h)) == Some(h)
  {
  }

  /** What the user does during one run of the hydration tab. */
  datatype Press = NoPress | Drink(glass: Glass) | SaveSettings(startHour: Hour)

  /** `st.progress(min(curr/goal, 1.0))` accepts its value: the goal is not 0
      and the fraction is not negative. Otherwise the run raises there, before
      any button is drawn. */
  predicate ProgressDrawn(h: Hydro): (b: bool)
    ensures Sane(h) ==> b
    ensures h.dailyGoalMl == 0 ==> !b
  {
    h.dailyGoalMl != 0 && (h.totalMl == 0 || (h.totalMl > 0 <==> h.dailyGoalMl > 0))
  }

  /** `st.number_input("Day Start Hour", 0, 23, ...)` accepts the stored hour as
      its initial value. Otherwise the run raises there and "Save Settings" is never drawn. */
  predicate SettingsDrawn(h: Hydro): (b: bool)
    ensures Sane(h) ==> b
    ensures !b && h.dayStartHour > 0 ==> forall t: Timestamp :: LogicalDate(t, h.dayStartHour) == t.day - 1
  {
    0 <= h.dayStartHour < 24
  }

  /** One run of the hydration tab: the reset check (saved at once), then at
      most one button, which only counts when the run gets as far as drawing it. */
  function Run(h: Hydro, now: Timestamp, press: Press): (r: Hydro)
    ensures r.dailyGoalMl == h.dailyGoalMl
    ensures r.lastLogDate == Day(LogicalDate(now, h.dayStartHour))
    ensures var drunk := press.Drink? && ProgressDrawn(ResetDay(h, now));
      r.totalMl == ResetDay(h, now).totalMl + (if drunk then press.glass.Ml() else 0)
    ensures var saved := press.SaveSettings? && ProgressDrawn(ResetDay(h, now)) && SettingsDrawn(h);
      r.dayStartHour == if saved then press.startHour else h.dayStartHour
    ensures Sane(h) ==> Sane(r)
  {
    var r := ResetDay(h, now);
    if !ProgressDrawn(r) then r
    else
      match press
      case NoPress => r
      case Drink(g) => r.(totalMl := r.totalMl + g.Ml())
      case SaveSettings(s) => if SettingsDrawn(r) then r.(dayStartHour := s) else r
  }

  datatype Event = Event(now: Timestamp, press: Press)

  /** A sequence of runs of the tab. The goal never changes, and a record
      that starts sane, as the default does, stays sane. */
  function Replay(h: Hydro, events: seq<Event>): (r: Hydro)
    ensures r.dailyGoalMl == h.dailyGoalMl
    ensures Sane(h) ==> Sane(r)
    decreases |events|
  {
    if events == [] then h else Replay(Run(h, events[0].now, events[0].press), events[1..])
  }

  /** Millilitres the events' Drink buttons add. */
  function Drunk(events: seq<Event>): int
    decreases |events|
  {
    if events == [] then 0
    else (if events[0].press.Drink? then events[0].press.glass.Ml() else 0) + Drunk(events[1..])
  }

  /** The events fall on logical day `d` under start hour `startHour` and never change the settings. */
  predicate AllOnDay(events: seq<Event>, startHour: int, d: int) {
    forall k :: 0 <= k < |events| ==>
      !events[k].press.SaveSettings? && LogicalDate(events[k].now, startHour) == d
  }

  /** Within the record's own logical day the total only grows, by exactly what is drunk. */
  lemma {:induction false} SameDayAccumulates(h: Hydro, events: seq<Event>)
    requires h.dailyGoalMl > 0 && h.totalMl >= 0
    requires h.lastLogDate.Day? && AllOnDay(events, h.dayStartHour, h.lastLogDate.index)
    ensures Replay(h, events) == h.(totalMl := h.totalMl + Drunk(events))
    decreases |events|
  {
    if events != [] {
      var h' := Run(h, events[0].now, events[0].press);
      assert h' == h.(totalMl := h.totalMl + Drunk(events[..1]));
      assert AllOnDay(events[1..], h'.dayStartHour, h'.lastLogDate.index) by {
        forall k | 0 <= k < |events[1..]|
          ensures !events[1..][k].press.SaveSettings?
          ensures LogicalDate(events[1..][k].now, h'.dayStartHour) == h'.lastLogDate.index
        {
          assert events[1..][k] == events[k + 1];
        }
      }
      SameDayAccumulates(h', events[1..]);
    }
  }

  /** On a new logical day the total starts again from zero: it is what was drunk that day. */
  lemma NewDayStartsFromZero(h: Hydro, events: seq<Event>, d: int)
    requires h.dailyGoalMl > 0
    requires events != [] && h.lastLogDate != Day(d) && AllOnDay(events, h.dayStartHour, d)
    ensures Replay(h, events) == h.(lastLogDate := Day(d), totalMl := Drunk(events))
  {
    var h' := Run(h, events[0].now, events[0].press);
    assert h' == h.(lastLogDate := Day(d), totalMl := Drunk(events[..1]));
    assert AllOnDay(events[1..], h'.dayStartHour, d) by {
      forall k | 0 <= k < |events[1..]|
        ensures !events[1..][k].press.SaveSettings?
        ensures LogicalDate(events[1..][k].now, h'.dayStartHour) == d
      {
        assert events[1..][k] == events[k + 1];
      }
    }
    SameDayAccumulates(h', events[1..]);
  }

  /** With a goal of 0 no run gets past the progress bar: however the tab is
      used, only the day reset ever changes the record. */
  lemma {:induction false} ZeroGoalFreezes(h: Hydro, events: seq<Event>)
    requires h.dailyGoalMl == 0
    ensures var r := Replay(h, events);
      r.dayStartHour == h.dayStartHour && (r.totalMl == h.totalMl || r.totalMl == 0)
    decreases |events|
  {
    if events != [] {
      var h' := Run(h, events[0].now, events[0].press);
      assert h'.dayStartHour == h.dayStartHour && (h'.totalMl == h.totalMl || h'.totalMl == 0);
      ZeroGoalFreezes(h', events[1..]);
    }
  }

  /** Raising the start hour past the current hour moves the logical date back,
      so the next run of the tab resets the day's total. */
  lemma RaisingStartHourResetsTotal(h: Hydro, now: Timestamp, s: Hour)
    requires Sane(h) && h.lastLogDate == Day(now.day) && h.dayStartHour <= now.hour < s
    ensures var h1 := Run(h, now, SaveSettings(s));
      h1 == h.(dayStartHour := s) &&
      Run(h1, now, NoPress) == h.(lastLogDate := Day(now.day - 1), totalMl := 0, dayStartHour := s)
  {
  }

  /** The hydration dict `app_data["hydration"]`, updated in place. */
  class HydrationRecord {
    var lastLogDate: DateKey
    var totalMl: int
    var dailyGoalMl: int
    var dayStartHour: int

    function Value(): Hydro
      reads this
    {
      Hydro(lastLogDate, totalMl, dailyGoalMl, dayStartHour)
    }

    /** The record `load_data` and the start-up fallback produce: the first
        record of the worksheet, or the default when there is none or the
        read fails. */
    constructor Load(fetch: Fetch<Hydro>)
      ensures fetch.Fetched? && fetch.records != [] ==> Value() == fetch.records[0]
      ensures fetch.Failed? || fetch.records == [] ==> Value() == DefaultRecord()
    {
      var h := if fetch.Fetched? && fetch.records != [] then fetch.records[0] else DefaultRecord();
      lastLogDate, totalMl, dailyGoalMl, dayStartHour := h.lastLogDate, h.totalMl, h.dailyGoalMl, h.dayStartHour;
    }

    /** The day-reset check; `reset` says whether the record was rewritten (and saved). */
    method ResetIfNewDay(now: Timestamp) returns (reset: bool)
      modifies this
      ensures Value() == ResetDay(old(Value()), now)
      ensures reset <==> old(lastLogDate) != Day(LogicalDate(now, old(dayStartHour)))
    {
      var currentDate := Day(LogicalDate(now, dayStartHour));
      reset := lastLogDate != currentDate;
      if reset {
        lastLogDate := currentDate;
        totalMl := 0;
      }
    }

    /** "Drink 250ml" / "Drink 500ml". */
    method Drink(glass: Glass)
      modifies this
      ensures totalMl == old(totalMl) + glass.Ml()
      ensures lastLogDate == old(lastLogDate) && dailyGoalMl == old(dailyGoalMl)
      ensures dayStartHour == old(dayStartHour)
    {
      totalMl := totalMl + glass.Ml();
    }

    /** "Save Settings": only the start hour changes. */
    method SaveSettings(newStart: Hour)
      modifies this
      ensures dayStartHour == newStart
      ensures lastLogDate == old(lastLogDate) && totalMl == old(totalMl)
      ensures dailyGoalMl == old(dailyGoalMl)
    {
      dayStartHour := newStart;
    }

    /** One run of the hydration tab. A widget that raises ends the run: the
        fields are left as they are at that point. */
    method RunTab(now: Timestamp, press: Press)
      modifies this
      ensures Value() == Run(old(Value()), now, press)
    {
      var _ := ResetIfNewDay(now);
      if !ProgressDrawn(Value()) {
        return;
      }
      match press {
        case NoPress =>
        case Drink(g) => Drink(g);
        case SaveSettings(s) =>
          if SettingsDrawn(Value()) {
            SaveSettings(s);
          }
      }
    }
  }
}
