/**
 * The dashboard's weekly mood chart (client/src/components/dashboard/mood-chart.tsx): one
 * slot per day of the last seven, each showing the latest mood recorded on that weekday.
 * Days are local calendar day numbers (day 0 is Thursday 1 January 1970), so the weekday of
 * day `d` is `(d + 4) % 7` with Sunday as 0, as `getDay` numbers them.
 */
module MoodChart {
  import opened Wrappers
  import opened Schema
  import opened Collections
  import opened Storage

  const WeekDays: seq<string> := ["Sun", "Mon", "Tue", "Wed", "Thu", "Fri", "Sat"]

  /** `getDay()` of a local calendar day. */
  function Weekday(day: int): (r: int)
    ensures 0 <= r < 7
  {
    (day + 4) % 7
  }

  function MoodWeekday(m: Mood): int { Weekday(m.timestamp.day) }

  /** `moodValueMap[mood] || 50`: a bar height in percent. */
  function MoodValue(mood: string): (r: int)
    ensures 30 <= r <= 90
    ensures mood !in {"happy", "calm", "neutral", "sad", "anxious"} ==> r == 50
  {
    match mood
    case "happy" => 90
    case "calm" => 80
    case "neutral" => 60
    case "sad" => 40
    case "anxious" => 30
    case _ => 50
  }

  /** `moodColorMap[mood] || "bg-primary-300"` */
  function MoodColor(mood: string): (r: string)
    ensures mood !in {"happy", "calm", "sad", "anxious"} ==> r == "bg-primary-300"
  {
    match mood
    case "happy" => "bg-primary-500"
    case "calm" => "bg-primary-400"
    case "neutral" => "bg-primary-300"
    case "sad" => "bg-primary-200"
    case "anxious" => "bg-primary-100"
    case _ => "bg-primary-300"
  }

  /** One column of the chart. */
  datatype Slot = Slot(day: string, value: int, color: string, hasMood: bool)

  /** The moods recorded on weekday `dayNumber`. */
  function DayMoods(moods: seq<Mood>, dayNumber: int): (r: seq<Mood>)
    ensures forall m :: m in r <==> m in moods && MoodWeekday(m) == dayNumber
    ensures |r| <= |moods|
  {
    FilterBy(moods, MoodWeekday, dayNumber)
  }

  /** A slot: empty without moods on that weekday, else the value and colour of the latest one. */
  function SlotFor(moods: seq<Mood>, dayNumber: int, day: string): (r: Slot)
    ensures r.day == day
    ensures r.hasMood <==> exists m :: m in moods && MoodWeekday(m) == dayNumber
    ensures !r.hasMood ==> r.value == 0 && r.color == "bg-neutral-200"
    ensures r.hasMood ==> 30 <= r.value <= 90
  {
    var dayMoods := DayMoods(moods, dayNumber);
    if |dayMoods| == 0 then
      Slot(day, 0, "bg-neutral-200", false)
    else
      var latest := SortBy(dayMoods, MoodTime, true)[0];
      assert dayMoods[0] in moods;
      Slot(day, MoodValue(latest.mood), MoodColor(latest.mood), true)
  }

  /** A slot with moods shows a mood of that weekday whose timestamp no other mood of that weekday exceeds. */
  lemma SlotShowsLatest(moods: seq<Mood>, dayNumber: int, day: string)
    requires SlotFor(moods, dayNumber, day).hasMood
    ensures exists m :: (
      m in moods && MoodWeekday(m) == dayNumber &&
      SlotFor(moods, dayNumber, day).value == MoodValue(m.mood) &&
      SlotFor(moods, dayNumber, day).color == MoodColor(m.mood) &&
      forall n :: n in moods && MoodWeekday(n) == dayNumber ==> MoodTime(n) <= MoodTime(m))
  {
    var dayMoods := DayMoods(moods, dayNumber);
    var sorted := SortBy(dayMoods, MoodTime, true);
    var latest := sorted[0];
    assert latest in dayMoods;
    forall n | n in moods && MoodWeekday(n) == dayNumber
      ensures MoodTime(n) <= MoodTime(latest)
    {
      assert n in sorted;
      var j :| 0 <= j < |sorted| && sorted[j] == n;
      if j > 0 {
        assert Precedes(MoodTime(sorted[0]), MoodTime(sorted[j]), true);
      }
    }
  }

  /** The weekday shown in slot `index`: that of the day `6 - index` days before today. */
  function SlotWeekday(today: int, index: int): int {
    Weekday(today - (6 - index))
  }

  /**
   * `groupedByDay` as written: the slots run over the last seven days, oldest first, but are
   * labelled Sun..Sat in that fixed order whatever today is.
   */
  function GroupedByDay(weeklyMoods: Option<seq<Mood>>, today: int): (r: seq<Slot>)
    ensures weeklyMoods.None? ==> r == []
    ensures weeklyMoods.Some? ==> |r| == 7
    ensures forall i :: 0 <= i < |r| ==> r[i].day == WeekDays[i]
    ensures weeklyMoods.Some? ==> forall i :: 0 <= i < |r| ==>
      (r[i].hasMood <==> exists m :: m in weeklyMoods.value && MoodWeekday(m) == SlotWeekday(today, i))
  {
    if weeklyMoods.None? then []
    else seq(7, i requires 0 <= i < 7 => SlotFor(weeklyMoods.value, SlotWeekday(today, i), WeekDays[i]))
  }

  /** A slot's label names the weekday whose moods it shows only when today is a Saturday. */
  lemma LabelsMatchOnlyOnSaturday(today: int, index: int)
    requires 0 <= index < 7
    ensures SlotWeekday(today, index) == index <==> Weekday(today) == 6
  {
    var w := Weekday(today);
    assert today + 4 == 7 * ((today + 4) / 7) + w;
    var d := today - (6 - index) + 4;
    assert d == 7 * ((today + 4) / 7) + (w - 6 + index);
    if w == 6 {
      ModOfShifted(d, (today + 4) / 7, index);
    } else if w - 6 + index >= 0 {
      ModOfShifted(d, (today + 4) / 7, w - 6 + index);
    } else {
      ModOfShifted(d, (today + 4) / 7 - 1, w + 1 + index);
    }
  }

  lemma ModOfShifted(d: int, q: int, r: int)
    requires d == 7 * q + r && 0 <= r < 7
    ensures d % 7 == r
  {
  }

  /** On Thursday 1 January 1970, a mood from that day appears in the column labelled "Sat". */
  lemma ThursdayMoodUnderSaturday(m: Mood)
    requires m.timestamp.day == 0
    ensures GroupedByDay(Some([m]), 0)[6].day == "Sat"
    ensures GroupedByDay(Some([m]), 0)[6].hasMood
    ensures WeekDays[MoodWeekday(m)] == "Thu"
  {
    assert m in [m] && MoodWeekday(m) == SlotWeekday(0, 6);
  }

  /**
   * The evidently intended chart: the same seven slots, oldest first, each labelled with the
   * weekday whose moods it shows.
   */
  function GroupedByDayLabelled(weeklyMoods: Option<seq<Mood>>, today: int): (r: seq<Slot>)
    ensures weeklyMoods.None? ==> r == []
    ensures weeklyMoods.Some? ==> |r| == 7
    ensures forall i :: 0 <= i < |r| ==> r[i].day == WeekDays[SlotWeekday(today, i)]
    ensures weeklyMoods.Some? ==> forall i :: 0 <= i < |r| ==>
      (r[i].hasMood <==> exists m :: m in weeklyMoods.value && WeekDays[MoodWeekday(m)] == r[i].day)
    ensures weeklyMoods.Some? ==> r[6].day == WeekDays[Weekday(today)]
  {
    if weeklyMoods.None? then []
    else
      var r := seq(7, i requires 0 <= i < 7 =>
        SlotFor(weeklyMoods.value, SlotWeekday(today, i), WeekDays[SlotWeekday(today, i)]));
      WeekDaysDistinct();
      r
  }

  lemma WeekDaysDistinct()
    ensures forall a, b :: 0 <= a < 7 && 0 <= b < 7 && WeekDays[a] == WeekDays[b] ==> a == b
  {
  }

  /** Both versions show the same data in the same columns; only the labels differ. */
  lemma SameSlotsDifferentLabels(weeklyMoods: Option<seq<Mood>>, today: int)
    ensures |GroupedByDay(weeklyMoods, today)| == |GroupedByDayLabelled(weeklyMoods, today)|
    ensures forall i :: 0 <= i < |GroupedByDay(weeklyMoods, today)| ==>
      GroupedByDay(weeklyMoods, today)[i].(day := "") == GroupedByDayLabelled(weeklyMoods, today)[i].(day := "")
  {
    if weeklyMoods.Some? {
      forall i | 0 <= i < 7
        ensures GroupedByDay(weeklyMoods, today)[i].(day := "") == GroupedByDayLabelled(weeklyMoods, today)[i].(day := "")
      {
        SlotIgnoresLabel(weeklyMoods.value, SlotWeekday(today, i), WeekDays[i], WeekDays[SlotWeekday(today, i)]);
      }
    }
  }

  lemma SlotIgnoresLabel(moods: seq<Mood>, dayNumber: int, a: string, b: string)
    ensures SlotFor(moods, dayNumber, a).(day := "") == SlotFor(moods, dayNumber, b).(day := "")
  {
  }
}
