/**
 * The insights page: the mood emoji for an average, the per-day averages of
 * the weekly chart, the week's count and average, the relative date of a
 * check-in and the list of recent check-ins with their labels.
 *
 * Dates are inputs: `dayOf` gives the local calendar day of a check-in (its
 * `toDateString()`), `weekAgo` the timestamp seven days before now, and
 * `localeDate` the `toLocaleDateString` text of a check-in in a given locale.
 */
module Insights {
  import opened Wrappers
  import opened Strings
  import Translations
  import Store
  import Home

  type MoodEntry = Store.MoodEntry

  /** The five faces, from the lowest mood to the highest. */
  const Faces: seq<string> := ["😢", "😔", "😐", "🙂", "😄"]

  /**
   * `getMoodEmoji(value)`: a dash for a falsy value (no value or 0), otherwise
   * the face of the band the value falls in, the bands checked from the top.
   */
  function MoodEmoji(value: Option<real>): (r: string)
    ensures r == "—" <==> value == None || value == Some(0.0)
    ensures r != "—" ==> r in Faces
    ensures value.Some? && value.value != 0.0 ==>
      && (r == Faces[4] <==> value.value >= 4.5)
      && (r == Faces[3] <==> 3.5 <= value.value < 4.5)
      && (r == Faces[2] <==> 2.5 <= value.value < 3.5)
      && (r == Faces[1] <==> 1.5 <= value.value < 2.5)
      && (r == Faces[0] <==> value.value < 1.5)
  {
    if value == None || value == Some(0.0) then "—"
    else Band(value.value)
  }

  /** The comparisons of `getMoodEmoji` once its value has passed the falsy check. */
  function Band(value: real): (r: string)
    ensures r in Faces
    ensures r == Faces[4] <==> value >= 4.5
    ensures r == Faces[3] <==> 3.5 <= value < 4.5
    ensures r == Faces[2] <==> 2.5 <= value < 3.5
    ensures r == Faces[1] <==> 1.5 <= value < 2.5
    ensures r == Faces[0] <==> value < 1.5
  {
    if value >= 4.5 then "😄"
    else if value >= 3.5 then "🙂"
    else if value >= 2.5 then "😐"
    else if value >= 1.5 then "😔"
    else "😢"
  }

  /** The position of a face in `Faces`; the dash comes below every face. */
  function FaceRank(face: string): int {
    if face == Faces[0] then 0
    else if face == Faces[1] then 1
    else if face == Faces[2] then 2
    else if face == Faces[3] then 3
    else if face == Faces[4] then 4
    else -1
  }

  /** A higher (non-zero) value never shows a lower face. */
  lemma EmojiMonotone(a: real, b: real)
    requires a != 0.0 && b != 0.0 && a <= b
    ensures 0 <= FaceRank(MoodEmoji(Some(a))) <= FaceRank(MoodEmoji(Some(b)))
  {
  }

  /** On a whole mood 1..5 the thresholds pick the same face as the home page's table. */
  lemma EmojiMatchesHome(mood: int)
    requires 1 <= mood <= 5
    ensures MoodEmoji(Some(mood as real)) == Home.MoodEmoji(mood)
    ensures FaceRank(MoodEmoji(Some(mood as real))) == mood - 1
  {
  }

  /** `list.filter(p)`: the entries that satisfy `p`, in their order. */
  function Keep(ms: seq<MoodEntry>, p: MoodEntry -> bool): (r: seq<MoodEntry>)
    ensures |r| <= |ms|
    ensures forall i :: 0 <= i < |r| ==> p(r[i])
  {
    if ms == [] then []
    else (if p(ms[0]) then [ms[0]] else []) + Keep(ms[1..], p)
  }

  /** The kept entries are exactly the entries that satisfy `p`. */
  lemma {:induction false} KeepMembers(ms: seq<MoodEntry>, p: MoodEntry -> bool)
    ensures forall m :: m in Keep(ms, p) <==> m in ms && p(m)
  {
    if ms != [] {
      KeepMembers(ms[1..], p);
      assert ms == [ms[0]] + ms[1..];
    }
  }

  /** `moods.reduce((sum, m) => sum + m.mood, 0)`. */
  function Sum(ms: seq<MoodEntry>): int {
    if ms == [] then 0 else ms[0].mood + Sum(ms[1..])
  }

  /** Every mood lies between `lo` and `hi`. */
  predicate MoodsWithin(ms: seq<MoodEntry>, lo: int, hi: int) {
    forall i :: 0 <= i < |ms| ==> lo <= ms[i].mood <= hi
  }

  /** A sum of moods within `lo..hi` lies within `lo * n .. hi * n`. */
  lemma {:induction false} SumBounds(ms: seq<MoodEntry>, lo: int, hi: int)
    requires MoodsWithin(ms, lo, hi)
    ensures lo * |ms| <= Sum(ms) <= hi * |ms|
  {
    if ms != [] {
      assert MoodsWithin(ms[1..], lo, hi) by {
        forall i | 0 <= i < |ms[1..]| ensures lo <= ms[1..][i].mood <= hi {
          assert ms[1..][i] == ms[i + 1];
        }
      }
      SumBounds(ms[1..], lo, hi);
    }
  }

  /** The mean mood of a non-empty list: `sum / length`. */
  function Mean(ms: seq<MoodEntry>): real
    requires ms != []
  {
    (Sum(ms) as real) / (|ms| as real)
  }

  /** The mean of moods within `lo..hi` lies within `lo..hi`. */
  lemma MeanBounds(ms: seq<MoodEntry>, lo: int, hi: int)
    requires ms != [] && MoodsWithin(ms, lo, hi)
    ensures lo as real <= Mean(ms) <= hi as real
  {
    SumBounds(ms, lo, hi);
    QuotientBounds(Sum(ms) as real, |ms| as real, lo as real, hi as real);
  }

  /** Dividing a total that lies within `lo * n .. hi * n` by `n` lands within `lo..hi`. */
  lemma QuotientBounds(total: real, n: real, lo: real, hi: real)
    requires n > 0.0 && lo * n <= total <= hi * n
    ensures lo <= total / n <= hi
  {
    var q := total / n;
    assert q * n == total;
    assert (q - lo) * n >= 0.0;
    assert (hi - q) * n >= 0.0;
  }

  /** The check-ins whose local calendar day is `day`. */
  function DayMoods(ms: seq<MoodEntry>, day: string, dayOf: MoodEntry -> string): seq<MoodEntry> {
    Keep(ms, m => dayOf(m) == day)
  }

  /** A day's average for the chart: none without check-ins, otherwise their mean. */
  function DayAverage(ms: seq<MoodEntry>, day: string, dayOf: MoodEntry -> string): (r: Option<real>)
    ensures r.None? <==> DayMoods(ms, day, dayOf) == []
    ensures r.Some? ==> r.value * (|DayMoods(ms, day, dayOf)| as real) == Sum(DayMoods(ms, day, dayOf)) as real
  {
    var moods := DayMoods(ms, day, dayOf);
    if |moods| > 0 then Some(Mean(moods)) else None
  }

  /**
   * A day has an average exactly when some check-in falls on it, and with
   * moods on the 1..5 scale that average is on the scale too.
   */
  lemma DayAverageMeaning(ms: seq<MoodEntry>, day: string, dayOf: MoodEntry -> string)
    ensures DayAverage(ms, day, dayOf).Some? <==> exists m :: m in ms && dayOf(m) == day
    ensures MoodsWithin(ms, 1, 5) && DayAverage(ms, day, dayOf).Some? ==>
      1.0 <= DayAverage(ms, day, dayOf).value <= 5.0
  {
    var p := m => dayOf(m) == day;
    KeepMembers(ms, p);
    var moods := DayMoods(ms, day, dayOf);
    if moods != [] {
      assert moods[0] in moods;
      if MoodsWithin(ms, 1, 5) {
        assert MoodsWithin(moods, 1, 5) by {
          forall i | 0 <= i < |moods| ensures 1 <= moods[i].mood <= 5 {
            assert moods[i] in moods;
          }
        }
        MeanBounds(moods, 1, 5);
      }
    }
  }

  /** A day of `getLast7Days()`: its date string and its weekday (0 is Sunday). */
  type Weekday = w: nat | w < 7

  datatype Day = Day(dateString: string, weekday: Weekday)

  /** The short weekday name of the chart's axis, English or Spanish. */
  function DayName(language: string, weekday: Weekday): (r: string)
    ensures |r| == 3
  {
    if language == "en" then ["Sun", "Mon", "Tue", "Wed", "Thu", "Fri", "Sat"][weekday]
    else ["Dom", "Lun", "Mar", "Mié", "Jue", "Vie", "Sáb"][weekday]
  }

  /** Different weekdays get different names, in either language. */
  lemma DayNamesDistinct(language: string, a: Weekday, b: Weekday)
    ensures DayName(language, a) == DayName(language, b) <==> a == b
  {
  }

  /** One point of the weekly chart. */
  datatype ChartPoint = ChartPoint(day: string, mood: Option<real>, fullDate: string)

  /** The weekly chart: one point per day, labelled with its weekday and holding its average. */
  function Chart(language: string, days: seq<Day>, ms: seq<MoodEntry>, dayOf: MoodEntry -> string): (r: seq<ChartPoint>)
    ensures |r| == |days|
    ensures forall i :: 0 <= i < |days| ==>
      r[i].day == DayName(language, days[i].weekday) && r[i].fullDate == days[i].dateString
      && r[i].mood == DayAverage(ms, days[i].dateString, dayOf)
      && (r[i].mood.None? <==> DayMoods(ms, days[i].dateString, dayOf) == [])
  {
    if days == [] then []
    else
      var point := ChartPoint(DayName(language, days[0].weekday), DayAverage(ms, days[0].dateString, dayOf), days[0].dateString);
      [point] + Chart(language, days[1..], ms, dayOf)
  }

  /** `weeklyData.some(d => d.mood !== null)`: the chart is drawn rather than its empty message. */
  predicate HasChartData(chart: seq<ChartPoint>) {
    exists i :: 0 <= i < |chart| && chart[i].mood.Some?
  }

  /** The chart is drawn exactly when some check-in falls on one of the seven days. */
  lemma ChartShownIffCheckinInWeek(language: string, days: seq<Day>, ms: seq<MoodEntry>, dayOf: MoodEntry -> string)
    ensures HasChartData(Chart(language, days, ms, dayOf)) <==>
      exists i, m :: 0 <= i < |days| && m in ms && dayOf(m) == days[i].dateString
  {
    var chart := Chart(language, days, ms, dayOf);
    if HasChartData(chart) {
      var i :| 0 <= i < |chart| && chart[i].mood.Some?;
      DayAverageMeaning(ms, days[i].dateString, dayOf);
      var m :| m in ms && dayOf(m) == days[i].dateString;
      assert 0 <= i < |days| && m in ms && dayOf(m) == days[i].dateString;
    }
    if exists i, m :: 0 <= i < |days| && m in ms && dayOf(m) == days[i].dateString {
      var i, m :| 0 <= i < |days| && m in ms && dayOf(m) == days[i].dateString;
      DayAverageMeaning(ms, days[i].dateString, dayOf);
      assert chart[i].mood.Some?;
    }
  }

  /**
   * The average card's value: the number 0 without check-ins, otherwise the
   * `toFixed(1)` string of the mean, kept here as its whole number of tenths.
   */
  datatype Average = NoAverage | Rounded(tenths: int)

  /** The statistics cards: the week's average, its number of check-ins and the streak. */
  datatype Stats = Stats(average: Average, entries: nat, streak: int)

  /** `x.toFixed(1)` as a count of tenths: the nearest one, the larger on a tie. */
  function ToFixed1(x: real): (n: int)
    ensures (n as real) - 0.5 <= x * 10.0 < (n as real) + 0.5
  {
    (x * 10.0 + 0.5).Floor
  }

  /**
   * `getMoodEmoji(stats.average)`: the number 0 is falsy and shows the dash;
   * every `toFixed` string is truthy, and the comparisons read it back as a number.
   */
  function CardEmoji(a: Average): (r: string)
    ensures r == "—" <==> a.NoAverage?
    ensures a.Rounded? && a.tenths != 0 ==> r == MoodEmoji(Some((a.tenths as real) / 10.0))
    ensures a == Rounded(0) ==> r == Faces[0]
  {
    match a
    case NoAverage => "—"
    case Rounded(n) => Band((n as real) / 10.0)
  }

  /** The check-ins made at or after `weekAgo`. */
  function WeekMoods(ms: seq<MoodEntry>, weekAgo: int): seq<MoodEntry> {
    Keep(ms, (m: MoodEntry) => m.createdAt >= weekAgo)
  }

  /**
   * The cards: the week's count, the store's streak, and the week's mean
   * rounded to tenths (the number 0 without check-ins).
   */
  function WeekStats(ms: seq<MoodEntry>, weekAgo: int, streak: int): (r: Stats)
    ensures r.entries == |WeekMoods(ms, weekAgo)| && r.streak == streak
    ensures r.average.NoAverage? <==> r.entries == 0
    ensures r.average.Rounded? ==>
      var mean := (Sum(WeekMoods(ms, weekAgo)) as real) / (r.entries as real);
      r.average.tenths as real - 0.5 <= 10.0 * mean < r.average.tenths as real + 0.5
  {
    var week := WeekMoods(ms, weekAgo);
    if |week| > 0 then Stats(Rounded(ToFixed1(Mean(week))), |week|, streak)
    else Stats(NoAverage, 0, streak)
  }

  /**
   * With moods on the 1..5 scale, the average card shows a dash exactly when
   * the week has no check-in, and otherwise a value on the scale; the count
   * is zero exactly when no check-in is recent enough.
   */
  lemma WeekStatsMeaning(ms: seq<MoodEntry>, weekAgo: int, streak: int)
    requires MoodsWithin(ms, 1, 5)
    ensures WeekStats(ms, weekAgo, streak).entries == 0 <==> forall m :: m in ms ==> m.createdAt < weekAgo
    ensures WeekStats(ms, weekAgo, streak).entries > 0 ==> 10 <= WeekStats(ms, weekAgo, streak).average.tenths <= 50
    ensures CardEmoji(WeekStats(ms, weekAgo, streak).average) == "—" <==> WeekStats(ms, weekAgo, streak).entries == 0
  {
    var p := (m: MoodEntry) => m.createdAt >= weekAgo;
    KeepMembers(ms, p);
    var week := WeekMoods(ms, weekAgo);
    if week != [] {
      assert week[0] in week;
      assert MoodsWithin(week, 1, 5) by {
        forall i | 0 <= i < |week| ensures 1 <= week[i].mood <= 5 {
          assert week[i] in week;
        }
      }
      MeanBounds(week, 1, 5);
    }
  }

  /**
   * The card's face is chosen after rounding: it is the face of the mean
   * raised by 0.05, so a mean of 4.46 shows 😄 on the card and 🙂 in a chart
   * tooltip.
   */
  lemma CardFaceOfRoundedMean(x: real)
    ensures CardEmoji(Rounded(ToFixed1(x))) == Band(x + 0.05)
    ensures 4.45 <= x < 4.5 ==> CardEmoji(Rounded(ToFixed1(x))) == Faces[4] && MoodEmoji(Some(x)) == Faces[3]
  {
    var n := ToFixed1(x);
    var v := (n as real) / 10.0;
    assert v * 10.0 == n as real;
    BandThreshold(n, x, 45);
    BandThreshold(n, x, 35);
    BandThreshold(n, x, 25);
    BandThreshold(n, x, 15);
  }

  /** Rounding to tenths crosses the threshold `t` tenths exactly where the mean plus 0.05 does. */
  lemma BandThreshold(n: int, x: real, t: int)
    requires (n as real) - 0.5 <= x * 10.0 < (n as real) + 0.5
    ensures (n as real) / 10.0 >= (t as real) / 10.0 <==> x + 0.05 >= (t as real) / 10.0
  {
    if n >= t {
      assert (n as real) >= (t as real);
    } else {
      assert (n as real) <= (t as real) - 1.0;
    }
  }

  /** Milliseconds in a day. */
  const DayLength: int := 1000 * 60 * 60 * 24

  /** `Math.floor((now - date) / DayLength)`: the whole days elapsed, rounded down. */
  function DaysAgo(now: int, createdAt: int): (d: int)
    ensures d * DayLength <= now - createdAt < (d + 1) * DayLength
  {
    (now - createdAt) / DayLength
  }

  /**
   * `formatDate`: a word for today and yesterday, a count of days below a
   * week, the locale's calendar date (`localeDate`) from a week on.
   */
  function FormatDate(days: int, language: string, calendar: string -> string): (r: string)
    ensures days == 0 ==> r == (if language == "en" then "Today" else "Hoy")
    ensures days == 1 ==> r == (if language == "en" then "Yesterday" else "Ayer")
    ensures days < 7 && days != 0 && days != 1 ==>
      r == (if language == "en" then IntToString(days) + " days ago" else "Hace " + IntToString(days) + " días")
    ensures days >= 7 ==> r == calendar(LocaleOf(language))
  {
    if days == 0 then (if language == "en" then "Today" else "Hoy")
    else if days == 1 then (if language == "en" then "Yesterday" else "Ayer")
    else if days < 7 then
      (if language == "en" then IntToString(days) + " days ago" else "Hace " + IntToString(days) + " días")
    else calendar(LocaleOf(language))
  }

  /** The locale `formatDate` passes to `toLocaleDateString`. */
  function LocaleOf(language: string): (r: string)
    ensures r == "en-US" <==> language == "en"
    ensures r == "es-ES" <==> language != "en"
  {
    if language == "en" then "en-US" else "es-ES"
  }

  /** Distinct naturals render to distinct digit strings. */
  lemma NatToStringInjective(a: nat, b: nat)
    requires NatToString(a) == NatToString(b)
    ensures a == b
  {
    ParseNatToString(a);
    ParseNatToString(b);
  }

  /** Distinct integers render to distinct decimal strings. */
  lemma IntToStringInjective(a: int, b: int)
    requires IntToString(a) == IntToString(b)
    ensures a == b
  {
    if a < 0 {
      assert b < 0;
      assert NatToString(-a) == IntToString(a)[1..];
      assert NatToString(-b) == IntToString(b)[1..];
      NatToStringInjective(-a, -b);
    } else {
      assert b >= 0;
      NatToStringInjective(a, b);
    }
  }

  /** A prefix is recovered from the concatenation with a known suffix. */
  lemma SameSuffixCancels(a: string, b: string, s: string)
    requires a + s == b + s
    ensures a == b
  {
    assert a == (a + s)[..|a|];
    assert b == (b + s)[..|b|];
  }

  /** A prefix is recovered from the concatenation with a known prefix. */
  lemma SamePrefixCancels(p: string, a: string, b: string)
    requires p + a == p + b
    ensures a == b
  {
    assert a == (p + a)[|p|..];
    assert b == (p + b)[|p|..];
  }

  /**
   * Below a week the label names the day unambiguously: two check-ins of
   * fewer than seven days ago share a label only when they share the day count.
   */
  lemma RelativeLabelsIdentifyDay(language: string, d1: int, d2: int, cal1: string -> string, cal2: string -> string)
    requires d1 < 7 && d2 < 7
    ensures FormatDate(d1, language, cal1) == FormatDate(d2, language, cal2) <==> d1 == d2
  {
    var r1 := FormatDate(d1, language, cal1);
    var r2 := FormatDate(d2, language, cal2);
    if r1 == r2 && d1 != 0 && d1 != 1 && d2 != 0 && d2 != 1 {
      if language == "en" {
        SameSuffixCancels(IntToString(d1), IntToString(d2), " days ago");
      } else {
        assert "Hace " + IntToString(d1) + " días" == "Hace " + (IntToString(d1) + " días");
        assert "Hace " + IntToString(d2) + " días" == "Hace " + (IntToString(d2) + " días");
        SamePrefixCancels("Hace ", IntToString(d1) + " días", IntToString(d2) + " días");
        SameSuffixCancels(IntToString(d1), IntToString(d2), " días");
      }
      IntToStringInjective(d1, d2);
    }
  }

  /** `moodEntries.slice(0, 5)`: the newest five check-ins at most, in store order. */
  function Recent(ms: seq<MoodEntry>): (r: seq<MoodEntry>)
    ensures |r| == if |ms| < 5 then |ms| else 5
    ensures r == ms[..|r|]
  {
    if |ms| < 5 then ms else ms[..5]
  }

  /** A check-in added through the store heads the recent list; the oldest shown one drops off. */
  lemma RecentAfterAdd(s: Store.State, e: MoodEntry)
    ensures Recent(Store.AddMoodEntry(s, e).moodEntries)
      == [e] + Recent(s.moodEntries)[..if |s.moodEntries| < 4 then |s.moodEntries| else 4]
  {
    var old_ := s.moodEntries;
    var now := Store.AddMoodEntry(s, e).moodEntries;
    assert now == [e] + old_;
    var k := if |old_| < 4 then |old_| else 4;
    assert Recent(now) == [e] + old_[..k];
    assert Recent(old_)[..k] == old_[..k];
  }

  /** The translation key of a check-in's label: five named moods, everything else "Bad". */
  function MoodLabelKey(mood: int): (r: string)
    ensures r in ["moodGreat", "moodGood", "moodOkay", "moodLow", "moodBad"]
    ensures r == "moodBad" <==> !(2 <= mood <= 5)
    ensures mood == 5 ==> r == "moodGreat"
    ensures mood == 4 ==> r == "moodGood"
    ensures mood == 3 ==> r == "moodOkay"
    ensures mood == 2 ==> r == "moodLow"
  {
    if mood == 5 then "moodGreat"
    else if mood == 4 then "moodGood"
    else if mood == 3 then "moodOkay"
    else if mood == 2 then "moodLow"
    else "moodBad"
  }

  /** One row of the recent list. */
  datatype Row = Row(emoji: string, caption: Translations.Value, date: string, note: Option<string>)

  /** The row of a check-in: its face, its label, its relative date and its note when it has one. */
  function RowOf(e: MoodEntry, language: string, now: int, localeDate: (MoodEntry, string) -> string): (r: Row)
    ensures r.note.Some? <==> e.note != ""
  {
    Row(MoodEmoji(Some(e.mood as real)),
        Translations.GetTranslation(language, MoodLabelKey(e.mood)),
        FormatDate(DaysAgo(now, e.createdAt), language, locale => localeDate(e, locale)),
        if e.note != "" then Some(e.note) else None)
  }

  /** The recent list: one row per recent check-in, in the same order. */
  function RecentRows(ms: seq<MoodEntry>, language: string, now: int, localeDate: (MoodEntry, string) -> string): (r: seq<Row>)
    ensures |r| == |Recent(ms)|
    ensures forall i :: 0 <= i < |r| ==> r[i] == RowOf(ms[i], language, now, localeDate)
  {
    seq(|Recent(ms)|, i requires 0 <= i < |Recent(ms)| => RowOf(ms[i], language, now, localeDate))
  }

  /** The English labels of the five moods. */
  lemma EnglishMoodLabels()
    ensures Translations.GetTranslation("en", "moodGreat") == Translations.Text("Great")
    ensures Translations.GetTranslation("en", "moodGood") == Translations.Text("Good")
    ensures Translations.GetTranslation("en", "moodOkay") == Translations.Text("Okay")
    ensures Translations.GetTranslation("en", "moodLow") == Translations.Text("Low")
    ensures Translations.GetTranslation("en", "moodBad") == Translations.Text("Struggling")
  {
  }

  /** The Spanish labels of the five moods. */
  lemma SpanishMoodLabels()
    ensures Translations.GetTranslation("es", "moodGreat") == Translations.Text("Genial")
    ensures Translations.GetTranslation("es", "moodGood") == Translations.Text("Bien")
    ensures Translations.GetTranslation("es", "moodOkay") == Translations.Text("Regular")
    ensures Translations.GetTranslation("es", "moodLow") == Translations.Text("Bajo")
    ensures Translations.GetTranslation("es", "moodBad") == Translations.Text("Difícil")
  {
  }

  /** On the 1..5 scale the five moods get five different labels in every language. */
  lemma MoodLabelsDistinct(language: string, m: int, n: int)
    requires 1 <= m <= 5 && 1 <= n <= 5
    ensures Translations.GetTranslation(language, MoodLabelKey(m)) == Translations.GetTranslation(language, MoodLabelKey(n)) <==> m == n
  {
    if language == "es" {
      SpanishMoodLabels();
    } else {
      EnglishMoodLabels();
      if language != "en" {
        Translations.UnknownLanguageIsEnglish(language, MoodLabelKey(m));
        Translations.UnknownLanguageIsEnglish(language, MoodLabelKey(n));
      }
    }
  }

  /** Two rows carry the same label exactly when their check-ins have the same mood. */
  lemma RowLabelsMeaning(e: MoodEntry, f: MoodEntry, language: string, now: int, localeDate: (MoodEntry, string) -> string)
    requires 1 <= e.mood <= 5 && 1 <= f.mood <= 5
    ensures RowOf(e, language, now, localeDate).caption == RowOf(f, language, now, localeDate).caption <==> e.mood == f.mood
  {
    MoodLabelsDistinct(language, e.mood, f.mood);
  }

  /** The face on a row ranks as the entry's mood. */
  lemma RowFaceRank(e: MoodEntry, language: string, now: int, localeDate: (MoodEntry, string) -> string)
    requires 1 <= e.mood <= 5
    ensures FaceRank(RowOf(e, language, now, localeDate).emoji) == e.mood - 1
  {
    EmojiMatchesHome(e.mood);
  }
}
