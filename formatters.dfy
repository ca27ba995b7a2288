/** `formatTimeAgoLocalized` and `formatViews` of constants/index.ts. The
    time difference arrives as whole seconds (DiffInSeconds shows how it is
    obtained from two millisecond clocks); view counts are whole numbers. */
module Formatters {
  import opened Wrappers
  import opened Text

  // formatTimeAgoLocalized

  /** The words of one language. */
  datatype Translations = Translations(
    seconds: string,
    minute: string, minutes: string,
    hour: string, hours: string,
    day: string, days: string,
    week: string, weeks: string,
    month: string, months: string,
    year: string, years: string)

  const EnglishWords: Translations := Translations(
    "seconds ago", "minute ago", "minutes ago", "hour ago", "hours ago", "day ago", "days ago",
    "week ago", "weeks ago", "month ago", "months ago", "year ago", "years ago")

  const ArabicWords: Translations := Translations(
    "ثانية مضت", "دقيقة مضت", "دقائق مضت", "ساعة مضت", "ساعات مضت", "يوم مضى", "أيام مضت",
    "أسبوع مضى", "أسابيع مضت", "شهر مضى", "أشهر مضت", "سنة مضت", "سنوات مضت")

  const FrenchWords: Translations := Translations(
    "il y a secondes", "il y a une minute", "il y a minutes", "il y a une heure", "il y a heures",
    "il y a un jour", "il y a jours", "il y a une semaine", "il y a semaines",
    "il y a un mois", "il y a mois", "il y a un an", "il y a ans")

  /** `translations[lang] || translations.en`. */
  function TranslationsFor(lang: string): Translations {
    if lang == "ar" then ArabicWords else if lang == "fr" then FrenchWords else EnglishWords
  }

  /** `Math.floor((now.getTime() - date.getTime()) / 1000)`: Dafny's division
      by a positive divisor already rounds toward negative infinity. */
  function DiffInSeconds(nowMs: int, thenMs: int): (d: int)
    ensures d * 1000 <= nowMs - thenMs < d * 1000 + 1000
  {
    (nowMs - thenMs) / 1000
  }

  /** The thirteen words of a language. */
  function WordsOf(t: Translations): seq<string> {
    [t.seconds, t.minute, t.minutes, t.hour, t.hours, t.day, t.days,
     t.week, t.weeks, t.month, t.months, t.year, t.years]
  }

  /** `r` ends with a space followed by `w`. */
  predicate EndsWithWord(r: string, w: string) {
    |w| < |r| && r[|r| - |w| - 1..] == " " + w
  }

  lemma NumberThenWord(n: int, w: string)
    ensures EndsWithWord(IntToString(n) + " " + w, w)
  {
    var r := IntToString(n) + " " + w;
    assert r[|r| - |w| - 1..] == " " + w;
  }

  /** `formatTimeAgoLocalized(timestamp, lang)` given the difference in
      seconds: whatever the difference, the text ends with one of the words
      of the language (English for an unknown language). */
  function FormatTimeAgoLocalized(diffInSeconds: int, lang: string): (r: string)
    ensures exists w :: w in WordsOf(TranslationsFor(lang)) && EndsWithWord(r, w)
  {
    var t := TranslationsFor(lang);
    var (count, word) :=
      if diffInSeconds < 60 then
        (diffInSeconds, t.seconds)
      else if diffInSeconds < 3600 then
        var minutes := diffInSeconds / 60;
        (minutes, if minutes > 1 then t.minutes else t.minute)
      else if diffInSeconds < 86400 then
        var hours := diffInSeconds / 3600;
        (hours, if hours > 1 then t.hours else t.hour)
      else if diffInSeconds < 604800 then
        var days := diffInSeconds / 86400;
        (days, if days > 1 then t.days else t.day)
      else if diffInSeconds < 2592000 then
        var weeks := diffInSeconds / 604800;
        (weeks, if weeks > 1 then t.weeks else t.week)
      else if diffInSeconds < 31536000 then
        var months := diffInSeconds / 2592000;
        (months, if months > 1 then t.months else t.month)
      else
        var years := diffInSeconds / 31536000;
        (years, if years > 1 then t.years else t.year);
    NumberThenWord(count, word);
    assert word in WordsOf(t);
    IntToString(count) + " " + word
  }

  /** The units the text can be in, from the finest. */
  datatype Unit = Minute | Hour | Day | Week | Month | Year

  /** Seconds per unit; a month is thirty days and a year 365. */
  function UnitSeconds(u: Unit): (n: nat)
    ensures n >= 60
  {
    match u
    case Minute => 60
    case Hour => 3600
    case Day => 86400
    case Week => 604800
    case Month => 2592000
    case Year => 31536000
  }

  /** The first difference that is too large for the unit (none for years). */
  function UnitLimit(u: Unit): nat {
    match u
    case Minute => UnitSeconds(Hour)
    case Hour => UnitSeconds(Day)
    case Day => UnitSeconds(Week)
    case Week => UnitSeconds(Month)
    case Month => UnitSeconds(Year)
    case Year => 0
  }

  /** A difference is shown in unit `u` when it is at least one `u` and
      below the next unit's threshold. */
  predicate InBucket(diff: int, u: Unit) {
    UnitSeconds(u) <= diff && (u == Year || diff < UnitLimit(u))
  }

  /** The singular word for a count of one, the plural word above one. */
  function Word(t: Translations, u: Unit, count: int): string {
    match u
    case Minute => if count > 1 then t.minutes else t.minute
    case Hour => if count > 1 then t.hours else t.hour
    case Day => if count > 1 then t.days else t.day
    case Week => if count > 1 then t.weeks else t.week
    case Month => if count > 1 then t.months else t.month
    case Year => if count > 1 then t.years else t.year
  }

  /** Below a minute, including negative differences from timestamps in the
      future, the number of seconds is printed as it is, with no clamping. */
  lemma SecondsShownUnclamped(diff: int, lang: string)
    requires diff < 60
    ensures FormatTimeAgoLocalized(diff, lang) == IntToString(diff) + " " + TranslationsFor(lang).seconds
  {
  }

  /** Every difference of a minute or more lies in exactly one bucket. */
  lemma BucketsPartition(diff: int)
    requires diff >= 60
    ensures exists u :: InBucket(diff, u)
    ensures forall u, v :: InBucket(diff, u) && InBucket(diff, v) ==> u == v
  {
    if diff < 3600 { assert InBucket(diff, Minute); }
    else if diff < 86400 { assert InBucket(diff, Hour); }
    else if diff < 604800 { assert InBucket(diff, Day); }
    else if diff < 2592000 { assert InBucket(diff, Week); }
    else if diff < 31536000 { assert InBucket(diff, Month); }
    else { assert InBucket(diff, Year); }
  }

  /** In the bucket of unit `u` the text is the whole number of `u`s
      (rounded down, at least one) followed by the singular or plural word. */
  lemma BucketText(diff: int, u: Unit, lang: string)
    requires InBucket(diff, u)
    ensures var count := diff / UnitSeconds(u);
            && count >= 1
            && count * UnitSeconds(u) <= diff < (count + 1) * UnitSeconds(u)
            && FormatTimeAgoLocalized(diff, lang)
               == IntToString(count) + " " + Word(TranslationsFor(lang), u, count)
  {
  }

  /** The word is plural exactly when at least two whole units have passed. */
  lemma PluralIffTwoUnits(diff: int, u: Unit)
    requires InBucket(diff, u)
    ensures var count := diff / UnitSeconds(u);
            count > 1 <==> diff >= 2 * UnitSeconds(u)
  {
  }

  /** The text starts with the decimal count, which reads back as the count,
      followed by a space. */
  lemma CountReadsBack(diff: int, lang: string)
    ensures var count := if diff < 60 then diff else diff / UnitSeconds(UnitFor(diff));
            var r := FormatTimeAgoLocalized(diff, lang);
            var k := |IntToString(count)|;
            && k < |r| && r[k] == ' '
            && ParseInt(r[..k]) == count
  {
    var count := if diff < 60 then diff else diff / UnitSeconds(UnitFor(diff));
    if diff >= 60 {
      BucketText(diff, UnitFor(diff), lang);
    }
    var r := FormatTimeAgoLocalized(diff, lang);
    var k := |IntToString(count)|;
    assert r[..k] == IntToString(count);
    IntToStringRoundTrip(count);
  }

  /** The bucket of a difference of at least a minute. */
  function UnitFor(diff: int): (u: Unit)
    requires diff >= 60
    ensures InBucket(diff, u)
  {
    if diff < 3600 then Minute
    else if diff < 86400 then Hour
    else if diff < 604800 then Day
    else if diff < 2592000 then Week
    else if diff < 31536000 then Month
    else Year
  }

  // formatViews

  /** One entry of `thresholds`: the value and the per-language suffixes. */
  datatype Threshold = Threshold(value: nat, en: string, ar: string, fr: string)

  const Thresholds: seq<Threshold> := [
    Threshold(1_000_000, "M", "م", "M"),
    Threshold(1_000, "k", "ألف", "k")
  ]

  /** `threshold.suffix[lang] || threshold.suffix["en"]`. */
  function SuffixFor(th: Threshold, lang: string): string {
    if lang == "ar" && th.ar != "" then th.ar
    else if lang == "fr" && th.fr != "" then th.fr
    else th.en
  }

  /** What `formatViews` returns. `OneDecimal` stands for the text
      `(views / threshold).toFixed(1)` without a trailing ".0", followed by
      the suffix, whose decimal rounding is not modelled. */
  datatype ViewsLabel = Exact(text: string) | OneDecimal(views: int, threshold: nat, suffix: string)

  /** The `for (const threshold of thresholds)` search: the first threshold
      the count reaches, rendered; none means the count is returned as it is. */
  function FirstReached(ths: seq<Threshold>, views: int, lang: string): (r: Option<ViewsLabel>)
    requires forall i :: 0 <= i < |ths| ==> ths[i].value > 0
    ensures r.Some? && r.value.OneDecimal? ==>
              && r.value.views == views && r.value.threshold > 0
              && views >= r.value.threshold && views % r.value.threshold != 0
              && exists th :: th in ths && th.value == r.value.threshold
  {
    if ths == [] then None
    else if views >= ths[0].value then
      var th := ths[0];
      Some(if views % th.value == 0 then Exact(NatToString(views / th.value) + SuffixFor(th, lang))
           else OneDecimal(views, th.value, SuffixFor(th, lang)))
    else
      assert forall th :: th in ths[1..] ==> th in ths;
      FirstReached(ths[1..], views, lang)
  }

  /** `formatViews(views, lang)`: the one-decimal form appears only for a
      count of at least a thousand that is not a whole number of the
      threshold it reached. */
  function FormatViews(views: int, lang: string): (r: ViewsLabel)
    ensures r.OneDecimal? ==> && r.views == views && views >= 1000 && r.threshold > 0
                              && views >= r.threshold && views % r.threshold != 0
    ensures views < 0 ==> r == Exact("0")
  {
    if views < 0 then Exact("0")
    else match FirstReached(Thresholds, views, lang)
      case Some(shown) => shown
      case None => Exact(NatToString(views))
  }

  /** A negative count is shown as "0", a count below a thousand as its own
      decimal numeral. */
  lemma SmallViews(views: int, lang: string)
    requires views < 1000
    ensures FormatViews(views, lang) == Exact(if views < 0 then "0" else NatToString(views))
    ensures views >= 0 ==> ParseDigits(FormatViews(views, lang).text) == views
  {
    if views >= 0 {
      assert Thresholds[1..][1..] == [];
      assert FirstReached(Thresholds, views, lang) == FirstReached(Thresholds[1..], views, lang)
             == FirstReached(Thresholds[1..][1..], views, lang) == None;
      ParseNatToString(views);
    }
  }

  /** The suffix is chosen by the largest threshold reached: millions from
      1,000,000 on, thousands from 1,000 to 999,999. */
  lemma SuffixChoice(views: int, lang: string)
    requires views >= 1000
    ensures var th := if views >= 1_000_000 then Thresholds[0] else Thresholds[1];
            var suffix := SuffixFor(th, lang);
            FormatViews(views, lang)
            == if views % th.value == 0 then Exact(NatToString(views / th.value) + suffix)
               else OneDecimal(views, th.value, suffix)
  {
    if views < 1_000_000 {
      assert Thresholds[1..][0] == Thresholds[1];
      assert FirstReached(Thresholds, views, lang) == FirstReached(Thresholds[1..], views, lang);
    }
  }

  /** A language without its own suffix gets the English one. */
  lemma SuffixFallsBackToEnglish(th: Threshold, lang: string)
    requires lang != "ar" && lang != "fr"
    ensures SuffixFor(th, lang) == th.en
  {
  }

  /** An exact multiple loses its ".0": 1,000 is "1k" and 2,000,000 is "2M". */
  lemma ExactMultiples()
    ensures FormatViews(1000, "en") == Exact("1k")
    ensures FormatViews(2_000_000, "en") == Exact("2M")
    ensures FormatViews(5000, "ar") == Exact("5ألف")
  {
    SuffixChoice(1000, "en");
    SuffixChoice(2_000_000, "en");
    SuffixChoice(5000, "ar");
  }
}
