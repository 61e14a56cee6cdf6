/**
 * `generateBillingDays(startDate, endDate, price)`: one record per weekday
 * of the inclusive range, numbered from 1, each with the day's date, its
 * price and its hours.
 */
module BillingSchedule {
  import opened Objects
  import opened Strings
  import opened Calendar
  import opened Format

  const HOURS_PER_DAY: int := 8

  /**
   * `toCurrency(price * factor)`. A missing price is `undefined`, the product
   * is `NaN`, whose `toFixed` text is `NaN`.
   */
  function PriceText(price: Option<int>, factor: int): string
  {
    match price
    case None => CURRENCY_SIGN + "NaN"
    case Some(p) => ToCurrency(p * factor)
  }

  /** A known price reads back as price times factor; a missing one is the text `$NaN`, which reads as no amount. */
  lemma PriceTextMeaning(price: Option<int>, factor: int)
    ensures price.Some? ==> ParseCurrency(PriceText(price, factor)) == Some(price.value * factor)
    ensures price.None? ==> ParseCurrency(PriceText(price, factor)) == None
  {
    if price.Some? {
      CurrencyRoundTrip(price.value * factor);
    } else {
      assert PriceText(price, factor)[1..] == "NaN";
      assert !AllDigits("NaN") && "NaN"[0] != '-';
    }
  }

  /** Monday to Friday: `getDay()` is neither 0 (Sunday) nor 6 (Saturday). */
  predicate IsWeekday(d: int)
  {
    DayOfWeek(d) != 0 && DayOfWeek(d) != 6
  }

  /** Reference: the weekdays of the inclusive range `[lo, hi]`, in calendar order. */
  function Weekdays(lo: int, hi: int): seq<int>
    decreases if hi < lo then 0 else hi - lo + 1
  {
    if hi < lo then [] else Weekdays(lo, hi - 1) + (if IsWeekday(hi) then [hi] else [])
  }

  /** `BILLING_DAY_${n}`. */
  function DayKey(n: nat): string
  {
    "BILLING_DAY_" + NatText(n)
  }

  /** `BILLING_DAY_${n}_PRICE`. */
  function PriceKey(n: nat): string
  {
    DayKey(n) + "_PRICE"
  }

  /** `BILLING_DAY_${n}_HOURS`. */
  function HoursKey(n: nat): string
  {
    DayKey(n) + "_HOURS"
  }

  /** The three keys of a record are distinct. */
  lemma RecordKeysDistinct(n: nat)
    ensures DayKey(n) != PriceKey(n) && DayKey(n) != HoursKey(n) && PriceKey(n) != HoursKey(n)
  {
    assert |PriceKey(n)| == |DayKey(n)| + 6 == |HoursKey(n)|;
    assert PriceKey(n)[|DayKey(n)| + 1] == 'P' && HoursKey(n)[|DayKey(n)| + 1] == 'H';
  }

  /**
   * The record of the `n`-th billing day, whose date reads `dateText`;
   * `dayPrice` is the price text every record carries.
   */
  function DayRecord(n: nat, dateText: string, dayPrice: string): Obj<Value>
  {
    Obj([DayKey(n), PriceKey(n), HoursKey(n)],
        map[DayKey(n) := Text(dateText), PriceKey(n) := Text(dayPrice), HoursKey(n) := Num(HOURS_PER_DAY)])
  }

  /** Writing the three fields into `{}` one after the other builds the record. */
  lemma DayRecordBuilt(n: nat, dateText: string, dayPrice: string)
    ensures Set(Set(Set(Empty(), DayKey(n), Text(dateText)), PriceKey(n), Text(dayPrice)),
                HoursKey(n), Num(HOURS_PER_DAY))
      == DayRecord(n, dateText, dayPrice)
  {
    RecordKeysDistinct(n);
    SetThree(DayKey(n), Text(dateText), PriceKey(n), Text(dayPrice), HoursKey(n), Num(HOURS_PER_DAY));
  }

  /** The MM/DD/YYYY texts of the days `days`. */
  function DateTexts(days: seq<int>): seq<string>
  {
    if days == [] then [] else DateTexts(days[..|days| - 1]) + [ToDateFmt(days[|days| - 1])]
  }

  /** The records of billing days with the date texts `texts`, numbered from 1. */
  function Records(texts: seq<string>, dayPrice: string): seq<Obj<Value>>
  {
    if texts == [] then [] else Records(texts[..|texts| - 1], dayPrice) + [DayRecord(|texts|, texts[|texts| - 1], dayPrice)]
  }

  /** The schedule `generateBillingDays` builds for the range and the price. */
  function Schedule(startDate: int, endDate: int, price: Option<int>): seq<Obj<Value>>
  {
    Records(DateTexts(Weekdays(startDate, endDate)), PriceText(price, HOURS_PER_DAY))
  }

  /** `generateBillingDays(startDate, endDate, price)`. */
  method GenerateBillingDays(startDate: int, endDate: int, price: Option<int>)
    returns (billingDays: seq<Obj<Value>>)
    ensures billingDays == Schedule(startDate, endDate, price)
  {
    billingDays := [];
    var currentDate := startDate;
    var billingDayNumber := 1;
    while currentDate <= endDate
      invariant startDate <= currentDate
      invariant currentDate == startDate || currentDate <= endDate + 1
      invariant billingDays == Records(DateTexts(Weekdays(startDate, currentDate - 1)), PriceText(price, HOURS_PER_DAY))
      invariant billingDayNumber == |Weekdays(startDate, currentDate - 1)| + 1
      decreases endDate - currentDate
    {
      var dayOfWeek := DayOfWeek(currentDate);
      var currentBillingDay := Empty();
      if dayOfWeek != 0 && dayOfWeek != 6 {
        var dateText := ToDateFmt(currentDate);
        var dayPrice := PriceText(price, HOURS_PER_DAY);
        currentBillingDay := Set(currentBillingDay, DayKey(billingDayNumber), Text(dateText));
        currentBillingDay := Set(currentBillingDay, PriceKey(billingDayNumber), Text(dayPrice));
        currentBillingDay := Set(currentBillingDay, HoursKey(billingDayNumber), Num(HOURS_PER_DAY));
        DayRecordBuilt(billingDayNumber, dateText, dayPrice);
        ScheduleStep(startDate, currentDate, dayPrice);
        billingDays := billingDays + [currentBillingDay];
        billingDayNumber := billingDayNumber + 1;
      } else {
        ScheduleStep(startDate, currentDate, PriceText(price, HOURS_PER_DAY));
      }
      currentDate := currentDate + 1;
    }
  }

  /** One more day of the range adds its record when it is a weekday, and nothing otherwise. */
  lemma ScheduleStep(lo: int, d: int, dayPrice: string)
    requires lo <= d
    ensures IsWeekday(d) ==>
      && Records(DateTexts(Weekdays(lo, d)), dayPrice)
         == Records(DateTexts(Weekdays(lo, d - 1)), dayPrice) + [DayRecord(|Weekdays(lo, d - 1)| + 1, ToDateFmt(d), dayPrice)]
      && |Weekdays(lo, d)| == |Weekdays(lo, d - 1)| + 1
    ensures !IsWeekday(d) ==> Weekdays(lo, d) == Weekdays(lo, d - 1)
  {
    var w := Weekdays(lo, d - 1);
    if IsWeekday(d) {
      assert Weekdays(lo, d) == w + [d];
      DateTextsAppend(w, d);
      DateTextsLength(w);
      RecordsAppend(DateTexts(w), ToDateFmt(d), dayPrice);
    }
  }

  lemma {:induction false} DateTextsLength(days: seq<int>)
    ensures |DateTexts(days)| == |days|
  {
    if days != [] {
      DateTextsLength(days[..|days| - 1]);
    }
  }

  lemma DateTextsAppend(days: seq<int>, d: int)
    ensures DateTexts(days + [d]) == DateTexts(days) + [ToDateFmt(d)]
  {
    assert (days + [d])[..|days|] == days;
  }

  lemma {:induction false} RecordsLength(texts: seq<string>, dayPrice: string)
    ensures |Records(texts, dayPrice)| == |texts|
  {
    if texts != [] {
      RecordsLength(texts[..|texts| - 1], dayPrice);
    }
  }

  /** Numbering continues where the earlier records stop. */
  lemma RecordsAppend(texts: seq<string>, t: string, dayPrice: string)
    ensures Records(texts + [t], dayPrice) == Records(texts, dayPrice) + [DayRecord(|texts| + 1, t, dayPrice)]
  {
    assert (texts + [t])[..|texts|] == texts;
  }

  /** A day is listed exactly when it is a weekday of the range. */
  lemma {:induction false} WeekdaysMembers(lo: int, hi: int, d: int)
    ensures d in Weekdays(lo, hi) <==> lo <= d <= hi && IsWeekday(d)
    decreases if hi < lo then 0 else hi - lo + 1
  {
    if hi >= lo {
      WeekdaysMembers(lo, hi - 1, d);
    }
  }

  /** The days are listed in strictly increasing order, so none twice. */
  lemma {:induction false} WeekdaysIncreasing(lo: int, hi: int)
    ensures forall i, j :: 0 <= i < j < |Weekdays(lo, hi)| ==> Weekdays(lo, hi)[i] < Weekdays(lo, hi)[j]
    decreases if hi < lo then 0 else hi - lo + 1
  {
    if hi >= lo {
      WeekdaysIncreasing(lo, hi - 1);
      var w := Weekdays(lo, hi - 1);
      forall i | 0 <= i < |w| ensures w[i] < hi {
        WeekdaysMembers(lo, hi - 1, w[i]);
      }
    }
  }

  /** The weekdays of the range, as a set. */
  function WeekdaySet(lo: int, hi: int): set<int>
  {
    set d | lo <= d <= hi && IsWeekday(d)
  }

  /** There are exactly as many records as weekdays in the range. */
  lemma {:induction false} WeekdaysCount(lo: int, hi: int)
    ensures |Weekdays(lo, hi)| == |WeekdaySet(lo, hi)|
    decreases if hi < lo then 0 else hi - lo + 1
  {
    if hi < lo {
      assert WeekdaySet(lo, hi) == {};
    } else {
      WeekdaysCount(lo, hi - 1);
      if IsWeekday(hi) {
        assert WeekdaySet(lo, hi) == WeekdaySet(lo, hi - 1) + {hi};
      } else {
        assert WeekdaySet(lo, hi) == WeekdaySet(lo, hi - 1);
      }
    }
  }

  /** No record at all exactly when the range holds no weekday, in particular when it is empty. */
  lemma WeekdaysEmpty(lo: int, hi: int)
    ensures Weekdays(lo, hi) == [] <==> forall d :: lo <= d <= hi ==> !IsWeekday(d)
  {
    if Weekdays(lo, hi) != [] {
      WeekdaysMembers(lo, hi, Weekdays(lo, hi)[0]);
    } else {
      forall d | lo <= d <= hi ensures !IsWeekday(d) {
        WeekdaysMembers(lo, hi, d);
      }
    }
  }

  /** Any seven consecutive days hold five billing days. */
  lemma FullWeek(lo: int)
    ensures |Weekdays(lo, lo + 6)| == 5
  {
    assert |Weekdays(lo, lo)| == Weight(lo);
    assert |Weekdays(lo, lo + 1)| == |Weekdays(lo, lo)| + Weight(lo + 1);
    assert |Weekdays(lo, lo + 2)| == |Weekdays(lo, lo + 1)| + Weight(lo + 2);
    assert |Weekdays(lo, lo + 3)| == |Weekdays(lo, lo + 2)| + Weight(lo + 3);
    assert |Weekdays(lo, lo + 4)| == |Weekdays(lo, lo + 3)| + Weight(lo + 4);
    assert |Weekdays(lo, lo + 5)| == |Weekdays(lo, lo + 4)| + Weight(lo + 5);
    assert |Weekdays(lo, lo + 6)| == |Weekdays(lo, lo + 5)| + Weight(lo + 6);
    WeekWeights(lo);
  }

  /** Seven consecutive days are each day of the week once: five weekdays and a weekend. */
  lemma WeekWeights(lo: int)
    ensures Weight(lo) + Weight(lo + 1) + Weight(lo + 2) + Weight(lo + 3) + Weight(lo + 4) + Weight(lo + 5) + Weight(lo + 6) == 5
  {
    DayOfWeekNext(lo);
    DayOfWeekNext(lo + 1);
    DayOfWeekNext(lo + 2);
    DayOfWeekNext(lo + 3);
    DayOfWeekNext(lo + 4);
    DayOfWeekNext(lo + 5);
  }

  /** 1 for a weekday, 0 for a Saturday or Sunday. */
  function Weight(d: int): nat
  {
    if IsWeekday(d) then 1 else 0
  }

  lemma {:induction false} DateTextsAt(days: seq<int>, j: nat)
    requires j < |days|
    ensures |DateTexts(days)| == |days| && DateTexts(days)[j] == ToDateFmt(days[j])
  {
    DateTextsLength(days);
    if j < |days| - 1 {
      DateTextsAt(days[..|days| - 1], j);
    }
  }

  lemma {:induction false} RecordsAt(texts: seq<string>, dayPrice: string, j: nat)
    requires j < |texts|
    ensures |Records(texts, dayPrice)| == |texts| && Records(texts, dayPrice)[j] == DayRecord(j + 1, texts[j], dayPrice)
  {
    RecordsLength(texts, dayPrice);
    if j < |texts| - 1 {
      RecordsAt(texts[..|texts| - 1], dayPrice, j);
    }
  }

  /** The fields of a record, read back by key. */
  lemma DayRecordFields(n: nat, dateText: string, dayPrice: string)
    ensures var e := DayRecord(n, dateText, dayPrice);
      && Wf(e)
      && e.keys == [DayKey(n), PriceKey(n), HoursKey(n)]
      && Find(e, DayKey(n)) == Some(Text(dateText))
      && Find(e, PriceKey(n)) == Some(Text(dayPrice))
      && Find(e, HoursKey(n)) == Some(Num(HOURS_PER_DAY))
  {
    RecordKeysDistinct(n);
  }

  lemma ScheduleAt(lo: int, hi: int, price: Option<int>, j: nat)
    requires j < |Weekdays(lo, hi)|
    ensures |Schedule(lo, hi, price)| == |Weekdays(lo, hi)|
    ensures Schedule(lo, hi, price)[j] == DayRecord(j + 1, ToDateFmt(Weekdays(lo, hi)[j]), PriceText(price, HOURS_PER_DAY))
  {
    var w := Weekdays(lo, hi);
    DateTextsAt(w, j);
    RecordsAt(DateTexts(w), PriceText(price, HOURS_PER_DAY), j);
  }

  /** There is one record per weekday of the range. */
  lemma ScheduleLength(lo: int, hi: int, price: Option<int>)
    ensures |Schedule(lo, hi, price)| == |Weekdays(lo, hi)|
  {
    DateTextsLength(Weekdays(lo, hi));
    RecordsLength(DateTexts(Weekdays(lo, hi)), PriceText(price, HOURS_PER_DAY));
  }

  /**
   * Entry `j` (from 0) is the record of the `j`-th weekday of the range: it
   * has exactly the keys `BILLING_DAY_{j+1}`, `_PRICE` and `_HOURS`, the
   * first holding the day's MM/DD/YYYY text, the second the day price
   * `toCurrency(price * HOURS_PER_DAY)` and the third `HOURS_PER_DAY`.
   */
  lemma ScheduleEntry(lo: int, hi: int, price: Option<int>, j: nat)
    requires j < |Weekdays(lo, hi)|
    ensures |Schedule(lo, hi, price)| == |Weekdays(lo, hi)|
    ensures var e := Schedule(lo, hi, price)[j];
      var d := Weekdays(lo, hi)[j];
      && lo <= d <= hi && IsWeekday(d)
      && Wf(e)
      && e.keys == [DayKey(j + 1), PriceKey(j + 1), HoursKey(j + 1)]
      && Find(e, DayKey(j + 1)) == Some(Text(ToDateFmt(d)))
      && Find(e, PriceKey(j + 1)) == Some(Text(PriceText(price, HOURS_PER_DAY)))
      && Find(e, HoursKey(j + 1)) == Some(Num(HOURS_PER_DAY))
  {
    var w := Weekdays(lo, hi);
    ScheduleAt(lo, hi, price, j);
    WeekdaysMembers(lo, hi, w[j]);
    DayRecordFields(j + 1, ToDateFmt(w[j]), PriceText(price, HOURS_PER_DAY));
  }

  /** The calendar date an entry's `BILLING_DAY_n` text reads as. */
  function EntryDate(e: Obj<Value>, n: nat): Option<Civil>
  {
    var v := Find(e, DayKey(n));
    if v.Some? && v.value.Text? then ParseDateFmt(v.value.s) else None
  }

  /** The entries' dates are strictly increasing. */
  lemma ScheduleDatesIncreasing(lo: int, hi: int, price: Option<int>, i: nat, j: nat)
    requires i < j < |Schedule(lo, hi, price)|
    ensures EntryDate(Schedule(lo, hi, price)[i], i + 1).Some?
    ensures EntryDate(Schedule(lo, hi, price)[j], j + 1).Some?
    ensures Before(EntryDate(Schedule(lo, hi, price)[i], i + 1).value, EntryDate(Schedule(lo, hi, price)[j], j + 1).value)
  {
    var w := Weekdays(lo, hi);
    DateTextsLength(w);
    RecordsLength(DateTexts(w), PriceText(price, HOURS_PER_DAY));
    ScheduleEntry(lo, hi, price, i);
    ScheduleEntry(lo, hi, price, j);
    WeekdaysIncreasing(lo, hi);
    DateFmtRoundTrip(w[i]);
    DateFmtRoundTrip(w[j]);
    CivilIncreasing(w[i], w[j]);
  }

  /**
   * There is one entry per weekday of the inclusive range, and none exactly
   * when the range holds no weekday, in particular when it is empty.
   */
  lemma ScheduleSize(lo: int, hi: int, price: Option<int>)
    ensures |Schedule(lo, hi, price)| == |WeekdaySet(lo, hi)|
    ensures Schedule(lo, hi, price) == [] <==> forall d :: lo <= d <= hi ==> !IsWeekday(d)
    ensures hi < lo ==> Schedule(lo, hi, price) == []
  {
    var w := Weekdays(lo, hi);
    DateTextsLength(w);
    RecordsLength(DateTexts(w), PriceText(price, HOURS_PER_DAY));
    WeekdaysCount(lo, hi);
    WeekdaysEmpty(lo, hi);
  }

  lemma KeySuffixes(n: nat)
    ensures DayKey(n)[12..] == NatText(n)
    ensures PriceKey(n)[12..] == NatText(n) + "_PRICE"
    ensures HoursKey(n)[12..] == NatText(n) + "_HOURS"
  {
  }

  /** A numbered key is never a `_PRICE` or `_HOURS` key: it ends in a digit. */
  lemma DayKeyNotField(m: nat, n: nat)
    ensures DayKey(m) != PriceKey(n) && DayKey(m) != HoursKey(n)
  {
    NatTextDigits(m);
    var t := NatText(m);
    assert DayKey(m)[|DayKey(m)| - 1] == t[|t| - 1];
    assert IsDigit(t[|t| - 1]);
  }

  /** The keys of two different records are all different, so no record overwrites another's placeholder. */
  lemma RecordKeysUnique(m: nat, n: nat)
    requires m != n
    ensures DayKey(m) !in [DayKey(n), PriceKey(n), HoursKey(n)]
    ensures PriceKey(m) !in [DayKey(n), PriceKey(n), HoursKey(n)]
    ensures HoursKey(m) !in [DayKey(n), PriceKey(n), HoursKey(n)]
  {
    DayKeyNotField(m, n);
    DayKeyNotField(n, m);
    KeySuffixes(m);
    KeySuffixes(n);
    assert PriceKey(m)[..|PriceKey(m)| - 6] == DayKey(m) && HoursKey(m)[..|HoursKey(m)| - 6] == DayKey(m);
    assert PriceKey(n)[..|PriceKey(n)| - 6] == DayKey(n) && HoursKey(n)[..|HoursKey(n)| - 6] == DayKey(n);
    assert PriceKey(m)[|PriceKey(m)| - 1] == 'E' && HoursKey(m)[|HoursKey(m)| - 1] == 'S';
    assert PriceKey(n)[|PriceKey(n)| - 1] == 'E' && HoursKey(n)[|HoursKey(n)| - 1] == 'S';
    if DayKey(m) == DayKey(n) {
      NatTextInjective(m, n);
    }
  }
}
