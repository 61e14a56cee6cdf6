/**
 * How the steps meet: the rows `appendBillingRows` inserts are filled by
 * `populateTemplate` with the template variables `prepareTemplateData` built,
 * and `CreateDoc` runs the three in the order `createDocFromForm` does.
 */
module Pipeline {
  import opened Objects
  import opened Strings
  import opened Format
  import opened SnakeCase
  import opened BillingSchedule
  import opened TemplateVariables
  import opened Renderer

  /** Digits and minus signs are not braces. */
  lemma NumeralBraceFree(s: string)
    requires forall i :: 0 <= i < |s| ==> IsDigit(s[i]) || s[i] == '-'
    ensures BraceFree(s)
  {
  }

  /** A formatted date has digits, slashes and at most a minus sign: no braces. */
  lemma DateTextBraceFree(c: Calendar.Civil)
    ensures BraceFree(DateText(c))
  {
    Pad2Digits(c.month);
    Pad2Digits(c.day);
    IntTextDigits(c.year);
    NumeralBraceFree(Pad2(c.month));
    NumeralBraceFree(Pad2(c.day));
    NumeralBraceFree(IntText(c.year));
    assert BraceFree("/");
    BraceFreeConcat(Pad2(c.month), "/");
    BraceFreeConcat(Pad2(c.month) + "/", Pad2(c.day));
    BraceFreeConcat(Pad2(c.month) + "/" + Pad2(c.day), "/");
    BraceFreeConcat(Pad2(c.month) + "/" + Pad2(c.day) + "/", IntText(c.year));
  }

  /** A price text is `$` and digits, possibly negative, or `$NaN`: no braces. */
  lemma PriceTextBraceFree(price: Option<int>, factor: int)
    ensures BraceFree(PriceText(price, factor))
  {
    if price.Some? {
      CurrencyShape(price.value * factor);
    } else {
      var s := PriceText(price, factor);
      assert s == "$NaN";
    }
  }

  /** The billing keys begin with `B` and are longer than twelve characters. */
  lemma BillingKeyShape(n: nat)
    ensures |DayKey(n)| > 12 && |PriceKey(n)| > 12 && |HoursKey(n)| > 12
    ensures DayKey(n)[0] == 'B' && PriceKey(n)[0] == 'B' && HoursKey(n)[0] == 'B'
  {
  }

  /** The names of the aggregates are ALL_CAPS_SNAKE_CASE; only `BILLING_DAYS` begins with `B`, and it has twelve characters. */
  lemma AggregateShape(k: string)
    requires IsAggregate(k)
    ensures IsSnake(k) && |k| > 0 && (k[0] != 'B' || |k| == 12)
  {
    if k == CURRENT_DATE_KEY {
      assert IsSnake(CURRENT_DATE_KEY);
    } else if k == PRICE_PER_DAY_KEY {
      assert IsSnake(PRICE_PER_DAY_KEY);
    } else if k == HOURS_PER_DAY_KEY {
      assert IsSnake(HOURS_PER_DAY_KEY);
    } else if k == NUMBER_OF_BILLING_DAYS_KEY {
      assert IsSnake(NUMBER_OF_BILLING_DAYS_KEY);
    } else if k == BILLING_DAYS_KEY {
      assert IsSnake(BILLING_DAYS_KEY);
    } else {
      assert IsSnake(TOTAL_VARIABLE);
    }
  }

  /** The names of the aggregates are plain and none is a billing key. */
  lemma AggregatePlain(k: string, n: nat)
    requires IsAggregate(k)
    ensures PlainKey(k) && k !in [DayKey(n), PriceKey(n), HoursKey(n)]
  {
    BillingKeyShape(n);
    AggregateShape(k);
    SnakeIsPlain(k);
  }

  lemma TemplateWf(startDate: int, endDate: int, responseData: Obj<Value>, today: int)
    requires Wf(responseData)
    ensures Wf(TemplateData(startDate, endDate, responseData, today))
  {
    var price := Price(responseData);
    var billingDays := Schedule(startDate, endDate, price);
    CopiedWf(responseData, |responseData.keys|);
    WithAggregatesWf(Copied(responseData, |responseData.keys|), ToDateFmt(today), PriceText(price, HOURS_PER_DAY),
                     billingDays, PriceText(price, HOURS_PER_DAY * |billingDays|));
  }

  /** The passes over the billing records split at any record. */
  lemma {:induction false} AllRecordSubsSplit(days: seq<Obj<Value>>, k: nat, render: Entry -> string)
    requires k <= |days| && forall i :: 0 <= i < |days| ==> Wf(days[i])
    ensures AllRecordSubs(days, render) == AllRecordSubs(days[..k], render) + AllRecordSubs(days[k..], render)
    decreases |days|
  {
    if k == |days| {
      assert days[..k] == days && days[k..] == [];
    } else {
      var front := days[..|days| - 1];
      AllRecordSubsSplit(front, k, render);
      assert front[..k] == days[..k];
      assert days[k..][..|days[k..]| - 1] == front[k..];
      assert days[k..][|days[k..]| - 1] == days[|days| - 1];
      SubsAssociative(AllRecordSubs(days[..k], render), AllRecordSubs(front[k..], render), RecordSubs(days[|days| - 1], render));
    }
  }

  /** Records numbered from 1, each with the three keys of its number. */
  predicate Numbered(days: seq<Obj<Value>>)
  {
    forall j :: 0 <= j < |days| ==> Wf(days[j]) && days[j].keys == [DayKey(j + 1), PriceKey(j + 1), HoursKey(j + 1)]
  }

  /** Records built from any date texts are numbered from 1. */
  lemma RecordsNumbered(texts: seq<string>, dayPrice: string)
    ensures Numbered(Records(texts, dayPrice))
  {
    var s := Records(texts, dayPrice);
    RecordsLength(texts, dayPrice);
    forall j | 0 <= j < |s|
      ensures Wf(s[j]) && s[j].keys == [DayKey(j + 1), PriceKey(j + 1), HoursKey(j + 1)]
    {
      RecordsAt(texts, dayPrice, j);
      DayRecordFields(j + 1, texts[j], dayPrice);
    }
  }

  /** The schedule numbers its records from 1. */
  lemma ScheduleNumbered(lo: int, hi: int, price: Option<int>)
    ensures Numbered(Schedule(lo, hi, price))
  {
    RecordsNumbered(DateTexts(Weekdays(lo, hi)), PriceText(price, HOURS_PER_DAY));
  }

  /** The passes of numbered records before day `n` have plain keys other than day `n`'s. */
  lemma {:induction false} EarlierRecordKeys(days: seq<Obj<Value>>, render: Entry -> string, n: nat)
    requires Numbered(days) && |days| < n
    ensures forall i :: 0 <= i < |AllRecordSubs(days, render)| ==>
      PlainKey(AllRecordSubs(days, render)[i].0) && AllRecordSubs(days, render)[i].0 !in [DayKey(n), PriceKey(n), HoursKey(n)]
  {
    if days != [] {
      var k := |days|;
      var front := days[..k - 1];
      assert Numbered(front) by {
        forall j | 0 <= j < |front| ensures front[j] == days[j] { }
      }
      EarlierRecordKeys(front, render, n);
      var last := RecordSubs(days[k - 1], render);
      RecordKeysPlain(k);
      RecordKeysUnique(k, n);
      var all := AllRecordSubs(days, render);
      assert all == AllRecordSubs(front, render) + last;
      forall i | 0 <= i < |all|
        ensures PlainKey(all[i].0) && all[i].0 !in [DayKey(n), PriceKey(n), HoursKey(n)]
      {
        if i >= |AllRecordSubs(front, render)| {
          var m := i - |AllRecordSubs(front, render)|;
          assert all[i] == last[m];
          assert last[m].0 == days[k - 1].keys[m];
        }
      }
    }
  }

  /** No sheet column is named, once snake-cased, after a placeholder of billing day `n`. */
  predicate ColumnsAvoidDay(responseData: Obj<Value>, n: nat)
  {
    forall i :: 0 <= i < |responseData.keys| ==> ToSnakeCase(responseData.keys[i]) !in [DayKey(n), PriceKey(n), HoursKey(n)]
  }

  /** The passes of the template variables have plain keys other than day `n`'s, unless a sheet column names one. */
  lemma RootKeys(startDate: int, endDate: int, responseData: Obj<Value>, today: int, render: Entry -> string, n: nat)
    requires Wf(responseData)
    requires ColumnsAvoidDay(responseData, n)
    ensures Wf(TemplateData(startDate, endDate, responseData, today))
    ensures var subs := RootSubs(TemplateData(startDate, endDate, responseData, today), render);
      forall i :: 0 <= i < |subs| ==> PlainKey(subs[i].0) && subs[i].0 !in [DayKey(n), PriceKey(n), HoursKey(n)]
  {
    var td := TemplateData(startDate, endDate, responseData, today);
    TemplateWf(startDate, endDate, responseData, today);
    var subs := RootSubs(td, render);
    forall i | 0 <= i < |subs|
      ensures PlainKey(subs[i].0) && subs[i].0 !in [DayKey(n), PriceKey(n), HoursKey(n)]
    {
      var key := td.keys[i];
      assert subs[i].0 == key;
      TemplateKeys(startDate, endDate, responseData, today, key);
      if IsAggregate(key) {
        AggregatePlain(key, n);
      } else {
        var h :| 0 <= h < |responseData.keys| && SnakeKeys(responseData.keys)[h] == key;
        SnakeCaseChars(responseData.keys[h]);
        SnakeIsPlain(key);
      }
    }
  }

  /** `BILLING_DAYS` holds the schedule. */
  lemma TemplateBillingDays(startDate: int, endDate: int, responseData: Obj<Value>, today: int)
    requires Wf(responseData)
    ensures Find(TemplateData(startDate, endDate, responseData, today), BILLING_DAYS_KEY)
      == Some(Days(Schedule(startDate, endDate, Price(responseData))))
  {
    TemplateAggregates(startDate, endDate, responseData, today);
  }

  /** The passes of `populateTemplate` split around the record of day `n`. */
  lemma PopulateAround(templateData: Obj<Entry>, render: Entry -> string, days: seq<Obj<Value>>, n: nat)
    requires Wf(templateData) && Find(templateData, BILLING_DAYS_KEY) == Some(Days(days))
    requires Numbered(days) && 1 <= n <= |days|
    ensures BillingRecordsWf(templateData)
    ensures PopulateSubs(templateData, render)
      == (RootSubs(templateData, render) + AllRecordSubs(days[..n - 1], render)) + RecordSubs(days[n - 1], render)
         + AllRecordSubs(days[n..], render)
  {
    var root := RootSubs(templateData, render);
    var earlier := AllRecordSubs(days[..n - 1], render);
    var own := RecordSubs(days[n - 1], render);
    var later := AllRecordSubs(days[n..], render);
    AllRecordSubsSplit(days, n, render);
    AllRecordSubsStep(days, render, n - 1);
    assert AllRecordSubs(days, render) == (earlier + own) + later;
    SubsAssociative(root, earlier + own, later);
    SubsAssociative(root, earlier, own);
  }

  /** The template variables and the records before day `n` pass over keys other than day `n`'s. */
  lemma EarlierKeys(templateData: Obj<Entry>, render: Entry -> string, days: seq<Obj<Value>>, n: nat)
    requires Wf(templateData) && Numbered(days) && 1 <= n <= |days|
    requires forall i :: 0 <= i < |RootSubs(templateData, render)| ==>
      PlainKey(RootSubs(templateData, render)[i].0) && RootSubs(templateData, render)[i].0 !in [DayKey(n), PriceKey(n), HoursKey(n)]
    ensures var pre := RootSubs(templateData, render) + AllRecordSubs(days[..n - 1], render);
      forall i :: 0 <= i < |pre| ==> PlainKey(pre[i].0) && pre[i].0 !in [DayKey(n), PriceKey(n), HoursKey(n)]
  {
    var root := RootSubs(templateData, render);
    var front := days[..n - 1];
    assert Numbered(front) by {
      forall j | 0 <= j < |front| ensures front[j] == days[j] { }
    }
    var earlier := AllRecordSubs(front, render);
    EarlierRecordKeys(front, render, n);
    var pre := root + earlier;
    forall i | 0 <= i < |pre|
      ensures PlainKey(pre[i].0) && pre[i].0 !in [DayKey(n), PriceKey(n), HoursKey(n)]
    {
      if i >= |root| {
        assert pre[i] == earlier[i - |root|];
      }
    }
  }

  /** The row of day `n` filled by the passes of any template variables that carry numbered billing records. */
  lemma RowFilled(templateData: Obj<Entry>, render: Entry -> string, days: seq<Obj<Value>>, n: nat, dateText: string, dayPrice: string)
    requires Wf(templateData) && Find(templateData, BILLING_DAYS_KEY) == Some(Days(days))
    requires Numbered(days) && 1 <= n <= |days| && days[n - 1] == DayRecord(n, dateText, dayPrice)
    requires forall i :: 0 <= i < |RootSubs(templateData, render)| ==>
      PlainKey(RootSubs(templateData, render)[i].0) && RootSubs(templateData, render)[i].0 !in [DayKey(n), PriceKey(n), HoursKey(n)]
    requires BraceFree(dateText) && BraceFree(dayPrice) && BraceFree(render(Plain(Num(HOURS_PER_DAY))))
    ensures BillingRecordsWf(templateData)
    ensures && ApplyAll(BillingRow(n)[0], PopulateSubs(templateData, render)) == dateText
            && ApplyAll(BillingRow(n)[1], PopulateSubs(templateData, render)) == dayPrice + "/" + render(Plain(Num(HOURS_PER_DAY)))
  {
    var hours := render(Plain(Num(HOURS_PER_DAY)));
    var pre := RootSubs(templateData, render) + AllRecordSubs(days[..n - 1], render);
    PopulateAround(templateData, render, days, n);
    EarlierKeys(templateData, render, days, n);
    DayRecordSubs(n, dateText, dayPrice, render);
    BillingRowFilled(n, pre, dateText, dayPrice, hours, AllRecordSubs(days[n..], render));
  }

  /** What `prepareTemplateData` provides for the row of day `n`. */
  lemma InvoiceFacts(startDate: int, endDate: int, responseData: Obj<Value>, today: int, render: Entry -> string, n: nat)
    requires Wf(responseData)
    requires 1 <= n <= |Weekdays(startDate, endDate)|
    requires ColumnsAvoidDay(responseData, n)
    ensures var td := TemplateData(startDate, endDate, responseData, today);
      var s := Schedule(startDate, endDate, Price(responseData));
      && Wf(td) && Find(td, BILLING_DAYS_KEY) == Some(Days(s))
      && Numbered(s) && n <= |s|
      && s[n - 1] == DayRecord(n, ToDateFmt(Weekdays(startDate, endDate)[n - 1]), PriceText(Price(responseData), HOURS_PER_DAY))
      && (forall i :: 0 <= i < |RootSubs(td, render)| ==>
           PlainKey(RootSubs(td, render)[i].0) && RootSubs(td, render)[i].0 !in [DayKey(n), PriceKey(n), HoursKey(n)])
      && BraceFree(ToDateFmt(Weekdays(startDate, endDate)[n - 1]))
      && BraceFree(PriceText(Price(responseData), HOURS_PER_DAY))
  {
    var price := Price(responseData);
    RootKeys(startDate, endDate, responseData, today, render, n);
    TemplateBillingDays(startDate, endDate, responseData, today);
    ScheduleNumbered(startDate, endDate, price);
    ScheduleAt(startDate, endDate, price, n - 1);
    DateTextBraceFree(Calendar.CivilFromDays(Weekdays(startDate, endDate)[n - 1]));
    PriceTextBraceFree(price, HOURS_PER_DAY);
  }

  /**
   * After the rows are added and the template populated, the row of billing
   * day `n` reads the date of the `n`-th weekday and the day's price over
   * the hours, provided no sheet column is named after that day's placeholders
   * and numbers render without braces.
   */
  lemma InvoiceRowFilled(startDate: int, endDate: int, responseData: Obj<Value>, today: int, render: Entry -> string, n: nat)
    requires Wf(responseData)
    requires 1 <= n <= |Weekdays(startDate, endDate)|
    requires ColumnsAvoidDay(responseData, n)
    requires BraceFree(render(Plain(Num(HOURS_PER_DAY))))
    ensures Wf(TemplateData(startDate, endDate, responseData, today))
    ensures BillingRecordsWf(TemplateData(startDate, endDate, responseData, today))
    ensures var subs := PopulateSubs(TemplateData(startDate, endDate, responseData, today), render);
      && ApplyAll(BillingRow(n)[0], subs) == ToDateFmt(Weekdays(startDate, endDate)[n - 1])
      && ApplyAll(BillingRow(n)[1], subs)
         == PriceText(Price(responseData), HOURS_PER_DAY) + "/" + render(Plain(Num(HOURS_PER_DAY)))
  {
    var td := TemplateData(startDate, endDate, responseData, today);
    var price := Price(responseData);
    var s := Schedule(startDate, endDate, price);
    var day := Weekdays(startDate, endDate)[n - 1];
    InvoiceFacts(startDate, endDate, responseData, today, render, n);
    RowFilled(td, render, s, n, ToDateFmt(day), PriceText(price, HOURS_PER_DAY));
  }

  /** The text of the document after `appendBillingRows` has put `n` placeholder rows into its second table. */
  function WithRows(d: DocText, n: nat): (r: DocText)
    requires |d.tables| >= 2 && |d.tables[1]| > 0
    ensures r.header == d.header && r.body == d.body && |r.tables| == |d.tables|
    ensures forall t :: 0 <= t < |d.tables| && t != 1 ==> r.tables[t] == d.tables[t]
  {
    DocText(d.header, d.body, d.tables[1 := WithBillingRows(d.tables[1], n)])
  }

  /** Row `n` of the second table is `row`. */
  predicate RowIs(tables: seq<Table>, n: nat, row: seq<string>)
  {
    |tables| >= 2 && n < |tables[1]| && tables[1][n] == row
  }

  /** After the rows are added and any passes made, row `n` of the second table is day `n`'s two cells with the passes applied. */
  lemma RowAfterPasses(d: DocText, k: nat, subs: seq<(string, string)>, n: nat)
    requires |d.tables| >= 2 && |d.tables[1]| > 0 && 1 <= n <= k
    ensures RowIs(ApplyDoc(WithRows(d, k), subs).tables, n, [ApplyAll(BillingRow(n)[0], subs), ApplyAll(BillingRow(n)[1], subs)])
  {
    var w := WithRows(d, k);
    WithBillingRowsShape(d.tables[1], k);
    ApplyTablesCells(w.tables, subs);
    var row := ApplyDoc(w, subs).tables[1][n];
    assert w.tables[1][n] == BillingRow(n);
    assert |row| == 2 && row[0] == ApplyAll(BillingRow(n)[0], subs) && row[1] == ApplyAll(BillingRow(n)[1], subs);
  }

  /** The template variables carry the schedule under `BILLING_DAYS`, each record well formed. */
  lemma TemplateRecords(startDate: int, endDate: int, responseData: Obj<Value>, today: int)
    requires Wf(responseData)
    ensures BillingRecordsWf(TemplateData(startDate, endDate, responseData, today))
    ensures Find(TemplateData(startDate, endDate, responseData, today), BILLING_DAYS_KEY)
      == Some(Days(Schedule(startDate, endDate, Price(responseData))))
    ensures |Schedule(startDate, endDate, Price(responseData))| == |Weekdays(startDate, endDate)|
  {
    TemplateBillingDays(startDate, endDate, responseData, today);
    ScheduleNumbered(startDate, endDate, Price(responseData));
    ScheduleLength(startDate, endDate, Price(responseData));
  }

  /** The invoice row of every billing day `n`, once the rows are added to `d` and the template populated. */
  lemma DocRowsFilled(d: DocText, startDate: int, endDate: int, responseData: Obj<Value>, today: int, render: Entry -> string)
    requires |d.tables| >= 2 && |d.tables[1]| > 0 && Wf(responseData)
    requires BraceFree(render(Plain(Num(HOURS_PER_DAY))))
    ensures Wf(TemplateData(startDate, endDate, responseData, today))
    ensures BillingRecordsWf(TemplateData(startDate, endDate, responseData, today))
    ensures var u := ApplyDoc(WithRows(d, |Weekdays(startDate, endDate)|),
                              PopulateSubs(TemplateData(startDate, endDate, responseData, today), render));
      forall n :: 1 <= n <= |Weekdays(startDate, endDate)| && ColumnsAvoidDay(responseData, n) ==>
        RowIs(u.tables, n, [ToDateFmt(Weekdays(startDate, endDate)[n - 1]),
                            PriceText(Price(responseData), HOURS_PER_DAY) + "/" + render(Plain(Num(HOURS_PER_DAY)))])
  {
    TemplateWf(startDate, endDate, responseData, today);
    TemplateRecords(startDate, endDate, responseData, today);
    var subs := PopulateSubs(TemplateData(startDate, endDate, responseData, today), render);
    forall n | 1 <= n <= |Weekdays(startDate, endDate)| && ColumnsAvoidDay(responseData, n)
      ensures RowIs(ApplyDoc(WithRows(d, |Weekdays(startDate, endDate)|), subs).tables, n,
                    [ToDateFmt(Weekdays(startDate, endDate)[n - 1]),
                     PriceText(Price(responseData), HOURS_PER_DAY) + "/" + render(Plain(Num(HOURS_PER_DAY)))])
    {
      RowAfterPasses(d, |Weekdays(startDate, endDate)|, subs, n);
      InvoiceRowFilled(startDate, endDate, responseData, today, render, n);
    }
  }

  /**
   * `createDocFromForm` from the parsed record on, with the copy of the
   * template already opened as `doc`: the template variables are prepared,
   * the billing rows added, and the template populated. `ok` is false where
   * the source throws: when the document has fewer than two tables (nothing
   * is changed) or no header (the rows are added, and nothing more).
   */
  method CreateDoc(doc: Document, startDate: int, endDate: int, responseData: Obj<Value>, today: int, render: Entry -> string)
    returns (ok: bool)
    requires doc.Valid() && Wf(responseData) && PriceIsNumber(responseData)
    modifies doc
    ensures doc.Valid()
    ensures ok <==> |old(doc.tables)| >= 2 && old(doc.header).Some?
    ensures |old(doc.tables)| < 2 ==> doc.Contents() == old(doc.Contents())
    ensures |old(doc.tables)| >= 2 && old(doc.header).None? ==>
      doc.Contents() == WithRows(old(doc.Contents()), |Weekdays(startDate, endDate)|)
    ensures Wf(TemplateData(startDate, endDate, responseData, today))
    ensures BillingRecordsWf(TemplateData(startDate, endDate, responseData, today))
    ensures ok ==>
      doc.Contents() == ApplyDoc(WithRows(old(doc.Contents()), |Weekdays(startDate, endDate)|),
                                 PopulateSubs(TemplateData(startDate, endDate, responseData, today), render))
    ensures ok && BraceFree(render(Plain(Num(HOURS_PER_DAY)))) ==>
      forall n :: 1 <= n <= |Weekdays(startDate, endDate)| && ColumnsAvoidDay(responseData, n) ==>
        RowIs(doc.tables, n, [ToDateFmt(Weekdays(startDate, endDate)[n - 1]),
                              PriceText(Price(responseData), HOURS_PER_DAY) + "/" + render(Plain(Num(HOURS_PER_DAY)))])
  {
    ghost var start := doc.Contents();
    var templateData := PrepareTemplateData(startDate, endDate, responseData, today);
    TemplateRecords(startDate, endDate, responseData, today);
    var billing := Find(templateData, BILLING_DAYS_KEY);
    var days := billing.value.days;
    ok := doc.AppendBillingRows(days);
    if !ok {
      return;
    }
    assert doc.Contents() == WithRows(start, |days|);
    ok := doc.PopulateTemplate(templateData, render);
    if ok && BraceFree(render(Plain(Num(HOURS_PER_DAY)))) {
      DocRowsFilled(start, startDate, endDate, responseData, today, render);
    }
  }
}
