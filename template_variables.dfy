/**
 * `prepareTemplateData(startDate, endDate, responseData)`: the placeholder
 * variables of the invoice. The parsed keys are copied under their
 * ALL_CAPS_SNAKE_CASE names first; the aggregates written after them
 * overwrite any copied key of the same name.
 */
module TemplateVariables {
  import opened Objects
  import opened Strings
  import opened Format
  import opened SnakeCase
  import opened RecordParser
  import opened BillingSchedule

  /** A template variable: a single value, or the list of billing-day records. */
  datatype Entry = Plain(value: Value) | Days(days: seq<Obj<Value>>)

  const CURRENT_DATE_KEY := "CURRENT_DATE"
  const PRICE_PER_DAY_KEY := "PRICE_PER_DAY"
  const HOURS_PER_DAY_KEY := "HOURS_PER_DAY"
  const NUMBER_OF_BILLING_DAYS_KEY := "NUMBER_OF_BILLING_DAYS"
  const BILLING_DAYS_KEY := "BILLING_DAYS"
  const TOTAL_VARIABLE := "TOTAL"

  /** The names the aggregates are written under. */
  predicate IsAggregate(k: string)
  {
    k == CURRENT_DATE_KEY || k == PRICE_PER_DAY_KEY || k == HOURS_PER_DAY_KEY
    || k == NUMBER_OF_BILLING_DAYS_KEY || k == BILLING_DAYS_KEY || k == TOTAL_VARIABLE
  }

  /** `responseData.price` is a number whenever it is present. */
  predicate PriceIsNumber(responseData: Obj<Value>)
  {
    Find(responseData, PRICE_MARK).None? || Find(responseData, PRICE_MARK).value.Num?
  }

  /** `responseData.price`: the amount, or None when it is `undefined`. */
  function Price(responseData: Obj<Value>): Option<int>
  {
    match Find(responseData, PRICE_MARK)
    case Some(v) => if v.Num? then Some(v.n) else None
    case None => None
  }

  /** The variables after the `forEach` has copied the first `n` keys. */
  function Copied(responseData: Obj<Value>, n: nat): Obj<Entry>
    requires Wf(responseData) && n <= |responseData.keys|
  {
    if n == 0 then Empty()
    else
      var key := responseData.keys[n - 1];
      Set(Copied(responseData, n - 1), ToSnakeCase(key), Plain(responseData.vals[key]))
  }

  /** The aggregates written, in order, over the copied variables. */
  function WithAggregates(copied: Obj<Entry>, currentDate: string, dayPrice: string, billingDays: seq<Obj<Value>>, total: string): Obj<Entry>
  {
    var t1 := Set(copied, CURRENT_DATE_KEY, Plain(Text(currentDate)));
    var t2 := Set(t1, PRICE_PER_DAY_KEY, Plain(Text(dayPrice)));
    var t3 := Set(t2, HOURS_PER_DAY_KEY, Plain(Num(HOURS_PER_DAY)));
    var t4 := Set(t3, NUMBER_OF_BILLING_DAYS_KEY, Plain(Num(|billingDays|)));
    var t5 := Set(t4, BILLING_DAYS_KEY, Days(billingDays));
    Set(t5, TOTAL_VARIABLE, Plain(Text(total)))
  }

  /** The variables `prepareTemplateData` returns; `today` is the date of `new Date()`. */
  function TemplateData(startDate: int, endDate: int, responseData: Obj<Value>, today: int): Obj<Entry>
    requires Wf(responseData)
  {
    var price := Price(responseData);
    var billingDays := Schedule(startDate, endDate, price);
    WithAggregates(Copied(responseData, |responseData.keys|), ToDateFmt(today), PriceText(price, HOURS_PER_DAY),
                   billingDays, PriceText(price, HOURS_PER_DAY * |billingDays|))
  }

  /** `prepareTemplateData(startDate, endDate, responseData)`, with today's date as a parameter. */
  method PrepareTemplateData(startDate: int, endDate: int, responseData: Obj<Value>, today: int)
    returns (templateData: Obj<Entry>)
    requires Wf(responseData) && PriceIsNumber(responseData)
    ensures templateData == TemplateData(startDate, endDate, responseData, today)
    ensures Wf(templateData)
  {
    templateData := Empty();
    for i := 0 to |responseData.keys|
      invariant templateData == Copied(responseData, i)
    {
      var key := responseData.keys[i];
      var snakeCaseKey := ToSnakeCase(key);
      templateData := Set(templateData, snakeCaseKey, Plain(responseData.vals[key]));
    }
    var copied := templateData;
    var price := Price(responseData);
    templateData := Set(templateData, CURRENT_DATE_KEY, Plain(Text(ToDateFmt(today))));
    templateData := Set(templateData, PRICE_PER_DAY_KEY, Plain(Text(PriceText(price, HOURS_PER_DAY))));
    templateData := Set(templateData, HOURS_PER_DAY_KEY, Plain(Num(HOURS_PER_DAY)));
    var billingDays := GenerateBillingDays(startDate, endDate, price);
    var numberOfBillingDays := |billingDays|;
    templateData := Set(templateData, NUMBER_OF_BILLING_DAYS_KEY, Plain(Num(numberOfBillingDays)));
    templateData := Set(templateData, BILLING_DAYS_KEY, Days(billingDays));
    templateData := Set(templateData, TOTAL_VARIABLE, Plain(Text(PriceText(price, HOURS_PER_DAY * numberOfBillingDays))));
    assert templateData == WithAggregates(copied, ToDateFmt(today), PriceText(price, HOURS_PER_DAY),
                                          billingDays, PriceText(price, HOURS_PER_DAY * numberOfBillingDays));
    CopiedWf(responseData, |responseData.keys|);
    WithAggregatesWf(copied, ToDateFmt(today), PriceText(price, HOURS_PER_DAY),
                     billingDays, PriceText(price, HOURS_PER_DAY * numberOfBillingDays));
  }

  lemma {:induction false} CopiedWf(responseData: Obj<Value>, n: nat)
    requires Wf(responseData) && n <= |responseData.keys|
    ensures Wf(Copied(responseData, n))
  {
    if n > 0 {
      CopiedWf(responseData, n - 1);
      var key := responseData.keys[n - 1];
      SetWf(Copied(responseData, n - 1), ToSnakeCase(key), Plain(responseData.vals[key]));
    }
  }

  lemma WithAggregatesWf(copied: Obj<Entry>, currentDate: string, dayPrice: string, billingDays: seq<Obj<Value>>, total: string)
    requires Wf(copied)
    ensures Wf(WithAggregates(copied, currentDate, dayPrice, billingDays, total))
  {
    var t1 := Set(copied, CURRENT_DATE_KEY, Plain(Text(currentDate)));
    var t2 := Set(t1, PRICE_PER_DAY_KEY, Plain(Text(dayPrice)));
    var t3 := Set(t2, HOURS_PER_DAY_KEY, Plain(Num(HOURS_PER_DAY)));
    var t4 := Set(t3, NUMBER_OF_BILLING_DAYS_KEY, Plain(Num(|billingDays|)));
    var t5 := Set(t4, BILLING_DAYS_KEY, Days(billingDays));
    SetWf(copied, CURRENT_DATE_KEY, Plain(Text(currentDate)));
    SetWf(t1, PRICE_PER_DAY_KEY, Plain(Text(dayPrice)));
    SetWf(t2, HOURS_PER_DAY_KEY, Plain(Num(HOURS_PER_DAY)));
    SetWf(t3, NUMBER_OF_BILLING_DAYS_KEY, Plain(Num(|billingDays|)));
    SetWf(t4, BILLING_DAYS_KEY, Days(billingDays));
    SetWf(t5, TOTAL_VARIABLE, Plain(Text(total)));
  }

  /** The aggregates read back as written, whatever was copied before them. */
  lemma AggregatesRead(copied: Obj<Entry>, currentDate: string, dayPrice: string, billingDays: seq<Obj<Value>>, total: string)
    ensures var t := WithAggregates(copied, currentDate, dayPrice, billingDays, total);
      && Find(t, CURRENT_DATE_KEY) == Some(Plain(Text(currentDate)))
      && Find(t, PRICE_PER_DAY_KEY) == Some(Plain(Text(dayPrice)))
      && Find(t, HOURS_PER_DAY_KEY) == Some(Plain(Num(HOURS_PER_DAY)))
      && Find(t, NUMBER_OF_BILLING_DAYS_KEY) == Some(Plain(Num(|billingDays|)))
      && Find(t, BILLING_DAYS_KEY) == Some(Days(billingDays))
      && Find(t, TOTAL_VARIABLE) == Some(Plain(Text(total)))
  {
  }

  /** A name that is not an aggregate reads as it was copied. */
  lemma AggregatesKeepOthers(copied: Obj<Entry>, currentDate: string, dayPrice: string, billingDays: seq<Obj<Value>>, total: string, k: string)
    requires !IsAggregate(k)
    ensures Find(WithAggregates(copied, currentDate, dayPrice, billingDays, total), k) == Find(copied, k)
  {
  }

  /**
   * With `n` billing days in the range: `NUMBER_OF_BILLING_DAYS` is `n`,
   * `BILLING_DAYS` is the schedule, `PRICE_PER_DAY` is
   * `toCurrency(price * HOURS_PER_DAY)`, `HOURS_PER_DAY` is 8, `TOTAL` is
   * `toCurrency(price * HOURS_PER_DAY * n)` and `CURRENT_DATE` is today's
   * MM/DD/YYYY text.
   */
  lemma TemplateAggregates(startDate: int, endDate: int, responseData: Obj<Value>, today: int)
    requires Wf(responseData)
    ensures var t := TemplateData(startDate, endDate, responseData, today);
      var price := Price(responseData);
      var n := |WeekdaySet(startDate, endDate)|;
      && Find(t, NUMBER_OF_BILLING_DAYS_KEY) == Some(Plain(Num(n)))
      && Find(t, BILLING_DAYS_KEY) == Some(Days(Schedule(startDate, endDate, price)))
      && Find(t, PRICE_PER_DAY_KEY) == Some(Plain(Text(PriceText(price, HOURS_PER_DAY))))
      && Find(t, HOURS_PER_DAY_KEY) == Some(Plain(Num(HOURS_PER_DAY)))
      && Find(t, TOTAL_VARIABLE) == Some(Plain(Text(PriceText(price, HOURS_PER_DAY * n))))
      && Find(t, CURRENT_DATE_KEY) == Some(Plain(Text(ToDateFmt(today))))
  {
    var price := Price(responseData);
    ScheduleSize(startDate, endDate, price);
    var billingDays := Schedule(startDate, endDate, price);
    AggregatesRead(Copied(responseData, |responseData.keys|), ToDateFmt(today), PriceText(price, HOURS_PER_DAY),
                   billingDays, PriceText(price, HOURS_PER_DAY * |billingDays|));
  }

  /** The total text for `n` days: `p * HOURS_PER_DAY * n` for a known price `p`, `$NaN` without one. */
  lemma TotalText(price: Option<int>, n: nat)
    ensures price.Some? ==> ParseCurrency(PriceText(price, HOURS_PER_DAY * n)) == Some(price.value * HOURS_PER_DAY * n)
    ensures price.None? ==> PriceText(price, HOURS_PER_DAY * n) == "$NaN"
  {
    PriceTextMeaning(price, HOURS_PER_DAY * n);
    if price.Some? {
      TotalProduct(price.value, n);
    }
  }

  /**
   * Regrouping the total's product, stated once on its own so that the
   * nonlinear step stays out of the larger proofs that use it.
   */
  lemma TotalProduct(p: int, n: int)
    ensures p * (HOURS_PER_DAY * n) == p * HOURS_PER_DAY * n
  {
  }

  /** With a known price `p`, the total reads back as `p * HOURS_PER_DAY * n`; without one it is `$NaN`. */
  lemma TemplateTotal(startDate: int, endDate: int, responseData: Obj<Value>, today: int)
    requires Wf(responseData)
    ensures var n := |WeekdaySet(startDate, endDate)|;
      var total := PriceText(Price(responseData), HOURS_PER_DAY * n);
      && Find(TemplateData(startDate, endDate, responseData, today), TOTAL_VARIABLE) == Some(Plain(Text(total)))
      && (Price(responseData).Some? ==> ParseCurrency(total) == Some(Price(responseData).value * HOURS_PER_DAY * n))
      && (Price(responseData).None? ==> total == "$NaN")
  {
    TemplateAggregates(startDate, endDate, responseData, today);
    TotalText(Price(responseData), |WeekdaySet(startDate, endDate)|);
  }

  /** The position of the last of the first `n` keys whose snake-cased name is `s`. */
  function LastSnake(keys: seq<string>, n: nat, s: string): (r: Option<nat>)
    requires n <= |keys|
    ensures r.Some? ==> r.value < n
  {
    if n == 0 then None
    else if ToSnakeCase(keys[n - 1]) == s then Some(n - 1)
    else LastSnake(keys, n - 1, s)
  }

  lemma {:induction false} LastSnakeSpec(keys: seq<string>, n: nat, s: string)
    requires n <= |keys|
    ensures var r := LastSnake(keys, n, s);
      && (r.Some? ==> r.value < n && ToSnakeCase(keys[r.value]) == s
                      && forall j :: r.value < j < n ==> ToSnakeCase(keys[j]) != s)
      && (r.None? ==> forall j :: 0 <= j < n ==> ToSnakeCase(keys[j]) != s)
  {
    if n > 0 && ToSnakeCase(keys[n - 1]) != s {
      LastSnakeSpec(keys, n - 1, s);
    }
  }

  /**
   * After the copy, a snake-cased name holds the value of the last parsed
   * key with that name: snake-case collisions between parsed keys resolve to
   * the later key.
   */
  lemma {:induction false} CopiedFind(responseData: Obj<Value>, n: nat, s: string)
    requires Wf(responseData) && n <= |responseData.keys|
    ensures var l := LastSnake(responseData.keys, n, s);
      Find(Copied(responseData, n), s)
      == if l.Some? then Some(Plain(responseData.vals[responseData.keys[l.value]])) else None
  {
    if n > 0 {
      CopiedFind(responseData, n - 1, s);
    }
  }

  /**
   * A parsed key whose snake-cased name is neither an aggregate nor the name
   * of another parsed key appears, unchanged, under that name.
   */
  lemma TemplateKeepsParsed(startDate: int, endDate: int, responseData: Obj<Value>, today: int, k: string)
    requires Wf(responseData) && k in responseData.vals
    requires !IsAggregate(ToSnakeCase(k))
    requires forall k' :: k' in responseData.vals && k' != k ==> ToSnakeCase(k') != ToSnakeCase(k)
    ensures Find(TemplateData(startDate, endDate, responseData, today), ToSnakeCase(k)) == Some(Plain(responseData.vals[k]))
  {
    var keys := responseData.keys;
    var price := Price(responseData);
    var billingDays := Schedule(startDate, endDate, price);
    AggregatesKeepOthers(Copied(responseData, |keys|), ToDateFmt(today), PriceText(price, HOURS_PER_DAY),
                         billingDays, PriceText(price, HOURS_PER_DAY * |billingDays|), ToSnakeCase(k));
    CopiedFind(responseData, |keys|, ToSnakeCase(k));
    LastSnakeSpec(keys, |keys|, ToSnakeCase(k));
    var i :| 0 <= i < |keys| && keys[i] == k;
    assert LastSnake(keys, |keys|, ToSnakeCase(k)).Some?;
    assert keys[LastSnake(keys, |keys|, ToSnakeCase(k)).value] == k;
  }

  /** The names the parsed keys take: each key snake-cased, in order. */
  function SnakeKeys(keys: seq<string>): (r: seq<string>)
    ensures |r| == |keys|
  {
    seq(|keys|, i requires 0 <= i < |keys| => ToSnakeCase(keys[i]))
  }

  lemma SnakeKeysStep(keys: seq<string>, n: nat)
    requires 0 < n <= |keys|
    ensures SnakeKeys(keys[..n]) == SnakeKeys(keys[..n - 1]) + [ToSnakeCase(keys[n - 1])]
  {
    var a := SnakeKeys(keys[..n]);
    var b := SnakeKeys(keys[..n - 1]) + [ToSnakeCase(keys[n - 1])];
    forall i | 0 <= i < n
      ensures a[i] == b[i]
    {
      if i < n - 1 {
        assert keys[..n][i] == keys[..n - 1][i];
      }
    }
  }

  /** The copied variables are named by the snake-cased keys copied so far. */
  lemma {:induction false} CopiedKeys(responseData: Obj<Value>, n: nat, s: string)
    requires Wf(responseData) && n <= |responseData.keys|
    ensures s in Copied(responseData, n).keys <==> s in SnakeKeys(responseData.keys[..n])
  {
    if n > 0 {
      var key := responseData.keys[n - 1];
      CopiedKeys(responseData, n - 1, s);
      CopiedWf(responseData, n - 1);
      SetKeys(Copied(responseData, n - 1), ToSnakeCase(key), Plain(responseData.vals[key]), s);
      SnakeKeysStep(responseData.keys, n);
    }
  }

  /** The aggregates add their six names to the copied ones. */
  lemma AggregatesKeys(copied: Obj<Entry>, currentDate: string, dayPrice: string, billingDays: seq<Obj<Value>>, total: string, s: string)
    requires Wf(copied)
    ensures s in WithAggregates(copied, currentDate, dayPrice, billingDays, total).keys <==> IsAggregate(s) || s in copied.keys
  {
    var t1 := Set(copied, CURRENT_DATE_KEY, Plain(Text(currentDate)));
    var t2 := Set(t1, PRICE_PER_DAY_KEY, Plain(Text(dayPrice)));
    var t3 := Set(t2, HOURS_PER_DAY_KEY, Plain(Num(HOURS_PER_DAY)));
    var t4 := Set(t3, NUMBER_OF_BILLING_DAYS_KEY, Plain(Num(|billingDays|)));
    var t5 := Set(t4, BILLING_DAYS_KEY, Days(billingDays));
    SetKeys(copied, CURRENT_DATE_KEY, Plain(Text(currentDate)), s);
    SetKeys(t1, PRICE_PER_DAY_KEY, Plain(Text(dayPrice)), s);
    SetKeys(t2, HOURS_PER_DAY_KEY, Plain(Num(HOURS_PER_DAY)), s);
    SetKeys(t3, NUMBER_OF_BILLING_DAYS_KEY, Plain(Num(|billingDays|)), s);
    SetKeys(t4, BILLING_DAYS_KEY, Days(billingDays), s);
    SetKeys(t5, TOTAL_VARIABLE, Plain(Text(total)), s);
  }

  /** The variables are the snake-cased parsed keys and the six aggregates, and nothing else. */
  lemma TemplateKeys(startDate: int, endDate: int, responseData: Obj<Value>, today: int, s: string)
    requires Wf(responseData)
    ensures s in TemplateData(startDate, endDate, responseData, today).keys
      <==> IsAggregate(s) || s in SnakeKeys(responseData.keys)
  {
    var price := Price(responseData);
    assert responseData.keys[..|responseData.keys|] == responseData.keys;
    CopiedWf(responseData, |responseData.keys|);
    CopiedKeys(responseData, |responseData.keys|, s);
    var billingDays := Schedule(startDate, endDate, price);
    AggregatesKeys(Copied(responseData, |responseData.keys|), ToDateFmt(today), PriceText(price, HOURS_PER_DAY),
                   billingDays, PriceText(price, HOURS_PER_DAY * |billingDays|), s);
  }

  lemma TotalSplit()
    ensures SplitCamel(TOTAL_KEY) == TOTAL_KEY
  {
    SplitCamelNoBoundary(TOTAL_KEY);
  }

  lemma TotalCollapsed()
    ensures CollapseSpaces(TOTAL_KEY) == TOTAL_KEY
  {
    CollapseSpacesNone(TOTAL_KEY);
  }

  lemma TotalStripped()
    ensures StripNonWord(TOTAL_KEY) == TOTAL_KEY
  {
    StripNonWordWords(TOTAL_KEY);
  }

  lemma TotalUpper()
    ensures Upper(TOTAL_KEY) == TOTAL_VARIABLE
  {
    var u := Upper(TOTAL_KEY);
    assert u[0] == 'T' && u[1] == 'O' && u[2] == 'T' && u[3] == 'A' && u[4] == 'L';
  }

  /** `total` snake-cases to `TOTAL`. */
  lemma SnakeTotal()
    ensures ToSnakeCase(TOTAL_KEY) == TOTAL_VARIABLE
  {
    TotalSplit();
    TotalCollapsed();
    TotalStripped();
    TotalUpper();
  }

  /**
   * The parsed `total` is copied under `TOTAL`, an aggregate name, so the
   * schedule's total written later replaces it.
   */
  lemma ParsedTotalReplaced(startDate: int, endDate: int, responseData: Obj<Value>, today: int)
    requires Wf(responseData)
    ensures IsAggregate(ToSnakeCase(TOTAL_KEY))
    ensures Find(TemplateData(startDate, endDate, responseData, today), ToSnakeCase(TOTAL_KEY))
      == Some(Plain(Text(PriceText(Price(responseData), HOURS_PER_DAY * |WeekdaySet(startDate, endDate)|))))
  {
    SnakeTotal();
    TemplateAggregates(startDate, endDate, responseData, today);
  }

  /** The object `parseFormData` builds has a number, if anything, under `price`. */
  lemma ParsedPriceIsNumber(values: seq<Value>, header: seq<string>, toDate: Value -> int)
    requires |values| <= |header|
    requires PricesAreNumbers(values, header)
    ensures PriceIsNumber(Parsed(values, header, toDate))
  {
    assert PRICE_MARK != TOTAL_KEY;
    var e := Entries(values, header, toDate, |values|);
    if PRICE_MARK in e.vals {
      EntriesFrom(values, header, toDate, |values|, PRICE_MARK);
      assert MatchAt(PRICE_MARK, PRICE_MARK, 0);
      assert IsPriceKey(PRICE_MARK);
    }
  }
}
