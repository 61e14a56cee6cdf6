/**
 * `parseFormData(values, header)`: one form response (a spreadsheet row) and
 * the header row become an object keyed by the lower-cased header labels,
 * with the prices summed into `total`.
 */
module RecordParser {
  import opened Objects
  import opened Strings
  import opened Format

  const PRICE_MARK := "price"
  const DATE_MARK := "date"
  const TOTAL_KEY := "total"

  /** `header[i].toLowerCase()`. */
  function KeyOf(header: seq<string>, i: nat): string
    requires i < |header|
  {
    Lower(header[i])
  }

  predicate IsPriceKey(key: string)
  {
    Contains(key, PRICE_MARK)
  }

  predicate IsDateKey(key: string)
  {
    Contains(key, DATE_MARK)
  }

  /**
   * The value stored for a cell under `key`: a price is kept as it is, a date
   * cell goes through `toDate`, anything else is kept. The price test comes
   * first, so a key naming both is a price.
   */
  function Classify(key: string, v: Value, toDate: Value -> int): Value
  {
    if IsPriceKey(key) then v
    else if IsDateKey(key) then Date(toDate(v))
    else v
  }

  /** `total += value` adds numbers: every price cell holds a number. */
  predicate PricesAreNumbers(values: seq<Value>, header: seq<string>)
    requires |values| <= |header|
  {
    forall i :: 0 <= i < |values| ==> IsPriceKey(KeyOf(header, i)) ==> values[i].Num?
  }

  /** What a row contributes to the total. */
  function PriceOf(values: seq<Value>, header: seq<string>, i: nat): int
    requires i < |values| <= |header|
    requires PricesAreNumbers(values, header)
  {
    if IsPriceKey(KeyOf(header, i)) then values[i].n else 0
  }

  /** The sum of the price cells among the first `n` cells. */
  function PriceSum(values: seq<Value>, header: seq<string>, n: nat): int
    requires n <= |values| <= |header|
    requires PricesAreNumbers(values, header)
  {
    if n == 0 then 0 else PriceSum(values, header, n - 1) + PriceOf(values, header, n - 1)
  }

  /** The object after the loop has stored the first `n` cells. */
  function Entries(values: seq<Value>, header: seq<string>, toDate: Value -> int, n: nat): Obj<Value>
    requires n <= |values| <= |header|
  {
    if n == 0 then Empty()
    else
      var key := KeyOf(header, n - 1);
      Set(Entries(values, header, toDate, n - 1), key, Classify(key, values[n - 1], toDate))
  }

  /** The object `parseFormData` returns. */
  function Parsed(values: seq<Value>, header: seq<string>, toDate: Value -> int): Obj<Value>
    requires |values| <= |header|
    requires PricesAreNumbers(values, header)
  {
    Set(Entries(values, header, toDate, |values|), TOTAL_KEY,
        Text(ToCurrency(PriceSum(values, header, |values|))))
  }

  /** `parseFormData(values, header)`, with `toDate` standing for `Date.parse`. */
  method ParseFormData(values: seq<Value>, header: seq<string>, toDate: Value -> int)
    returns (data: Obj<Value>)
    requires |values| <= |header|
    requires PricesAreNumbers(values, header)
    ensures data == Parsed(values, header, toDate)
    ensures Wf(data)
    ensures forall i :: 0 <= i < |values| ==> KeyOf(header, i) in data.keys
    ensures forall k :: k in data.keys ==>
      k == TOTAL_KEY || exists i :: 0 <= i < |values| && KeyOf(header, i) == k
    ensures Find(data, TOTAL_KEY) == Some(Text(ToCurrency(PriceSum(values, header, |values|))))
  {
    var total := 0;
    data := Empty();
    var i := 0;
    while i < |values|
      invariant 0 <= i <= |values|
      invariant data == Entries(values, header, toDate, i)
      invariant total == PriceSum(values, header, i)
    {
      var key := Lower(header[i]);
      var value := values[i];
      if Contains(key, PRICE_MARK) {
        total := total + value.n;
      } else if Contains(key, DATE_MARK) {
        value := Date(toDate(value));
      }
      data := Set(data, key, value);
      i := i + 1;
    }
    data := Set(data, TOTAL_KEY, Text(ToCurrency(total)));
    assert data == Parsed(values, header, toDate);
    ParsedWf(values, header, toDate);
    ParsedKeys(values, header, toDate);
  }

  /** The stored keys are distinct. */
  lemma {:induction false} EntriesWf(values: seq<Value>, header: seq<string>, toDate: Value -> int, n: nat)
    requires n <= |values| <= |header|
    ensures Wf(Entries(values, header, toDate, n))
  {
    if n > 0 {
      EntriesWf(values, header, toDate, n - 1);
      var key := KeyOf(header, n - 1);
      SetWf(Entries(values, header, toDate, n - 1), key, Classify(key, values[n - 1], toDate));
    }
  }

  lemma ParsedWf(values: seq<Value>, header: seq<string>, toDate: Value -> int)
    requires |values| <= |header|
    requires PricesAreNumbers(values, header)
    ensures Wf(Parsed(values, header, toDate))
  {
    EntriesWf(values, header, toDate, |values|);
    SetWf(Entries(values, header, toDate, |values|), TOTAL_KEY,
          Text(ToCurrency(PriceSum(values, header, |values|))));
  }

  /** The keys stored after `n` cells are exactly the keys of those cells. */
  lemma {:induction false} EntriesKeys(values: seq<Value>, header: seq<string>, toDate: Value -> int, n: nat, k: string)
    requires n <= |values| <= |header|
    ensures k in Entries(values, header, toDate, n).keys <==> exists i :: 0 <= i < n && KeyOf(header, i) == k
  {
    if n > 0 {
      EntriesKeys(values, header, toDate, n - 1, k);
      EntriesWf(values, header, toDate, n - 1);
      if KeyOf(header, n - 1) == k {
        assert KeyOf(header, n - 1) == k;
      }
    }
  }

  /** The result has a key for every header label and `total`, and no other key. */
  lemma ParsedKeys(values: seq<Value>, header: seq<string>, toDate: Value -> int)
    requires |values| <= |header|
    requires PricesAreNumbers(values, header)
    ensures forall i :: 0 <= i < |values| ==> KeyOf(header, i) in Parsed(values, header, toDate).keys
    ensures forall k :: k in Parsed(values, header, toDate).keys <==>
      k == TOTAL_KEY || exists i :: 0 <= i < |values| && KeyOf(header, i) == k
  {
    EntriesWf(values, header, toDate, |values|);
    forall k
      ensures k in Parsed(values, header, toDate).keys <==>
        k == TOTAL_KEY || exists i :: 0 <= i < |values| && KeyOf(header, i) == k
    {
      EntriesKeys(values, header, toDate, |values|, k);
    }
    forall i | 0 <= i < |values|
      ensures KeyOf(header, i) in Parsed(values, header, toDate).keys
    {
      EntriesKeys(values, header, toDate, |values|, KeyOf(header, i));
    }
  }

  /**
   * The value stored under a header's key is the one of its last cell:
   * a later duplicate header overwrites an earlier one.
   */
  lemma {:induction false} EntriesLast(values: seq<Value>, header: seq<string>, toDate: Value -> int, n: nat, i: nat)
    requires i < n <= |values| <= |header|
    requires forall j :: i < j < n ==> KeyOf(header, j) != KeyOf(header, i)
    ensures Find(Entries(values, header, toDate, n), KeyOf(header, i))
      == Some(Classify(KeyOf(header, i), values[i], toDate))
  {
    if i < n - 1 {
      EntriesLast(values, header, toDate, n - 1, i);
    }
  }

  /** Every stored value is the classified value of some cell under that key. */
  lemma {:induction false} EntriesFrom(values: seq<Value>, header: seq<string>, toDate: Value -> int, n: nat, k: string)
    requires n <= |values| <= |header|
    requires k in Entries(values, header, toDate, n).vals
    ensures exists i ::
      0 <= i < n && KeyOf(header, i) == k && Entries(values, header, toDate, n).vals[k] == Classify(k, values[i], toDate)
  {
    if KeyOf(header, n - 1) == k {
      assert Entries(values, header, toDate, n).vals[k] == Classify(k, values[n - 1], toDate);
    } else {
      EntriesFrom(values, header, toDate, n - 1, k);
    }
  }

  /** A header label other than `total` keeps the classified value of its last cell. */
  lemma ParsedLast(values: seq<Value>, header: seq<string>, toDate: Value -> int, i: nat)
    requires i < |values| <= |header|
    requires PricesAreNumbers(values, header)
    requires KeyOf(header, i) != TOTAL_KEY
    requires forall j :: i < j < |values| ==> KeyOf(header, j) != KeyOf(header, i)
    ensures Find(Parsed(values, header, toDate), KeyOf(header, i))
      == Some(Classify(KeyOf(header, i), values[i], toDate))
  {
    EntriesLast(values, header, toDate, |values|, i);
  }

  /** `total` is not a price key, so a price cell is never overwritten by the total. */
  lemma PriceKeyNotTotal(key: string)
    requires IsPriceKey(key)
    ensures key != TOTAL_KEY
  {
    assert TOTAL_KEY[0..5][0] != PRICE_MARK[0];
  }

  /**
   * A cell whose label names both a price and a date is a price: it is stored
   * as it was, not turned into a date, and it counts towards the total.
   */
  lemma PriceDateIsPrice(values: seq<Value>, header: seq<string>, toDate: Value -> int, i: nat)
    requires i < |values| <= |header|
    requires PricesAreNumbers(values, header)
    requires IsPriceKey(KeyOf(header, i)) && IsDateKey(KeyOf(header, i))
    requires forall j :: i < j < |values| ==> KeyOf(header, j) != KeyOf(header, i)
    ensures Find(Parsed(values, header, toDate), KeyOf(header, i)) == Some(values[i])
    ensures PriceOf(values, header, i) == values[i].n
  {
    PriceKeyNotTotal(KeyOf(header, i));
    ParsedLast(values, header, toDate, i);
  }

  /**
   * Blanking one price cell takes exactly its amount off every partial sum
   * that includes it.
   */
  lemma {:induction false} PriceSumWithout(values: seq<Value>, header: seq<string>, n: nat, i: nat)
    requires n <= |values| <= |header| && i < |values|
    requires PricesAreNumbers(values, header)
    requires IsPriceKey(KeyOf(header, i))
    ensures PricesAreNumbers(values[i := Num(0)], header)
    ensures PriceSum(values, header, n)
      == PriceSum(values[i := Num(0)], header, n) + (if i < n then values[i].n else 0)
  {
    if n > 0 {
      PriceSumWithout(values, header, n - 1, i);
    }
  }

  /**
   * Two cells `i < j` under the same price label, with no later cell under
   * it: the object keeps the second, but the total counts both.
   */
  lemma DuplicatePriceHeader(values: seq<Value>, header: seq<string>, toDate: Value -> int, i: nat, j: nat)
    requires i < j < |values| <= |header|
    requires PricesAreNumbers(values, header)
    requires KeyOf(header, i) == KeyOf(header, j) && IsPriceKey(KeyOf(header, i))
    requires forall k :: j < k < |values| ==> KeyOf(header, k) != KeyOf(header, j)
    ensures PricesAreNumbers(values[i := Num(0)][j := Num(0)], header)
    ensures Find(Parsed(values, header, toDate), KeyOf(header, i)) == Some(values[j])
    ensures Find(Parsed(values, header, toDate), TOTAL_KEY) == Some(Text(ToCurrency(
      values[i].n + values[j].n + PriceSum(values[i := Num(0)][j := Num(0)], header, |values|))))
  {
    PriceKeyNotTotal(KeyOf(header, j));
    ParsedLast(values, header, toDate, j);
    PriceSumWithout(values, header, |values|, i);
    PriceSumWithout(values[i := Num(0)], header, |values|, j);
    assert values[i := Num(0)][j] == values[j];
  }

  /** Only the price cells count: changing any other cell leaves the total alone. */
  lemma {:induction false} PriceSumIgnoresOthers(values: seq<Value>, values': seq<Value>, header: seq<string>, n: nat)
    requires n <= |values| == |values'| <= |header|
    requires PricesAreNumbers(values, header) && PricesAreNumbers(values', header)
    requires forall i :: 0 <= i < |values| && IsPriceKey(KeyOf(header, i)) ==> values[i] == values'[i]
    ensures PriceSum(values, header, n) == PriceSum(values', header, n)
  {
    if n > 0 {
      PriceSumIgnoresOthers(values, values', header, n - 1);
    }
  }
}
