# Invoice generator: a verified model of the data and templating pipeline

`invoice-generator.js` is a Google Apps Script that turns the latest response row of
a spreadsheet into an invoice. It copies a Docs template, adds one table row per
billable weekday and fills the `{{KEY}}` placeholders its template variables name. This project models the
logic between reading the spreadsheet and saving the document:

- **Key normalisation** (`toSnakeCase`), module `SnakeCase`. The three regular-expression
  passes and the upper-case step are pure functions on strings.
- **Record parsing** (`parseFormData`), module `RecordParser`. A method with the
  source's loop. It lower-cases the labels, sums the price cells into `total` and
  turns date cells into dates.
- **Billing schedule** (`generateBillingDays`), modules `Calendar` and `BillingSchedule`.
  A method with the source's day-by-day `while` loop. Dates are day numbers, day 0
  being 1970-01-01, a Thursday, and `getDay()` is `(d + 4) % 7`. Modules `Calendar`
  and `Format` do the proleptic Gregorian conversion behind `toDateFmt`.
- **Variable mapping** (`prepareTemplateData`, `toCurrency`, `toDateFmt`), modules
  `TemplateVariables` and `Format`. A method that copies the snake-cased keys and
  then writes the six aggregates over them.
- **Rendering** (`appendBillingRows`, `populateTemplate`), module `Renderer`. A
  `Document` class holds the header text, the body text and the body's tables.
  Its methods insert rows in place. They replace placeholders with a literal,
  leftmost, non-overlapping replace-all (`ReplaceAll`).
- **The whole run**, module `Pipeline`. The method `CreateDoc` runs the steps of
  `createDocFromForm` in its order on an opened document: it prepares the template
  variables, adds the rows, then replaces the placeholders. Its contract gives the
  document that results. It also proves that row `n` of the second table ends up holding
  the date of billing day `n` and its price over its hours.

JavaScript objects are modelled by `Objects.Obj`: the contents as a map plus the
order the keys were first written in. `Set` models `o[k] = v`: it replaces the value
of an existing key in place and appends a new key. Enumeration (`Object.keys`,
`forEach`, `for..in`) follows `keys`. The key `__proto__`, whose assignment JavaScript
does not store as a key, is an exception that is not modelled (see "## Left out").

Where the source's comments and its code disagree, the model follows the code.
`appendBillingRows` says it locates "the first table", but it uses `tables[1]`, the
second table, and the model does the same.

## Model

| member | source | states |
|---|---|---|
| Format.CurrencyShape | invoice-generator.js:16-19 | the text of `Format.ToCurrency` (`toCurrency`) is `$` and then the decimal digits of the amount, with a minus sign exactly when the amount is negative, and no leading zero unless the text is `$0` |
| Format.CurrencyRoundTrip | invoice-generator.js:16-19 | the amount can be read back from its currency text, so distinct amounts are displayed differently |
| Format.Pad2Digits | invoice-generator.js:33-34 | `("0" + n).slice(-2)` is always two digits, and for a number below 100 they read back as the number |
| Format.DateTextYear | invoice-generator.js:32-37 | the year field after the second slash is the decimal text of the year, which reads back as the year and has no leading zero unless the year is 0 |
| Format.DateFmtShape | invoice-generator.js:30-38 | the text of `Format.ToDateFmt` (`toDateFmt`) is MM/DD/YYYY; the month reads as 1 to 12, the day as a day of that month, and the year field is the year without a leading zero |
| Format.DateFmtRoundTrip | invoice-generator.js:30-38 | the text parses back to the calendar date of the day, the month being `getMonth() + 1` |
| Format.DateFmtInjective | invoice-generator.js:30-38 | distinct days have distinct formatted texts |
| Calendar.CivilStep | invoice-generator.js:139 | `setDate(getDate() + 1)` moves to the next calendar date, across month and year ends, on both sides of 1970 |
| Calendar.CivilIncreasing | invoice-generator.js:117-139 | a later day number is a later calendar date |
| Calendar.DayOfWeek | invoice-generator.js:118 | `getDay()` lies in 0 to 6, and 1970-01-01 is a Thursday |
| Calendar.DayOfWeekNext | invoice-generator.js:118-139 | the next day's `getDay()` is one more, and a Saturday is followed by a Sunday |
| SnakeCase.SplitCamelAtBoundaries | invoice-generator.js:43 | the global `/([a-z])([A-Z])/g` pass inserts `_` at every lower-to-upper boundary; the non-overlapping scan misses none |
| SnakeCase.CollapseSpacesNoSpace | invoice-generator.js:44 | no white space is left after the `/\s+/g` pass |
| SnakeCase.SnakeCaseChars | invoice-generator.js:41-47 | every character of `SnakeCase.ToSnakeCase` (`toSnakeCase`) is `A`-`Z`, `0`-`9` or `_` |
| SnakeCase.SnakeIdempotent | invoice-generator.js:41-47 | normalising a key twice gives the same name as normalising it once |
| SnakeCase.StartDateSpaced | invoice-generator.js:41-47 | `"Start Date"` becomes `START_DATE` |
| SnakeCase.StartDateCamel | invoice-generator.js:41-47 | `"startDate"` becomes `START_DATE` too |
| RecordParser.ParseFormData | invoice-generator.js:50-79 | the loop builds the parsed object: a key `header[i].toLowerCase()` for every cell and `total`, no other key, and `total` is `toCurrency` of the sum of the price cells |
| RecordParser.ParsedKeys | invoice-generator.js:57-76 | the keys of the result are exactly the lower-cased labels and `total` |
| RecordParser.ParsedLast | invoice-generator.js:57-72 | a label keeps the classified value of its last cell |
| RecordParser.PriceDateIsPrice | invoice-generator.js:64-69 | a label naming both `price` and `date` is a price: it keeps its value and counts towards the total |
| RecordParser.PriceSumWithout | invoice-generator.js:64-65 | blanking one price cell takes exactly its amount off the running total |
| RecordParser.DuplicatePriceHeader | invoice-generator.js:64-72 | for any two cells under the same price label, in a row of any length, the object keeps the later cell, but the total counts both amounts plus the other prices |
| RecordParser.PriceSumIgnoresOthers | invoice-generator.js:64-65 | only price cells count towards the total |
| RecordParser.PriceKeyNotTotal | invoice-generator.js:64-76 | `total` is not a price label, so writing it never overwrites a price cell |
| BillingSchedule.GenerateBillingDays | invoice-generator.js:112-143 | the loop returns the schedule: one record per weekday of the range in order, numbered from 1 |
| BillingSchedule.ScheduleSize | invoice-generator.js:117-140 | there are as many records as Monday-to-Friday days in [start, end], and none exactly when the range holds no weekday, in particular when start > end |
| BillingSchedule.ScheduleEntry | invoice-generator.js:115-135 | record j has exactly the keys `BILLING_DAY_{j+1}`, `_PRICE` and `_HOURS`, holding its weekday's MM/DD/YYYY text, `toCurrency(price * 8)` and 8 |
| BillingSchedule.ScheduleDatesIncreasing | invoice-generator.js:117-139 | the dates of the records are strictly increasing |
| BillingSchedule.WeekdaysMembers | invoice-generator.js:117-122 | a day is billed exactly when it lies in the range and is not a Saturday or a Sunday |
| BillingSchedule.FullWeek | invoice-generator.js:118-122 | any seven consecutive days hold five billing days |
| BillingSchedule.RecordKeysUnique | invoice-generator.js:124-132 | no key of one record is a key of another record |
| BillingSchedule.PriceTextMeaning | invoice-generator.js:128-130 | the day price reads back as `price * 8`, and it is `$NaN` when there is no price |
| TemplateVariables.PrepareTemplateData | invoice-generator.js:82-110 | the method builds the template variables: copied snake-cased keys, then the aggregates written over them |
| TemplateVariables.TemplateAggregates | invoice-generator.js:91-107 | with n weekdays in the range: `NUMBER_OF_BILLING_DAYS` is n, `BILLING_DAYS` is the schedule, `PRICE_PER_DAY` is `toCurrency(price * 8)`, `HOURS_PER_DAY` is 8, `TOTAL` is `toCurrency(price * 8 * n)` and `CURRENT_DATE` is today's text |
| TemplateVariables.TemplateTotal | invoice-generator.js:105-107 | the total reads back as `price * 8 * n`, or is `$NaN` without a price |
| TemplateVariables.ParsedTotalReplaced | invoice-generator.js:86-107 | the parsed `total` snake-cases to `TOTAL`, so the schedule's total replaces it |
| TemplateVariables.TemplateKeepsParsed | invoice-generator.js:86-89 | a parsed key whose name meets no aggregate and no other parsed key keeps its value under its snake-cased name |
| TemplateVariables.CopiedFind | invoice-generator.js:86-89 | when two parsed keys snake-case alike, the later one's value is kept |
| TemplateVariables.TemplateKeys | invoice-generator.js:82-110 | the variables are exactly the six aggregates and the snake-cased parsed keys |
| TemplateVariables.AggregatesKeepOthers | invoice-generator.js:91-107 | writing the aggregates changes no other variable |
| TemplateVariables.ParsedPriceIsNumber | invoice-generator.js:64-72 | the object `parseFormData` returns holds a number, if anything, under `price` |
| Renderer.Document.constructor | invoice-generator.js:240-241 | the opened document holds the given header, body and tables, and is valid when every table has a row |
| Renderer.Document.AppendBillingRows | invoice-generator.js:172-204 | fails, changing nothing, with fewer than two tables; otherwise the second table gets the billing rows after its first row, and the header, the body and the other tables are unchanged |
| Renderer.WithBillingRowsShape | invoice-generator.js:180-194 | the second table grows by n rows; row 0 stays first, rows 1 to n are the placeholder rows of days 1 to n, and the old rows follow in order |
| Renderer.BillingRowTokens | invoice-generator.js:186-189 | the placeholder of a plain key other than day n's three keys occurs in neither cell of day n's row |
| Renderer.Document.ReplaceTemplateText | invoice-generator.js:151-161 | each key's placeholder is replaced, key by key in order, in the header, the body and the table cells; every table keeps its rows and cells, so a valid document stays valid |
| Renderer.Document.PopulateTemplate | invoice-generator.js:146-170 | the document has had the passes of the template variables and then of each billing record; without a header nothing changes and the call fails; a valid document stays valid |
| Renderer.ReplaceAllAbsent | invoice-generator.js:158-159 | `Renderer.ReplaceAll` (one literal `replaceText`) leaves a text without the placeholder unchanged |
| Renderer.ReplaceAllNoneRemain | invoice-generator.js:158-159 | after replacing a placeholder with a safe value, no occurrence of it remains |
| Renderer.ReplaceAllLeavesToken | invoice-generator.js:158-159 | a value without `{{k}}` can still leave a `{{k}}`: replacing `{{A}}` by nothing in `{{{{A}}A}}` leaves `{{A}}` |
| Renderer.TokenNotInOtherToken | invoice-generator.js:153 | the placeholder of one plain key never occurs in another key's placeholder |
| Renderer.FirstDayTokenSeparate | invoice-generator.js:153-159 | replacing `{{BILLING_DAY_1}}` leaves `{{BILLING_DAY_10}}` and `{{BILLING_DAY_1_PRICE}}` intact |
| Renderer.ApplyAllConcat | invoice-generator.js:164-169 | passing over two lists of variables is one pass over the joined list |
| Renderer.ApplyDocConcat | invoice-generator.js:164-169 | the same for the whole document |
| Renderer.ApplyAllBraceFree | invoice-generator.js:158-159 | a text without braces is unchanged by any passes |
| Renderer.DayRecordSubs | invoice-generator.js:167-169 | the passes of a billing record are its day, price and hours placeholders, in that order |
| Renderer.BillingRowFilled | invoice-generator.js:184-194 | given earlier passes with other plain keys, the row of day n becomes its date and its price over its hours |
| Pipeline.EarlierRecordKeys | invoice-generator.js:124-132 | the records before day n pass over plain keys, none of them day n's |
| Pipeline.RootKeys | invoice-generator.js:86-107 | the template variables are plain keys and none is a billing key, unless a sheet column is named like one |
| Pipeline.AggregatePlain | invoice-generator.js:92-105 | no aggregate name is a billing key |
| Pipeline.RowFilled | invoice-generator.js:163-169 | for any template variables whose `BILLING_DAYS` are numbered records and whose own names are plain and not day n's, populating makes the row of day n read that record's date and its price over its hours |
| Pipeline.InvoiceRowFilled | invoice-generator.js:163-169 | under the passes `populateTemplate` makes with the variables `prepareTemplateData` built, the two placeholder cells of billing day n become the n-th weekday's MM/DD/YYYY date and `toCurrency(price * 8)` over the hours |
| BillingSchedule.ScheduleLength | invoice-generator.js:117-140 | there is one record per weekday of the range |
| Pipeline.TemplateRecords | invoice-generator.js:82-110 | the template variables carry the schedule under `BILLING_DAYS`, one well-formed record per weekday |
| Pipeline.RowAfterPasses | invoice-generator.js:184-189 | once the rows are added, row n of the second table is day n's two placeholder cells with whatever passes follow applied |
| Pipeline.DocRowsFilled | invoice-generator.js:244-247 | once the rows are added to a document and the template populated, the row of every billing day n whose placeholders no sheet column names reads the n-th weekday's date and `toCurrency(price * 8)` over the hours |
| Pipeline.CreateDoc | invoice-generator.js:226-247 | prepares the variables, adds the rows, then populates. It fails with nothing changed when the document has fewer than two tables. Without a header it fails after adding the rows. Otherwise the document is the populated text of the document with the rows added, and the row of each billing day n reads the n-th weekday's date and `toCurrency(price * 8)` over the hours, unless a sheet column is named after that day's placeholders |

## Left out

- `createDocFromForm` (invoice-generator.js:207-249): spreadsheet reads, the Drive copy, opening the document and `saveAndClose` are calls into Google services, and the file name is only used by Drive. `Pipeline.CreateDoc` models lines 226-247 on the opened document.
- Pipeline.CreateDoc: takes the start and end dates as day numbers. It does not read them from `responseData["start date"]` and `responseData["end date"]` (invoice-generator.js:223-224), so a missing or non-date field is not modelled.
- `toDate` (invoice-generator.js:22-27): `Date.parse`, time zones and invalid dates (`NaN`) are not modelled. Parsing is the parameter `toDate` of `ParseFormData`, and dates are day numbers.
- `new Date()` (invoice-generator.js:92) is the parameter `today`.
- `Number(num).toFixed(0)` (invoice-generator.js:17): amounts are integers, and for integers of magnitude below 2^53 it is the plain decimal text. Larger amounts are not modelled: JavaScript numbers are inexact above 2^53, and `toFixed` switches to exponent notation from 10^21, whereas the model prints every integer in plain decimal. Floating-point sums and rounding are not modelled either. A missing price gives `NaN`, which is modelled as the text `$NaN`.
- `toLowerCase`/`toUpperCase` are modelled on ASCII letters only. `toUpperCase` is applied after every non-ASCII character has been stripped, so its model is exact.
- Row styling (invoice-generator.js:197-202) and `console.log` (invoice-generator.js:156, 227) have no logical content.
- `replaceText` is modelled as literal replace-all, not regular-expression matching. Turning a number or the list of billing days into text is the parameter `render`.
- The body's `replaceText` is modelled as reaching the text of every table cell, which is how the inserted row placeholders get resolved. The body text outside the tables is one string.
- Enumeration order puts integer-like keys first in JavaScript. The model enumerates in insertion order.
- RecordParser.ParseFormData: requires every price cell to hold a number. With a text cell, JavaScript's `+=` would concatenate strings; that is not modelled.
- RecordParser.ParseFormData: requires at least as many labels as cells. The source reads `header[i]` for every cell.
- RecordParser.ParseFormData: a label that lower-cases to `__proto__` is not modelled. In JavaScript, `responseData["__proto__"] = value` (invoice-generator.js:72) calls the inherited prototype setter instead of adding a key. `Object.keys` (invoice-generator.js:86) then skips it, so no `__PROTO__` template variable exists. The model stores the label as an ordinary key, and `RecordParser.ParsedKeys` and `TemplateVariables.TemplateKeys` count it.
- RecordParser.ParseFormData: labels are strings by their type. A number or date in the header row would make `header[i].toLowerCase()` (invoice-generator.js:59) throw a TypeError, and that case is not modelled.
- TemplateVariables.PrepareTemplateData: requires `price` to be a number when present, which is what `ParseFormData` returns (`ParsedPriceIsNumber`).
- Renderer.Document.AppendBillingRows: requires every table to have at least one row, as every Docs table has.
- Renderer.Document.ReplaceTemplateText: requires a header. Without one, `documentHeader.replaceText` throws. `PopulateTemplate` models this as failing with nothing changed.
- Renderer.Document.PopulateTemplate: a `BILLING_DAYS` value that is not a list throws in the source. The model reports failure after the root pass.
- Renderer.ReplaceAllNoneRemain: proved only for a safe value. The value must not contain the placeholder's first or last character, nor be a part of the placeholder. The plainer statement, "a value without `{{k}}` leaves no `{{k}}`", is false (`ReplaceAllLeavesToken`).
- Pipeline.InvoiceRowFilled: states the cells of the billing row under the passes, not a document. `Pipeline.CreateDoc` gives the same for `doc.tables[1][n]` after the two steps. Both cover the placeholders of the inserted rows only. It assumes no sheet column snake-cases to a billing key of that row, and that numbers render without braces. Placeholders the template itself contains are resolved only if the template variables name them.
