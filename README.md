# tradestation-client: the transaction-history aggregation, in Dafny

This project models the core of `tradestation_client.py`, the Python client for the TradeStation web API and client centre:

- **`Tradestation.get_transaction_history(days_back)`.** It resets each account's `Transactions` list. It then walks back one day at a time from yesterday to `yesterday - days_back`. For every day it fetches three sources and shapes each fetched record in place, then appends the records to the account:
  - the cash journal, which passes through the exclusion filter and may have its currency converted;
  - closed positions;
  - fees and commissions.
- **`include_transaction`**, the exclusion filter.
- **`non_compliant_token`**, which rewrites `token_type` to `Bearer` in a parsed token.
- **The symbol joining of `get_quotes`.**

## How the model is built

- Records are `map<string, Value>` over a JSON-like `Value`.
- A Python exception is an `Error` value: `KeyError`, `AttributeError` or `TypeError`. It is returned together with whatever state the run had reached, because the appends made before an exception stay in place.
- `get_transaction_history` is modelled twice:
  - **`Client.Tradestation.GetTransactionHistory`** is imperative. It is a method on a class that holds `accounts`. It contains the account loop, the `while date >= from_date` loop and the three `for` loops. Each record is shaped step by step and appended to `accounts[i]["Transactions"]` as soon as it is shaped.
  - **`History.TransactionHistory`** is the same run written as functions.

  The method's postcondition ties the new state and the raised exception to that function. The listed properties are proved as lemmas about the function.
- Things outside this file are parameters:
  - the three HTTP fetches are `Feeds`;
  - `strftime` is `fmt`;
  - `historical_currency_rate` together with `round(x * rate, 2)` is `convert`;
  - dates are integer day numbers.
- `cash_transaction['Account'] = account` stores a reference to the account dictionary. The model records it as `AccountRef(i)`, the account's position.
- The currency test `!=` at line 118 is Python's comparison, `Json.PyEq`, not structural equality: `True == 1`, and `[False] == [0.0]`.

### Behaviour as written

The model follows the code as written in four places where it does something other than what it appears meant to do:

- **The filter never excludes anything.** `include_transaction` uppercases the description and then searches it for the exclusion strings `'transfer'`, `'currency conversion'` and `'wire in'`. Those strings are lowercase, so an uppercased text never contains them (`Filter.NeverExcluded`).
- **The walk visits every calendar day, weekends included, newest first** (`HistoryProperties.WeekendsVisited`, `HistoryProperties.WindowNewestFirst`).
- **Only the first account receives records.** `date` is set once, before the account loop, and the first walk leaves it at `from_date - 1`. Every later account therefore has its `Transactions` reset to `[]` and then visits no day (`HistoryProperties.HistoryFirstAccountOnly`).
- **A blank source text leaves a trailing space.** The description is built as `Type + ': ' + text.rstrip()`, so a blank cash description becomes `"Cash Journal: "` (`Shaping.BlankDescription`, `Shaping.DescribeTrailing`).

## Model

| member | source | states |
|---|---|---|
| Json.TxList | tradestation_client.py:98 | The `Transactions` value is a JSON list with one object per record, in order. |
| Json.TxListAppend | tradestation_client.py:124 | `.append(r)` on the list adds `r`'s object at the end of the list of records. |
| Json.PyEq | tradestation_client.py:118 | Python's `==` on JSON values, used for the currency test: booleans and numbers compare by numeric value, lists element by element, objects by keys and values, other kinds only with their own kind. |
| Json.PyEqReflexive | tradestation_client.py:118 | Every value is `==` to itself, so a record whose currency is the account's currency value is never converted. |
| Json.PyEqExamples | tradestation_client.py:118 | `True == 1` although the two values differ, `[False] == [0.0]`, and two strings are `==` exactly when they are the same string. |
| Text.UpperChar | tradestation_client.py:167 | The model's ASCII upper-casing of one character maps a..z to A..Z, keeps every other character, and never yields a..z. |
| Text.Upper | tradestation_client.py:167 | The model's ASCII `upper()` keeps the length and upper-cases each character; its result holds no a..z. |
| Text.RStrip | tradestation_client.py:115 | `rstrip()` returns a prefix of the text; only whitespace was removed, and the result does not end in whitespace. |
| Text.Contains | tradestation_client.py:168 | The left-to-right scan behind `substr in description`; `Text.ContainsIff` states its meaning. |
| Text.ContainsIff | tradestation_client.py:168 | The `in` scan finds a substring exactly when it occurs at some position. |
| Text.IsSpace | tradestation_client.py:115 | The characters `str.isspace()` holds for, which `rstrip()` removes; `Text.RStrip` and `Shaping.DescribeTrailing` state what that removal gives. |
| Text.NoLowerNoMatch | tradestation_client.py:166-168 | A text without lower-case letters contains no text that has one. |
| Text.Join | tradestation_client.py:86-87 | `','.join(symbols)`; `Text.SplitJoin` and `Quotes.QuotesPathListRoundTrip` state that splitting undoes it. |
| Text.SplitJoin | tradestation_client.py:86-87 | For a non-empty list of comma-free symbols, splitting the `','.join` result at commas gives the list back. |
| Filter.Exclusions | tradestation_client.py:166 | The three exclusion texts, in lower case as written; `Filter.NeverExcluded` uses that each starts with a..z. |
| Filter.AnyContained | tradestation_client.py:168 | The `any(...)` scan over the exclusion texts, in order; `Filter.AnyContainedIff` states its meaning. |
| Filter.AnyContainedIff | tradestation_client.py:168 | The `any(...)` scan hits exactly when some exclusion text occurs in the description. |
| Filter.IncludeTransaction | tradestation_client.py:165-168 | A missing `Description` raises KeyError and a non-string one raises AttributeError. Otherwise the result is true exactly when no exclusion text occurs in the upper-cased description. |
| Filter.Excluded | tradestation_client.py:167-168 | The filter's test: some exclusion text occurs in the upper-cased description; `Filter.NeverExcluded` states that it never holds. |
| Filter.NeverExcluded | tradestation_client.py:166-168 | No exclusion text occurs in any upper-cased description. |
| Filter.IncludeTransactionNeverExcludes | tradestation_client.py:165-168 | Every record with a string description is included. |
| Filter.WireInIncluded | tradestation_client.py:166-168 | A "Wire In" / "WIRE IN" description is still included. |
| Token.FixToken | tradestation_client.py:189-194 | For a parsed JSON object, the result is an object whose `token_type` is "Bearer". It has the body's keys plus `token_type`, and every other entry is unchanged. A non-object body raises TypeError. |
| Token.FixTokenIdempotent | tradestation_client.py:189-194 | Repairing a token twice equals repairing it once. |
| Token.FixTokenKeepsCompliant | tradestation_client.py:189-194 | A token that already says "Bearer" is returned unchanged. |
| Quotes.SymbolsText | tradestation_client.py:86-87 | A list of symbols becomes the symbols joined with ','; a string is used as it is. `Quotes.QuotesPathSymbol` and `Quotes.QuotesPathListRoundTrip` state both cases on the path. |
| Quotes.QuotesPath | tradestation_client.py:85-89 | The request path starts with `api_url + '/data/quote/'` (line 28 gives `api_url`). |
| Quotes.QuotesPathSymbol | tradestation_client.py:85-89 | A string argument follows the prefix unchanged. |
| Quotes.QuotesPathListRoundTrip | tradestation_client.py:85-89 | For a non-empty list of symbols without commas, the path holds the symbols joined with ','; splitting the path gives the list back. |
| Shaping.Describe | tradestation_client.py:115-149 | The description is the type, then ": ", then the right-stripped source text. |
| Shaping.OriginalAmountKey | tradestation_client.py:121 | The key `f'DebitCredit{base}'`; `Shaping.OriginalAmountKeyNotStamped` and `Shaping.ShapeCash` state how it is used. |
| Shaping.OriginalAmountKeyNotStamped | tradestation_client.py:113-121 | `DebitCredit{base}` is never one of the stamped keys. |
| Shaping.ShapeCash | tradestation_client.py:111-122 | Covers one cash record. A missing `Description` raises KeyError, and a kept record needs every lookup to succeed; `Shaping.ShapeCashRaises` gives the exception of every other failing lookup. A kept record has TradeDate, Type "Cash Journal", the Description built from the original description, and the owning Account. Currencies are compared with Python's `==` (`Json.PyEq`). With equal currencies only those keys change. With different currencies the old amount moves to `DebitCredit{base}`, `DebitCredit` becomes the converted amount, and nothing else changes. |
| Shaping.ShapeCashRaises | tradestation_client.py:111-122 | Each failing lookup of the cash loop body raises its own exception, in the body's order. A non-string `Description` raises AttributeError from `.upper()`. A missing record or account `Currency` raises KeyError. For currencies that differ under Python's `==`, a non-string currency raises AttributeError from `base.upper()`/`quote.upper()`, and a missing `DebitCredit` raises KeyError. |
| Shaping.ShapeCashOutcome | tradestation_client.py:111-122 | A cash record is never dropped. It is kept exactly when every lookup of the loop body succeeds; under Python's `==`, a record with `Currency` `true` on an account with `Currency` `1` needs no further lookup. |
| Shaping.ShapeCashBoolCurrency | tradestation_client.py:118 | The record `{"Description": "Dividend", "Currency": true, "DebitCredit": 5}` on an account with `Currency` `1` is kept, stamped and unconverted, since `True != 1` is false. |
| Shaping.ShapeOther | tradestation_client.py:132-150 | A closed-position or fee record is never dropped. It is kept exactly when `Contract` is a string; otherwise the body raises KeyError or AttributeError. A kept record is stamped with the date, type, description from `Contract` and account, and nothing else changes. |
| Shaping.DescribeTrailing | tradestation_client.py:115-149 | The description ends in non-whitespace exactly when the source text is not all whitespace. |
| Shaping.BlankDescription | tradestation_client.py:115 | A blank description becomes "Cash Journal: ", with a trailing space. |
| History.Days | tradestation_client.py:100-154 | The loop visits `hi - lo + 1` days when `hi >= lo` and none otherwise; the k-th visited day is `hi - k`. |
| History.Append | tradestation_client.py:111-152 | One `for` loop over a fetch: shape, skip the dropped, append the kept, stop at the first exception. `HistoryProperties.AppendRaises`, `AppendKeeps` and `AppendExtends` tie it to `KeptRecords` and `NoneFails`. |
| History.VisitDay | tradestation_client.py:101-152 | One pass of the `while` loop. `HistoryProperties.VisitDayRaises`, `VisitDayAppends`, `VisitDayExtends` and `DayRecordsLayout` state its outcome. |
| History.WalkDays | tradestation_client.py:100-154 | The `while` loop over the visited days. `HistoryProperties.WalkRaises`, `WalkAppends` and `WalkExtends` state its outcome. |
| History.RunAccounts | tradestation_client.py:96-98 | The account loop keeps the number of accounts. |
| History.TransactionHistory | tradestation_client.py:91-156 | `get_transaction_history` as a function; `HistoryProperties.HistoryContents`, `HistoryFirstAccountOnly`, `HistoryRecordsStamped` and `HistoryNegativeDaysBack` state what it returns. |
| HistoryProperties.DaysWindow | tradestation_client.py:93-154 | The walk visits exactly the days from `from_date` to `date`, in strictly decreasing order, each once. |
| HistoryProperties.WeekendsVisited | tradestation_client.py:100-154 | A window of seven or more days visits a Saturday and a Sunday: weekends are not skipped. |
| HistoryProperties.AppendRaises | tradestation_client.py:111-138 | A `for` loop over a fetch raises exactly when the loop body raises on one of its records. |
| HistoryProperties.AppendKeeps | tradestation_client.py:111-138 | Without an exception, the loop appends the kept records in fetch order. |
| HistoryProperties.AppendExtends | tradestation_client.py:124-152 | A loop only appends: the earlier records stay, even when an exception stops it. |
| HistoryProperties.KeptPointwise | tradestation_client.py:132-138 | When every record is kept, the j-th appended record is the shaped j-th fetched record. |
| HistoryProperties.VisitDayRaises | tradestation_client.py:106-152 | A day raises exactly when a lookup of `Name` or `TypeDescription`, or one of its loop bodies, raises. |
| HistoryProperties.VisitDayAppends | tradestation_client.py:106-152 | A day without an exception appends its cash records, then its closed positions, then its fees. |
| HistoryProperties.VisitDayExtends | tradestation_client.py:106-152 | A day only appends. |
| HistoryProperties.CashAllKept | tradestation_client.py:111-124 | When no cash record raises, every cash record is appended. |
| HistoryProperties.DayRecordsSplit | tradestation_client.py:111-152 | When every record is kept, a day's records are the cash, closed and fee groups in that order, each in fetch order. |
| HistoryProperties.DayRecordsLayout | tradestation_client.py:111-152 | With no exception, a day appends one record per fetched record. The first `|cash|` are the shaped cash records, then the shaped closed positions, then the shaped fees, each in fetch order. |
| HistoryProperties.KeptFrom | tradestation_client.py:111-152 | Every appended record comes from a fetched record of that loop. |
| HistoryProperties.KeptAppendedOn | tradestation_client.py:113-150 | If every shaped record of a loop carries the day's fields, so does every record the loop appends. |
| HistoryProperties.DayBodiesStamp | tradestation_client.py:113-150 | Each of the three loop bodies stamps the day's date, the owning account, one of the three types and a description of the form `Type: text`. |
| HistoryProperties.DayRecordsAppendedOn | tradestation_client.py:106-152 | Every record a day appends carries that day's date, the owning account, its type and its description. |
| HistoryProperties.WalkRaises | tradestation_client.py:100-154 | The walk raises exactly when one of its days raises. |
| HistoryProperties.WalkAppends | tradestation_client.py:100-154 | A walk without an exception appends the records of its days, day after day. |
| HistoryProperties.WalkExtends | tradestation_client.py:100-154 | The walk only appends. |
| HistoryProperties.DaysRecordsTagged | tradestation_client.py:100-154 | Each record of the walk is tagged with the position of the day that appended it, and carries that day's fields. |
| HistoryProperties.DayTagsSorted | tradestation_client.py:100-154 | Those day positions never decrease along the list. |
| HistoryProperties.WindowTags | tradestation_client.py:93-154 | Tagged records of the window were appended on days within `[from_date, date]`, and those days never increase along the list. |
| HistoryProperties.WindowNewestFirst | tradestation_client.py:93-154 | Every record the walk appends was appended on a day within the window, carries that day's formatted date, the owning account, its type and its description, and the days never increase along `Transactions`. |
| HistoryProperties.SpentWalkOnlyResets | tradestation_client.py:96-100 | Once `date` is below `from_date`, every remaining account only has `Transactions` reset to `[]`, and nothing raises. |
| HistoryProperties.HistoryFirstAccountOnly | tradestation_client.py:93-154 | The run's exception is the first account's walk's, and the first account holds that walk's records. Without an exception, every other account ends with `Transactions == []`. |
| HistoryProperties.HistoryContents | tradestation_client.py:91-156 | The run raises exactly when some day of the window raises. Otherwise the first account holds the window's records, newest day first, and every other account holds none. |
| HistoryProperties.HistoryRecordsStamped | tradestation_client.py:93-154 | After a run without an exception, every item of the first account's `Transactions` is a record appended on a day of the window. It carries that day's formatted `TradeDate`, the first account, one of the three types and a description `Type: text`, and the days never increase along the list. |
| HistoryProperties.HistoryNegativeDaysBack | tradestation_client.py:94-100 | A negative `days_back` visits no day: every account ends with an empty `Transactions`. |
| Client.Tradestation.constructor | tradestation_client.py:65 | The client holds the given account list. |
| Client.Tradestation.ShapeCashRecord | tradestation_client.py:111-122 | Updating a cash record field by field, with the currency test as Python's `!=`, gives `ShapeCash`. |
| Client.Tradestation.ShapeOtherRecord | tradestation_client.py:132-150 | Updating a closed-position or fee record field by field gives `ShapeOther`. |
| Client.Tradestation.AppendTransaction | tradestation_client.py:124-152 | Appending to `self.accounts[i]['Transactions']` adds the record at the end of that account's list. |
| Client.Tradestation.AppendCash | tradestation_client.py:111-124 | The cash `for` loop leaves `accounts[i]` holding exactly the records of `Append`, and stops on the same exception. |
| Client.Tradestation.AppendOther | tradestation_client.py:132-152 | The same for the closed-position and fee loops. |
| Client.Tradestation.VisitDayInPlace | tradestation_client.py:101-152 | One pass of the `while` loop leaves `accounts` as `VisitDay` describes. |
| Client.Tradestation.WalkInPlace | tradestation_client.py:100-154 | The `while` loop leaves `accounts[i]` as `WalkDays` describes. Without an exception, `date` ends at `from_date - 1`, or stays put when the window is empty. |
| Client.Tradestation.GetTransactionHistory | tradestation_client.py:91-156 | The new `accounts` and the raised exception are those of `History.TransactionHistory` on the old accounts, and the method returns `accounts`. |

## Left out

- HTTP and sessions are not modelled: `get_orders`, `get_positions`, `get_user_accounts`, the `OAuth2Session` and `HTMLSession` objects, the URL and query strings of the three fetches, and the `.json()['Results']` step. Each fetch is an abstract function from an account's `Name` and `TypeDescription` values and the formatted date to a list of records. Network errors, JSON decoding errors and a missing `Results` key are therefore not represented.
- `login` is left out because it is HTML scraping and form posts. Its one piece of logic is `self.secrets[secret_question]` (line 185), which raises KeyError for an unknown question.
- `authorise`, `save_token` and the token file loading in `__init__` are console and file I/O and are left out.
- `historical_currency_rate` and `round(x * rate, 2)` are left out. The rate lookup is a web call and the rounding is float arithmetic, so both are the `convert` parameter. The model keeps the AttributeError that `base.upper()` and `quote.upper()` raise on non-strings. Other exceptions raised inside the conversion are not modelled, for example a TypeError for a non-numeric `DebitCredit`.
- The clock is the `yesterday` parameter, in place of `datetime.now(US/Central) - 1 day`. `strftime("%Y-%m-%d")` is the `fmt` parameter. The progress `print` is not modelled.
- Constructor wiring is left out: the accounts are fetched before the token exists, the compliance hooks are registered, and `OAuth2Session` refreshes tokens automatically. The constructor only takes the account list.
- The `Account` entry is a position, not a shared reference. Python stores the account dictionary itself, so the records and the account form a cycle, and later updates to the account are seen through every record. The model keeps only which account a record belongs to.
- Text.Upper: upper-cases ASCII letters only and keeps the length. Python's `str.upper` also maps other letters (`'é'` to `'É'`) and can lengthen the text (`'ß'` to `'SS'`, `'ﬁ'` to `'FI'`). The never-excludes result carries over, because Python's upper-casing yields no a..z, and each exclusion text holds one.
- Dates are unbounded integers. Python dates run only from 0001-01-01 to 9999-12-31. So `date + relativedelta(days=-days_back)` (line 94) raises OverflowError for a huge `days_back`, such as `10**6`, before any account is touched, and stepping past the first date (line 154) raises too. The model walks the whole window and raises nothing for these.
- Fetched results and accounts are records. A `Results` element or an account that is not a dictionary raises TypeError at lines 98, 112, 133 and 147 in Python. The model's `Fetch` returns `seq<Record>` and `accounts` is `seq<Record>`, so it cannot represent such inputs.
- Json.PyEq: two `AccountRef` values compare by position, while Python compares the referenced dictionaries by content. Parsed JSON never holds one, so the currency test is unaffected.
- JSON numbers are reals. `json.loads`/`json.dumps` and the re-encoding of the response body in `non_compliant_token` are not modelled; `Token.FixToken` works on the parsed value.
- Quotes.QuotesPath: `get_quotes` arguments other than a `str` or a `list` are not modelled. A list holding non-strings, which makes `join` raise, is not modelled either. The response fetch is left out.
