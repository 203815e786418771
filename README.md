# Flaw aging report, modelled in Dafny

`veracode-flaw-aging` builds one CSV report of the static and dynamic security
findings of every application in a Veracode account. It pages through the
applications collection and enriches each application with the run's account label,
its configured custom field values and the date filters. It then fetches each
application's findings, again page by page, and turns every STATIC or DYNAMIC finding
into one flat row:

- the nine application columns;
- one column per configured custom field name;
- the twenty-one finding columns.

It sorts the rows and writes them under a header.

This project models that core:

- the option gate on the two date filters (`validate` and the conflict check);
- the paged HTTP loops of `get_apps` and `get_findings`;
- the enrichment loop with its custom field resolution;
- `make_finding` and the `app_findings` filter;
- the flattening and sorting of the rows.

The HTTP client is an oracle: a function from a request URI to the response it gets.
Every fetch loop also returns, as a ghost value, the URIs it requested, in order.

Modules:

- `Records`: the API records, the report cell and the errors that abort a run.
- `Text` and `Timestamps`: integer text, the `strptime` layouts the program reads, and
  its unpadded `M/D/YYYY H:M` display text.
- `Normalizer`: `make_finding`.
- `Lists`: the two comprehensions, filter and map-that-may-raise.
- `Sorting`: a stable sort by the row key.
- `Api`: the page walks.
- `Report`: `main` and `app_findings`.

The imperative loops of the source are Dafny methods, each proved against a ghost
function that states what it computes: `GetApps`, `WalkFindings`, `GetFindings`,
`ScanAnnotations`, `MakeFinding`, `ResolveCustomFields`, `EnrichApps`, `AppFindings`
and `BuildReport`.

Where the program's behaviour is unexpected, the model follows the code:

- **The sort key.** The key is `(row[2], row[9 + n])`. `row[2]` is the application id.
  `n` is `len(custom_field_names)` left over from the enrichment loop, so it is the
  number of custom fields in the profile of the LAST application.
  - With the default five configured names, that column is a custom value, the flaw id
    or a later finding column, depending on that count.
  - It is the category only when the last profile has exactly four more custom fields
    than there are configured names (`Report.SortKeyOfRow`, `Report.HeaderAtKeyColumn`).
  - When the column lies past the end of the rows, the sort raises an IndexError
    (`Report.RunSortKeyOutOfRange`). The first component is the application id, not
    the finding category.
- **Negative severity and exploitability codes.** They index the label tables from the
  end, as Python lists do: severity -6..-1 and exploitability -7..-3 yield labels
  rather than errors (`Normalizer.SeverityLabel`, `Normalizer.ExploitLabel`).
- **404 on a findings page.** It is not an error. The page's body is read like any
  other (`Api.NotFoundPage`).
- **The last-seen date.** The last-seen column shows the last-seen day with the FOUND
  date's hour and minute (`Normalizer.FieldsOfDates`).
- **Keys of mixed types.** The sort runs under Python 3, where `<` between `None`, an
  integer and a text raises a TypeError. Two rows of one application whose key cells
  have different types make the sort fail (`Sorting.SortRows`, `Sorting.NullBesideText`,
  `Report.RunIncomparableKeys`). A custom-value key column cannot do this, because every
  row of an application carries the same custom values (`Report.CustomKeyShared`). A
  finding column can: keyed on date-first-not-seen (n = m + 14), an open finding (None)
  beside a resolved one (its date text) fails (`Report.OpenBesideResolved`). The
  mitigation columns (n = m + 15..m + 17) behave the same way.
- **Short date filters.** `strptime` with `%Y-%m-%d` accepts one-digit months and
  days, and a day written with a leading space, so "2023-1-5" passes the gate
  (`Timestamps.ParseDateShortFields`).
- **The mitigation columns.**
  - "mitigation_first_proposed" shows the LAST proposal.
  - "mitigation_last_accepted" and "mitigation_last_rejected" show the FIRST approval
    and the FIRST rejection (`Normalizer.ScanAnnotations`).

## Model

| member | source | states |
|---|---|---|
| Normalizer.SeverityLabel | veracode-flaw-aging/veracodeflawaging/main.py:73 | codes 0..5 name their label, -6..-1 wrap to the label counted from the end, and every other code fails with that code |
| Normalizer.ExploitLabel | veracode-flaw-aging/veracodeflawaging/main.py:74 | codes -2..2 name the label at code + 2, -7..-3 wrap from the end, every other code fails with that code |
| Normalizer.MitigationLabel | veracode-flaw-aging/veracodeflawaging/main.py:52-58 | exactly the five resolution codes have a label, "Not Mitigated" is the label of exactly NONE and AUTOMATED, any other code is a lookup error |
| Normalizer.HistoryState | veracode-flaw-aging/veracodeflawaging/main.py:117-120 | New iff OPEN and new, Existing iff OPEN and not new, Closed iff some other non-empty status, unset iff the status is empty |
| Normalizer.PolicyFlag | veracode-flaw-aging/veracodeflawaging/main.py:112-115 | "0" exactly when the finding violates policy, "1" exactly when it does not |
| Normalizer.Field | veracode-flaw-aging/veracodeflawaging/main.py:92-109 | a key lookup succeeds exactly when the key is present, with its value, and otherwise fails naming the key |
| Normalizer.StaticPlacementAtProcedure | veracode-flaw-aging/veracodeflawaging/main.py:94-98 | a STATIC source with procedure and relative location is placed at the module and `procedure:relative_location` |
| Normalizer.StaticPlacementAtFileLine | veracode-flaw-aging/veracodeflawaging/main.py:99-101 | a STATIC source whose text lacks either name is placed at the module and `file_path:file_line_number` |
| Normalizer.DynamicPlacement | veracode-flaw-aging/veracodeflawaging/main.py:102-105 | DYNAMIC findings get the CWE advice, the fixed module "Dynamic Analysis" and the source URL |
| Normalizer.ManualPlacement | veracode-flaw-aging/veracodeflawaging/main.py:106-109 | MANUAL findings get the remediation text, the fixed module "Manual Pentest" and the source module as location |
| Normalizer.ScaPlacement | veracode-flaw-aging/veracodeflawaging/main.py:90-93 | SCA findings take the component file name from the source and the location from the status object |
| Normalizer.UnknownTypePlacement | veracode-flaw-aging/veracodeflawaging/main.py:90-110 | any other analysis type sets none of the three columns |
| Normalizer.ParseCell | veracode-flaw-aging/veracodeflawaging/main.py:122 | a date cell parses exactly when it is text in the API layout, to that parse, and otherwise fails |
| Normalizer.FirstAction | veracode-flaw-aging/veracodeflawaging/main.py:134-139 | the position found is an annotation with the action and none before it has it; none found means none has it |
| Normalizer.LastProposal | veracode-flaw-aging/veracodeflawaging/main.py:140-142 | the position found is a proposal and none after it is; none found means no annotation is a proposal |
| Normalizer.ScanStepMeaning | veracode-flaw-aging/veracodeflawaging/main.py:133-142 | one loop pass fails exactly when it must parse a malformed timestamp, and otherwise advances the columns to those of one more annotation |
| Normalizer.ScanAnnotations | veracode-flaw-aging/veracodeflawaging/main.py:133-142 | the loop yields the first approval, the first rejection and the last proposal, or fails when a timestamp it parses is malformed |
| Normalizer.PlacementOf | veracode-flaw-aging/veracodeflawaging/main.py:90-109 | the analysis-type branch: for each of SCA, STATIC, DYNAMIC and MANUAL the three columns it sets or the key it misses, and nothing for any other type; its cases are the placement lemmas above |
| Normalizer.Mentions | veracode-flaw-aging/veracodeflawaging/main.py:96 | `word in str(source)` read as an occurrence inside one key or one text value; a key that is present is mentioned (`KeyIsMentioned`) |
| Normalizer.LastSeenColumn | veracode-flaw-aging/veracodeflawaging/main.py:125-127 | the last-seen column: unset without a last-seen date, else its day at the found date's hour and minute, or the parse error; stated by `FieldsOfDates` |
| Normalizer.OptionalDateColumn | veracode-flaw-aging/veracodeflawaging/main.py:129-131 | the resolved-date column: unset without a date, else the display text of the resolved date at its own hour and minute, or the parse error; stated by `FieldsOfDates` and `ResolvedDateShown` |
| Normalizer.FieldsOf | veracode-flaw-aging/veracodeflawaging/main.py:62-142 | every successful read of a finding has a placement; what each field holds is stated by `FieldsOfValues` and `FieldsOfDates` |
| Normalizer.FieldsOfValues | veracode-flaw-aging/veracodeflawaging/main.py:67-109 | a normalised finding carries its issue id, the CWE name and id, the category, the severity and exploitability labels, the policy flag, the analysis type, and the placement its analysis type selects |
| Normalizer.FieldsOfDates | veracode-flaw-aging/veracodeflawaging/main.py:117-142 | a normalised finding keeps the status, shows the found date, the last-seen day at the found date's hour and minute, and the resolved date at its own hour and minute; empty dates stay unset; the mitigation columns are the annotation scan's |
| Normalizer.ResolvedDateShown | veracode-flaw-aging/veracodeflawaging/main.py:129-131 | a resolved DYNAMIC finding with no annotations is read, whatever valid found and resolved dates it has, and its date-first-not-seen column shows the resolved date's own text |
| Normalizer.RowLayout | veracode-flaw-aging/veracodeflawaging/main.py:144 | the assembled row is the 9 application columns, the custom values, then the 21 finding columns, with the key fields at their positions |
| Normalizer.FindingRow | veracode-flaw-aging/veracodeflawaging/main.py:144 | the row of one finding: the application columns, the custom values, then the finding columns, or the normaliser's first error; stated by `FindingRowLayout` and `FindingRowFirstErrors` |
| Normalizer.FindingCells | veracode-flaw-aging/veracodeflawaging/main.py:144 | of the 21 finding columns, the flaw id, flaw name, policy flag, CWE id, category, severity, exploitability and analysis type sit where the header names them |
| Normalizer.FindingRowLayout | veracode-flaw-aging/veracodeflawaging/main.py:144 | every row of a finding has 30 + m columns and the app id, custom values, flaw id, category, severity, policy flag and analysis type where the header names them |
| Normalizer.FindingRowFirstErrors | veracode-flaw-aging/veracodeflawaging/main.py:64-75 | the row fails on an empty status mapping, then on the severity, then the exploitability, then the resolution lookup, in that order |
| Normalizer.FindingRowUnknownType | veracode-flaw-aging/veracodeflawaging/main.py:90-110 | a finding of an analysis type outside the four never yields a row, because its recommendation was never set |
| Normalizer.MakeFinding | veracode-flaw-aging/veracodeflawaging/main.py:62-144 | the imperative normaliser yields exactly the row (or the first error) of the specification |
| Lists.FilterMembers | veracode-flaw-aging/veracodeflawaging/main.py:149 | the comprehension keeps exactly the findings that pass the test |
| Lists.FilterConcat | veracode-flaw-aging/veracodeflawaging/main.py:149 | the comprehension keeps the order of the findings |
| Lists.MapAllPointwise | veracode-flaw-aging/veracodeflawaging/main.py:149 | a map that may raise succeeds exactly when every element does, with one value per element in order |
| Lists.MapAllFirstError | veracode-flaw-aging/veracodeflawaging/main.py:149 | a failing map fails with the error of the first element that fails |
| Report.Validate | veracode-flaw-aging/veracodeflawaging/main.py:152-156 | a filter date is accepted exactly when `ParseDate` reads it, so it is 8 to 10 characters starting with four digits and a dash; a refused date is the error `BadDateFormat` |
| Report.ValidateAcceptsDates | veracode-flaw-aging/veracodeflawaging/main.py:152-156 | every real date written as YYYY-MM-DD is accepted |
| Report.CheckFilters | veracode-flaw-aging/veracodeflawaging/main.py:173-181 | the gate passes exactly when each given filter validates and not both are given; it reports a conflict exactly when both are given and valid |
| Report.FirstNamed | veracode-flaw-aging/veracodeflawaging/main.py:200-203 | the field found carries the name and no earlier one does; none found means none carries it |
| Report.FieldValue | veracode-flaw-aging/veracodeflawaging/main.py:201-203 | the value reported for one configured name; stated by `FieldValueMeaning` |
| Report.FieldValueMeaning | veracode-flaw-aging/veracodeflawaging/main.py:195-203 | a configured name reads the value of the first custom field so named, and "" when there are none or none so named |
| Report.FirstNamedIndex | veracode-flaw-aging/veracodeflawaging/main.py:201-202 | a name is among the field names exactly when some field carries it, and `index` agrees with the first such field |
| Report.ResolveCustomFields | veracode-flaw-aging/veracodeflawaging/main.py:195-203 | one value per configured name, in configured order, each that of the first field so named or "" |
| Report.Enriched | veracode-flaw-aging/veracodeflawaging/main.py:205-218 | an enriched application has one custom value per configured name and keeps its id and GUID |
| Report.LastFieldCount | veracode-flaw-aging/veracodeflawaging/main.py:197 | the number of custom fields of the last application, 0 without applications or fields; the sort key reads it (`SortKeyOfRow`) |
| Report.EnrichApps | veracode-flaw-aging/veracodeflawaging/main.py:194-218 | the loop enriches every application in order and leaves the last application's custom field count behind |
| Report.AppRowsMeaning | veracode-flaw-aging/veracodeflawaging/main.py:147-150 | an application's rows succeed exactly when every STATIC or DYNAMIC finding does, one row per such finding in order; no other finding is kept |
| Report.AppRowsLayout | veracode-flaw-aging/veracodeflawaging/main.py:147-150 | every row of an application has 30 + m columns and the application id in its third column |
| Report.AppFindings | veracode-flaw-aging/veracodeflawaging/main.py:147-150 | the imperative comprehension yields the specification's rows or first error, after the findings requests |
| Report.Gather | veracode-flaw-aging/veracodeflawaging/main.py:221-223 | the findings rows of the applications in order, concatenated, and the requests made, stopping at the first application that fails; stated by `GatherLayout` and the run lemmas |
| Report.GatherLayout | veracode-flaw-aging/veracodeflawaging/main.py:220-223 | with m custom values per application, every gathered row has 30 + m columns |
| Report.SortKeyOfRow | veracode-flaw-aging/veracodeflawaging/main.py:225 | the key exists exactly when n < m + 21: the app id with the n-th custom value, the flaw id when n = m, the category when n = m + 4 |
| Report.CustomKeyShared | veracode-flaw-aging/veracodeflawaging/main.py:225 | for n below the custom-value count, two rows of one application have the same sort key, so such a key column never mixes types within an application |
| Report.NotSeenKeyCell | veracode-flaw-aging/veracodeflawaging/main.py:129-144 | a finding row's key column at n = m + 14 exists and holds that finding's date-first-not-seen cell, beside the application id |
| Report.OpenBesideResolved | veracode-flaw-aging/veracodeflawaging/main.py:225 | keyed on date-first-not-seen, an open finding beside a resolved one of the same application makes the sort fail with a TypeError |
| Report.HeaderAtKeyColumn | veracode-flaw-aging/veracodeflawaging/main.py:225-227 | the header names the key column: a configured name, "flaw_id" or "category", in the same three cases |
| Report.SortKeyRange | veracode-flaw-aging/veracodeflawaging/main.py:225 | the sort of non-empty rows of 30 + m columns fails exactly when n >= m + 21 |
| Report.RunOf | veracode-flaw-aging/veracodeflawaging/main.py:173-228 | the run: gate, applications, enrichment, findings, sort, header; stated by the run lemmas below and matched by `BuildReport` |
| Report.RunGate | veracode-flaw-aging/veracodeflawaging/main.py:173-181 | a bad or conflicting filter stops the run with that error before any request |
| Report.RunWithoutApps | veracode-flaw-aging/veracodeflawaging/main.py:220 | without applications there are no findings requests and no report |
| Report.RunReport | veracode-flaw-aging/veracodeflawaging/main.py:220-228 | a report has the header for the configured names, and its rows are the gathered rows sorted stably by the key the last application selects |
| Report.RunSortKeyOutOfRange | veracode-flaw-aging/veracodeflawaging/main.py:225 | a run with rows fails on the sort exactly when the last application has at least 21 more custom fields than there are configured names |
| Report.RunIncomparableKeys | veracode-flaw-aging/veracodeflawaging/main.py:225 | a run whose rows all have the key column fails with a TypeError exactly when two rows of one application have key cells of different types |
| Report.BuildReport | veracode-flaw-aging/veracodeflawaging/main.py:173-228 | the imperative run yields the specification's report or first error, with the requests in order |
| Sorting.CellLe | veracode-flaw-aging/veracodeflawaging/main.py:225 | `<=` on two cells of one type as Python 3 compares them; across types it only fixes an order that the sort never reaches (see `SortRows`) |
| Sorting.KeyLe | veracode-flaw-aging/veracodeflawaging/main.py:225 | tuple comparison: the application ids decide unless they are equal, then the second cells |
| Sorting.KeyLeTotal | veracode-flaw-aging/veracodeflawaging/main.py:225 | any two keys compare |
| Sorting.KeyLeTransitive | veracode-flaw-aging/veracodeflawaging/main.py:225 | key order is transitive |
| Sorting.KeyLeAntisymmetric | veracode-flaw-aging/veracodeflawaging/main.py:225 | keys within each other's bounds are equal |
| Sorting.MixedKeys | veracode-flaw-aging/veracodeflawaging/main.py:225 | two rows of one application whose key cells have different types, which Python 3 cannot order |
| Sorting.SortRows | veracode-flaw-aging/veracodeflawaging/main.py:225 | the sort fails with an index error exactly when a row lacks the key column, else with a TypeError exactly when two rows of one application have key cells of different types, and otherwise succeeds keeping the number of rows |
| Sorting.NullBesideText | veracode-flaw-aging/veracodeflawaging/main.py:225 | a null key cell beside a text one in the same application makes the sort fail with a TypeError |
| Sorting.SortRowsCorrect | veracode-flaw-aging/veracodeflawaging/main.py:225 | the sorted rows are in key order, a permutation of the input, and rows with equal keys keep their input order |
| Api.FilteredUri | veracode-flaw-aging/veracodeflawaging/api.py:68-74 | the findings link gains `&found_after=` and then `&modified_after=` exactly for the filters that are given |
| Api.ReadPageMeaning | veracode-flaw-aging/veracodeflawaging/api.py:41-49 | a page fails exactly on an error status (a findings page lets 404 through) or a non-JSON body, with that status or BadJson, else yields its items and total |
| Api.UriOf | veracode-flaw-aging/veracodeflawaging/api.py:80-99 | the URI of page p: the findings link itself for page 0 and its page template filled with p after that; for the applications walk the link with `?page=p` (api.py line 39) |
| Api.Template | veracode-flaw-aging/veracodeflawaging/api.py:97-98 | the findings link gains `&page={}` unless it already contains `&page=`; stated by `PageParamAppended` and `PageParamPresent` |
| Api.FillPage | veracode-flaw-aging/veracodeflawaging/api.py:99 | `template.format(page)` for a template ending in `{}`; stated by `PageParamAppended` |
| Api.ReadPage | veracode-flaw-aging/veracodeflawaging/api.py:41-49 | one page read: its items and total, or the error status or bad body it fails on, with a 404 let through on a findings page (api.py lines 83-92); stated by `ReadPageMeaning` |
| Api.Walk | veracode-flaw-aging/veracodeflawaging/api.py:38-53 | the page loop: read a page, stop on an error or when the next page reaches the total, else go on; the findings loop at api.py lines 81-99 is the same walk; stated by the walk lemmas below |
| Api.WalkRequests | veracode-flaw-aging/veracodeflawaging/api.py:38-53 | a walk requests at least one page, pages 0, 1, ... in turn |
| Api.WalkContinues | veracode-flaw-aging/veracodeflawaging/api.py:52-53 | every page but the last one requested was read and announced a later page |
| Api.WalkStops | veracode-flaw-aging/veracodeflawaging/api.py:38-53 | the last page requested is the first that fails or has no later page, and the walk fails exactly when it does, with its error |
| Api.WalkItems | veracode-flaw-aging/veracodeflawaging/api.py:49-50 | a successful walk yields the items of every page it requested, in page order |
| Api.ConstantTotal | veracode-flaw-aging/veracodeflawaging/api.py:48-53 | when every page reports a total of T, the walk from page 0 makes exactly T requests and yields all their items |
| Api.MissingTotal | veracode-flaw-aging/veracodeflawaging/api.py:48 | a page without a total ends the walk after that one request |
| Api.NotFoundPage | veracode-flaw-aging/veracodeflawaging/api.py:83-88 | a 404 findings page is read as usual, while the applications walk raises on it |
| Api.PageParamAppended | veracode-flaw-aging/veracodeflawaging/api.py:97-99 | without a page parameter, page p > 0 is requested with `&page=p` appended exactly once |
| Api.PageParamPresent | veracode-flaw-aging/veracodeflawaging/api.py:97-99 | a link that already has a page parameter is requested unchanged on every page |
| Api.GetApps | veracode-flaw-aging/veracodeflawaging/api.py:30-54 | the imperative loop yields the applications walk's items or error, with the same requests |
| Api.WalkFindings | veracode-flaw-aging/veracodeflawaging/api.py:76-101 | the imperative loop yields the findings walk's items or error, with the same requests |
| Api.GetFindings | veracode-flaw-aging/veracodeflawaging/api.py:57-101 | the detail request, its failures, then the findings walk from the filtered link |
| Timestamps.ParseTimestamp | veracode-flaw-aging/veracodeflawaging/main.py:122 | an accepted API timestamp has the `YYYY-MM-DDTHH:MM:SS.fZ` layout and a real date and time, with the year, month, day, hour and minute it spells |
| Timestamps.MonthField | veracode-flaw-aging/veracodeflawaging/main.py:154 | defined as the `%m` field at the head of a text, trying the two-digit forms first; its contract gives a width of one or two characters and a month 1..12 |
| Timestamps.DayField | veracode-flaw-aging/veracodeflawaging/main.py:154 | defined as the `%d` field at the head of a text (one or two digits, or a space and a digit), trying the two-digit forms first; its contract gives a width of one or two characters and a day 1..31 |
| Timestamps.ParseDate | veracode-flaw-aging/veracodeflawaging/main.py:154 | an accepted filter date is 8 to 10 characters: a four-digit year, a dash, a `MonthField`, a dash and a `DayField` that ends the text, and it names the real date at midnight with the year, month and day those fields read |
| Timestamps.ParseDateShortFields | veracode-flaw-aging/veracodeflawaging/main.py:154 | "2023-1-5" and "2023-01- 5" are read as 5 January 2023, and "2023-13-01" is refused |
| Timestamps.ParseIsoText | veracode-flaw-aging/veracodeflawaging/main.py:122 | every real date and time written in the API layout parses back to itself |
| Timestamps.ParseDateText | veracode-flaw-aging/veracodeflawaging/main.py:154 | every real date written as YYYY-MM-DD parses back to itself |
| Timestamps.Format | veracode-flaw-aging/veracodeflawaging/main.py:123 | the unpadded `month/day/year hour:minute` text; stated by `FormatRoundTrip` and `FormatInjective` |
| Timestamps.FormatRoundTrip | veracode-flaw-aging/veracodeflawaging/main.py:123 | the unpadded display text can be read back to the five fields it shows |
| Timestamps.FormatInjective | veracode-flaw-aging/veracodeflawaging/main.py:123 | two timestamps with the same display text agree in every field shown |
| Text.NatToStringRoundTrip | veracode-flaw-aging/veracodeflawaging/api.py:39 | the decimal text of a page number reads back as that number |
| Text.IntToStringRoundTrip | veracode-flaw-aging/veracodeflawaging/main.py:98 | the decimal text of an integer reads back as that integer |

## Left out

- Writing the CSV file, the console messages, the elapsed-time report and the option
  parser: the model starts from a parsed `Config`. The comma split and strip of
  `--custom-fields` happen before it.
- HMAC request signing, and the network itself: requests go to a response oracle.
- Real exceptions: the model returns an `Error` value instead.
  - Any error that aborts the run is a `Result` error.
  - Both date filters given stop the run with exit status 0, after a message. This is
    the error `FiltersConflict`.
- The process pool: `pool.map` is modelled as a sequential map over the applications
  in order. The error reported is the one from the first failing application. No
  request is made after that application fails. The real pool runs ten workers
  concurrently and lets every application's task finish, so its requests include
  those of the applications after a failing one. It then raises the first failure to
  arrive, which need not be the first in application order. The model captures
  neither the full request trace of a failing run nor which error the pool reports.
- The findings list and the application dictionaries are updated in place in the
  source. The model treats them as values: an enriched `App` is rebuilt, not mutated.
- Api.Walk and its callers terminate under a ghost bound: `PagesBounded` bounds the
  page total of every response the oracle gives, for every URI. An oracle whose totals
  grow without bound, so that the walk never ends, is not modelled.
- A findings link that is missing becomes the error `MissingField("href")`. In the
  source, `requests` fails on the literal link `None`, or on `None&...`.
- A response body that is not JSON becomes `BadJson`. Other shapes of JSON are not
  modelled: the fields the loops read are present or absent, never of the wrong type.
- Records.RawFinding and Records.RawApp hold only the keys the program reads. A missing
  key is modelled only for these:
  - the keys of the finding source that each analysis type reads (`MissingField`);
  - `component_path` of an SCA finding;
  - `scan_type`, which also decides whether a finding is kept;
  - the findings link of an application;
  - an empty `finding_status` mapping (`NoStatus`) and absent custom fields.

  Every other key is taken to be present, and the KeyError its absence would raise is
  not modelled:
  - of a finding: `issue_id`, `cwe` with its `name`, `id` and `recommendation`, the
    category name, `severity`, `exploitability`, `violates_policy` and `annotations`;
  - of the status object: `status`, `new_in_context`, `resolution_status`,
    `found_date`, `last_seen_date`, `resolved_date` and `finding_source`;
  - of an annotation: `action` and `created`;
  - of an application: `id`, `guid`, and the profile with its `name`,
    `business_criticality`, business unit name and `tags`;
  - of a custom field: `name` and `value`.
- Api.FillPage: only the trailing `{}` that the program appends is filled in. Other
  braces in a link returned by the API are not interpreted as format fields.
- Timestamps.ParseTimestamp: accepts only the two-digit fields the API writes. `strptime`
  also accepts one-digit months, days, hours, minutes and seconds, a lower-case `t` or
  `z` (it matches without regard to case), and digits of other scripts. The seconds
  field is up to 59, as `datetime` demands.
- Timestamps.ParseDate: follows `strptime`'s field forms for `%Y-%m-%d`, but reads only
  ASCII digits; digits of other scripts, which `strptime` also accepts, are refused.
- Sorting.CellLe: orders cells of different types (null, then integers, then text) only
  so that the key order is total. Python 3 raises a TypeError on such a comparison
  instead, and `SortRows` fails with `IncomparableKeys` whenever one application's rows
  hold key cells of two types. `list.sort` must then compare such a pair: had it
  compared none, every answer it saw would fit both "this type first" and "that type
  first", and one output cannot be sorted under both. The model does not follow which
  pair it compares first; the error is the same.
- The sort is a specification function (an insertion sort), not the interpreter's
  Timsort. What is proved of it (sorted, a permutation, stable) is what `list.sort`
  promises.
