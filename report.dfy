/**
  The report run: the date-filter gate, the enrichment of every application
  with the configured custom fields and filters, the per-application finding
  rows (STATIC and DYNAMIC findings only), and the flattened, sorted report.
 */
module Report {
  import opened Wrappers
  import opened Text
  import opened Timestamps
  import opened Records
  import opened Normalizer
  import opened Sorting
  import opened Api
  import opened Lists

  /**
    The run's configuration: the account label, the custom field names to
    report if given (already split at commas and stripped), and the two date
    filters.
   */
  datatype Config = Config(
    account: string,
    customFields: Option<seq<string>>,
    foundAfter: Option<string>,
    modifiedAfter: Option<string>)

  /** The custom field names reported when none are configured. */
  const DefaultLookup: seq<string> := ["Custom 1", "Custom 2", "Custom 3", "Custom 4", "Custom 5"]

  /** The custom field names the run reports: the configured list, else the defaults. */
  function Lookup(cfg: Config): seq<string> {
    cfg.customFields.GetOr(DefaultLookup)
  }

  /** `validate(date_text)`: a filter date must read as YYYY-MM-DD. */
  function Validate(date: string): (r: Result<(), Error>)
    ensures r.Ok? <==> ParseDate(date).Some?
    ensures r.Ok? ==> 8 <= |date| <= 10 && AllDigits(date[..4]) && date[4] == '-'
    ensures r.Err? ==> r.error == BadDateFormat
  {
    if ParseDate(date).Some? then Ok(()) else Err(BadDateFormat)
  }

  /** Every real calendar date written as YYYY-MM-DD passes validation. */
  lemma ValidateAcceptsDates(t: Timestamp)
    requires ValidTimestamp(t) && t.hour == 0 && t.minute == 0
    ensures Validate(DateText(t)).Ok?
  {
    ParseDateText(t);
  }

  /**
    The gate before any request: each given filter must validate, found-after
    first, and the two filters may not both be given.
   */
  function CheckFilters(foundAfter: Option<string>, modifiedAfter: Option<string>): (r: Result<(), Error>)
    ensures r.Ok? <==>
      ((!Given(foundAfter) || Validate(foundAfter.value).Ok?) &&
       (!Given(modifiedAfter) || Validate(modifiedAfter.value).Ok?) &&
       !(Given(foundAfter) && Given(modifiedAfter)))
    ensures r == Err(FiltersConflict) <==>
      (Given(foundAfter) && Given(modifiedAfter) && Validate(foundAfter.value).Ok? && Validate(modifiedAfter.value).Ok?)
    ensures r.Err? ==> r.error == BadDateFormat || r.error == FiltersConflict
  {
    if Given(foundAfter) && Validate(foundAfter.value).Err? then Err(BadDateFormat)
    else if Given(modifiedAfter) && Validate(modifiedAfter.value).Err? then Err(BadDateFormat)
    else if Given(modifiedAfter) && Given(foundAfter) then Err(FiltersConflict)
    else Ok(())
  }

  /** The position of the first custom field named `name`. */
  function FirstNamed(fields: seq<CustomField>, name: string): (r: Option<nat>)
    ensures r.Some? ==> r.value < |fields| && fields[r.value].name == name
    ensures r.Some? ==> forall j :: 0 <= j < r.value ==> fields[j].name != name
    ensures r.None? ==> forall j :: 0 <= j < |fields| ==> fields[j].name != name
  {
    if fields == [] then None
    else if fields[0].name == name then Some(0)
    else match FirstNamed(fields[1..], name)
      case None => None
      case Some(i) => Some(i + 1)
  }

  /** The value reported for a configured field name: that of the first custom field so named, else "". */
  function FieldValue(customFields: Option<seq<CustomField>>, name: string): Cell {
    if customFields.Some? && customFields.value != [] && FirstNamed(customFields.value, name).Some? then
      customFields.value[FirstNamed(customFields.value, name).value].value
    else Str("")
  }

  /**
    A configured name reads the value of the first custom field so named, and
    "" when the profile has no custom fields or none so named.
   */
  lemma FieldValueMeaning(fields: seq<CustomField>, name: string, i: nat)
    ensures (forall j :: 0 <= j < |fields| ==> fields[j].name != name) ==> FieldValue(Some(fields), name) == Str("")
    ensures FieldValue(None, name) == Str("")
    ensures i < |fields| && fields[i].name == name && (forall j :: 0 <= j < i ==> fields[j].name != name) ==>
      FieldValue(Some(fields), name) == fields[i].value
  {
  }

  /** `[x["name"] for x in custom_fields]`. */
  function Names(fields: seq<CustomField>): (r: seq<string>)
    ensures |r| == |fields| && forall i :: 0 <= i < |fields| ==> r[i] == fields[i].name
  {
    seq(|fields|, i requires 0 <= i < |fields| => fields[i].name)
  }

  /** `[x["value"] for x in custom_fields]`. */
  function Values(fields: seq<CustomField>): (r: seq<Cell>)
    ensures |r| == |fields| && forall i :: 0 <= i < |fields| ==> r[i] == fields[i].value
  {
    seq(|fields|, i requires 0 <= i < |fields| => fields[i].value)
  }

  /** `names.index(x)`: the first position of `x`. */
  function IndexOf(names: seq<string>, x: string): (i: nat)
    requires x in names
    ensures i < |names| && names[i] == x
    ensures forall j :: 0 <= j < i ==> names[j] != x
  {
    if names[0] == x then 0 else 1 + IndexOf(names[1..], x)
  }

  /** A name is among the field names exactly when some field carries it, and `index` finds the first. */
  lemma FirstNamedIndex(fields: seq<CustomField>, name: string)
    ensures FirstNamed(fields, name).Some? <==> name in Names(fields)
    ensures name in Names(fields) ==> FirstNamed(fields, name).value == IndexOf(Names(fields), name)
  {
    var names := Names(fields);
    if FirstNamed(fields, name).Some? {
      assert names[FirstNamed(fields, name).value] == name;
    }
    if name in names {
      var at := IndexOf(names, name);
      assert fields[at].name == name;
    }
  }

  /**
    The inner loop of the enrichment: one entry per configured name, in
    configured order, looked up by position in the parallel name and value
    lists of the profile's custom fields.
   */
  method ResolveCustomFields(lookup: seq<string>, customFields: Option<seq<CustomField>>) returns (data: seq<Cell>)
    ensures |data| == |lookup|
    ensures forall i :: 0 <= i < |lookup| ==> data[i] == FieldValue(customFields, lookup[i])
  {
    var present := customFields.Some? && customFields.value != [];
    var fields := customFields.GetOr([]);
    var values := if present then Values(fields) else [];
    var names := if present then Names(fields) else [];
    data := [];
    for x := 0 to |lookup|
      invariant |data| == x
      invariant forall i :: 0 <= i < x ==> data[i] == FieldValue(customFields, lookup[i])
    {
      var fieldName := lookup[x];
      FirstNamedIndex(fields, fieldName);
      if present && fieldName in names {
        data := data + [values[IndexOf(names, fieldName)]];
      } else {
        data := data + [Str("")];
      }
    }
  }

  /** The resolved custom field values of a profile, one per configured name. */
  function FieldValues(lookup: seq<string>, customFields: Option<seq<CustomField>>): (r: seq<Cell>)
    ensures |r| == |lookup|
  {
    seq(|lookup|, i requires 0 <= i < |lookup| => FieldValue(customFields, lookup[i]))
  }

  /** `len(custom_field_names)`: how many custom fields the profile has. */
  function FieldCount(customFields: Option<seq<CustomField>>): nat {
    |customFields.GetOr([])|
  }

  /** An application as the enrichment leaves it. */
  function Enriched(raw: RawApp, cfg: Config): (app: App)
    ensures |app.customFieldValues| == |Lookup(cfg)|
    ensures app.appId == raw.id && app.guid == raw.guid
  {
    App(cfg.account, raw.id, raw.profile.name, raw.guid, raw.profile.businessCriticality,
        raw.profile.businessUnitName, raw.profile.tags, FieldValues(Lookup(cfg), raw.profile.customFields),
        cfg.foundAfter, cfg.modifiedAfter)
  }

  /** After the loop, `custom_field_names` still holds the last application's names. */
  function LastFieldCount(raws: seq<RawApp>): nat {
    if raws == [] then 0 else FieldCount(raws[|raws| - 1].profile.customFields)
  }

  /**
    The enrichment loop over the applications. It also yields the custom field
    count of the last application, which the sort key reads after the loop.
   */
  method EnrichApps(raws: seq<RawApp>, cfg: Config) returns (apps: seq<App>, lastFieldCount: nat)
    ensures |apps| == |raws|
    ensures forall i :: 0 <= i < |raws| ==> apps[i] == Enriched(raws[i], cfg)
    ensures lastFieldCount == LastFieldCount(raws)
  {
    apps := [];
    lastFieldCount := 0;
    var lookup := Lookup(cfg);
    for k := 0 to |raws|
      invariant |apps| == k
      invariant forall i :: 0 <= i < k ==> apps[i] == Enriched(raws[i], cfg)
      invariant lastFieldCount == LastFieldCount(raws[..k])
    {
      var raw := raws[k];
      var customFields := raw.profile.customFields;
      var data := ResolveCustomFields(lookup, customFields);
      assert data == FieldValues(lookup, customFields);
      lastFieldCount := FieldCount(customFields);
      apps := apps + [App(cfg.account, raw.id, raw.profile.name, raw.guid, raw.profile.businessCriticality,
                          raw.profile.businessUnitName, raw.profile.tags, data, cfg.foundAfter, cfg.modifiedAfter)];
      assert raws[..k + 1][k] == raw;
    }
    assert raws[..|raws|] == raws;
  }

  /** The analysis types the report keeps. */
  predicate IsAutomation(f: RawFinding) {
    f.scanType == Some("STATIC") || f.scanType == Some("DYNAMIC")
  }

  /** The normaliser as a function value, for the comprehension over findings. */
  ghost function RowOf(app: App): RawFinding -> Result<Row, Error> {
    f => FindingRow(app, f)
  }

  /** `[make_finding(app, x) for x in findings if x is STATIC or DYNAMIC]`. */
  ghost function AppRows(app: App, findings: seq<RawFinding>): Result<seq<Row>, Error> {
    MapAll(RowOf(app), Filter(IsAutomation, findings))
  }

  /** `app_findings`: the findings request of one application, then its rows. */
  ghost function AppFetch(http: string -> Response, app: App, bound: nat): Fetch<Row>
    requires PagesBounded(http, bound)
  {
    var found := FindingsFetch(http, app.guid, app.foundAfter, app.modifiedAfter, bound);
    Fetch(if found.result.Err? then Err(found.result.error) else AppRows(app, found.result.value), found.requests)
  }

  /** One more finding: skipped unless STATIC or DYNAMIC, else its row follows the rows so far. */
  lemma AppRowsNext(app: App, findings: seq<RawFinding>, k: nat, rows: seq<Row>)
    requires k < |findings| && AppRows(app, findings[..k]) == Ok(rows)
    ensures !IsAutomation(findings[k]) ==> AppRows(app, findings[..k + 1]) == Ok(rows)
    ensures IsAutomation(findings[k]) && FindingRow(app, findings[k]).Ok? ==>
      AppRows(app, findings[..k + 1]) == Ok(rows + [FindingRow(app, findings[k]).value])
  {
    var x := findings[k];
    assert findings[..k + 1] == findings[..k] + [x];
    FilterSnoc(IsAutomation, findings[..k], x);
    if IsAutomation(x) {
      MapAllSnoc(RowOf(app), Filter(IsAutomation, findings[..k]), x);
    }
  }

  /** A STATIC or DYNAMIC finding whose row fails makes the whole comprehension fail with its error. */
  lemma AppRowsAbort(app: App, findings: seq<RawFinding>, k: nat, rows: seq<Row>)
    requires k < |findings| && AppRows(app, findings[..k]) == Ok(rows)
    requires IsAutomation(findings[k]) && FindingRow(app, findings[k]).Err?
    ensures AppRows(app, findings) == Err(FindingRow(app, findings[k]).error)
  {
    var x := findings[k];
    assert findings[..k + 1] == findings[..k] + [x];
    FilterSnoc(IsAutomation, findings[..k], x);
    MapAllSnoc(RowOf(app), Filter(IsAutomation, findings[..k]), x);
    assert findings == findings[..k + 1] + findings[k + 1..];
    FilterConcat(IsAutomation, findings[..k + 1], findings[k + 1..]);
    MapAllConcat(RowOf(app), Filter(IsAutomation, findings[..k + 1]), Filter(IsAutomation, findings[k + 1..]));
  }

  method AppFindings(http: string -> Response, app: App, ghost bound: nat)
    returns (r: Result<seq<Row>, Error>, ghost requests: seq<string>)
    requires PagesBounded(http, bound)
    ensures r == AppFetch(http, app, bound).result
    ensures requests == AppFetch(http, app, bound).requests
  {
    var found;
    found, requests := GetFindings(http, app.guid, app.foundAfter, app.modifiedAfter, bound);
    if found.Err? {
      r := Err(found.error);
      return;
    }
    var findings := found.value;
    var rows: seq<Row> := [];
    for k := 0 to |findings|
      invariant AppRows(app, findings[..k]) == Ok(rows)
    {
      var x := findings[k];
      AppRowsNext(app, findings, k, rows);
      if IsAutomation(x) {
        var row := MakeFinding(app, x);
        if row.Err? {
          AppRowsAbort(app, findings, k, rows);
          r := Err(row.error);
          return;
        }
        rows := rows + [row.value];
      }
    }
    assert findings[..|findings|] == findings;
    r := Ok(rows);
  }

  /** `pool.map(app_findings, apps)` flattened, taken in application order; the first failure aborts. */
  ghost function Gather(http: string -> Response, apps: seq<App>, bound: nat): Fetch<Row>
    requires PagesBounded(http, bound)
  {
    if apps == [] then Fetch(Ok([]), [])
    else
      var here := AppFetch(http, apps[0], bound);
      if here.result.Err? then here
      else Then(here.result.value, here.requests, Gather(http, apps[1..], bound))
  }

  /** The report: the header row and the sorted finding rows. */
  datatype Report = Report(header: seq<string>, rows: seq<Row>)

  /** `app_values + custom_field_lookup + finding_values`. */
  function Header(lookup: seq<string>): (h: seq<string>)
    ensures |h| == |AppColumnNames| + |lookup| + |FindingColumnNames|
  {
    AppColumnNames + lookup + FindingColumnNames
  }

  /** What a run ends with (no report when there are no applications), and the requests it made. */
  datatype Run = Run(result: Result<Option<Report>, Error>, requests: seq<string>)

  /** The applications as the enrichment leaves them. */
  function EnrichAll(raws: seq<RawApp>, cfg: Config): (apps: seq<App>)
    ensures |apps| == |raws| && forall i :: 0 <= i < |raws| ==> apps[i] == Enriched(raws[i], cfg)
  {
    seq(|raws|, i requires 0 <= i < |raws| => Enriched(raws[i], cfg))
  }

  /** `main` after option parsing: the gate, the applications, their findings, the sort. */
  ghost function RunOf(http: string -> Response, cfg: Config, bound: nat): Run
    requires PagesBounded(http, bound)
  {
    var gate := CheckFilters(cfg.foundAfter, cfg.modifiedAfter);
    if gate.Err? then Run(Err(gate.error), [])
    else
      var fetched := AppsFetch(http, bound);
      if fetched.result.Err? then Run(Err(fetched.result.error), fetched.requests)
      else
        var raws := fetched.result.value;
        if raws == [] then Run(Ok(None), fetched.requests)
        else
          var gathered := Gather(http, EnrichAll(raws, cfg), bound);
          var requests := fetched.requests + gathered.requests;
          if gathered.result.Err? then Run(Err(gathered.result.error), requests)
          else
            var sorted := SortRows(gathered.result.value, LastFieldCount(raws));
            if sorted.Err? then Run(Err(sorted.error), requests)
            else Run(Ok(Some(Report(Header(Lookup(cfg)), sorted.value))), requests)
  }

  method BuildReport(http: string -> Response, cfg: Config, ghost bound: nat)
    returns (r: Result<Option<Report>, Error>, ghost requests: seq<string>)
    requires PagesBounded(http, bound)
    ensures r == RunOf(http, cfg, bound).result
    ensures requests == RunOf(http, cfg, bound).requests
  {
    requests := [];
    var gate := CheckFilters(cfg.foundAfter, cfg.modifiedAfter);
    if gate.Err? {
      r := Err(gate.error);
      return;
    }
    var fetched;
    fetched, requests := GetApps(http, bound);
    if fetched.Err? {
      r := Err(fetched.error);
      return;
    }
    var apps, lastFieldCount := EnrichApps(fetched.value, cfg);
    assert apps == EnrichAll(fetched.value, cfg);
    if apps == [] {
      r := Ok(None);
      return;
    }
    var all: seq<Row> := [];
    ghost var asked: seq<string> := [];
    ThenNothing(Gather(http, apps, bound));
    for k := 0 to |apps|
      invariant Gather(http, apps, bound) == Then(all, asked, Gather(http, apps[k..], bound))
    {
      var rows, more := AppFindings(http, apps[k], bound);
      assert apps[k..][1..] == apps[k + 1..];
      if rows.Err? {
        requests := requests + (asked + more);
        r := Err(rows.error);
        return;
      }
      ThenThen(all, asked, rows.value, more, Gather(http, apps[k + 1..], bound));
      all := all + rows.value;
      asked := asked + more;
    }
    assert all + [] == all && asked + [] == asked;
    requests := requests + asked;
    var sorted := SortRows(all, lastFieldCount);
    if sorted.Err? {
      r := Err(sorted.error);
      return;
    }
    r := Ok(Some(Report(Header(Lookup(cfg)), sorted.value)));
  }

  /** Every one of `kept` normalises without error. */
  ghost predicate AllRowsOk(app: App, kept: seq<RawFinding>) {
    forall i :: 0 <= i < |kept| ==> FindingRow(app, kept[i]).Ok?
  }

  /** The rows of one application are those of its STATIC and DYNAMIC findings, one each, in order. */
  lemma AppRowsMeaning(app: App, findings: seq<RawFinding>)
    ensures AppRows(app, findings).Ok? <==> AllRowsOk(app, Filter(IsAutomation, findings))
    ensures AppRows(app, findings).Ok? ==> |AppRows(app, findings).value| == |Filter(IsAutomation, findings)|
    ensures AppRows(app, findings).Ok? ==>
      forall i :: 0 <= i < |Filter(IsAutomation, findings)| ==>
        Ok(AppRows(app, findings).value[i]) == FindingRow(app, Filter(IsAutomation, findings)[i])
    ensures forall f :: f in Filter(IsAutomation, findings) <==> f in findings && IsAutomation(f)
  {
    var kept := Filter(IsAutomation, findings);
    assert AppRows(app, findings) == MapAll(RowOf(app), kept);
    AppRowsPointwise(app, kept);
    forall f
      ensures f in Filter(IsAutomation, findings) <==> f in findings && IsAutomation(f)
    {
      FilterMembers(IsAutomation, findings, f);
    }
  }

  /** Mapping `RowOf(app)` over the kept findings, read one finding at a time. */
  lemma AppRowsPointwise(app: App, kept: seq<RawFinding>)
    ensures MapAll(RowOf(app), kept).Ok? <==> AllRowsOk(app, kept)
    ensures MapAll(RowOf(app), kept).Ok? ==> |MapAll(RowOf(app), kept).value| == |kept|
    ensures MapAll(RowOf(app), kept).Ok? ==>
      forall i :: 0 <= i < |kept| ==> Ok(MapAll(RowOf(app), kept).value[i]) == FindingRow(app, kept[i])
  {
    MapAllPointwise(RowOf(app), kept);
    forall i | 0 <= i < |kept|
      ensures RowOf(app)(kept[i]) == FindingRow(app, kept[i])
    {
    }
  }

  /** Every row of an application has its columns, its custom values, and its id in the third column. */
  lemma AppRowsLayout(app: App, findings: seq<RawFinding>)
    requires AppRows(app, findings).Ok?
    ensures var rows := AppRows(app, findings).value;
      forall i :: 0 <= i < |rows| ==>
        |rows[i]| == |AppColumnNames| + |app.customFieldValues| + |FindingColumnNames| &&
        rows[i][2] == Int(app.appId)
  {
    AppRowsMeaning(app, findings);
    var kept := Filter(IsAutomation, findings);
    var rows := AppRows(app, findings).value;
    forall i | 0 <= i < |rows|
      ensures |rows[i]| == |AppColumnNames| + |app.customFieldValues| + |FindingColumnNames|
      ensures rows[i][2] == Int(app.appId)
    {
      FindingRowLayout(app, kept[i]);
    }
  }

  /** Every one of `rows` has `width` columns. */
  predicate AllWide(rows: seq<Row>, width: nat) {
    forall i :: 0 <= i < |rows| ==> |rows[i]| == width
  }

  lemma AllWideConcat(a: seq<Row>, b: seq<Row>, width: nat)
    requires AllWide(a, width) && AllWide(b, width)
    ensures AllWide(a + b, width)
  {
    forall i | 0 <= i < |a + b|
      ensures |(a + b)[i]| == width
    {
      if i >= |a| {
        assert (a + b)[i] == b[i - |a|];
      }
    }
  }

  /** When every application has `m` custom values, every gathered row has `30 + m` columns. */
  lemma {:induction false} GatherLayout(http: string -> Response, apps: seq<App>, bound: nat, m: nat)
    requires PagesBounded(http, bound)
    requires forall j :: 0 <= j < |apps| ==> |apps[j].customFieldValues| == m
    ensures var g := Gather(http, apps, bound).result;
      g.Ok? ==> forall i :: 0 <= i < |g.value| ==> |g.value[i]| == |AppColumnNames| + m + |FindingColumnNames|
  {
    var width := |AppColumnNames| + m + |FindingColumnNames|;
    if apps != [] {
      var here := AppFetch(http, apps[0], bound);
      if here.result.Ok? {
        var found := FindingsFetch(http, apps[0].guid, apps[0].foundAfter, apps[0].modifiedAfter, bound);
        AppRowsLayout(apps[0], found.result.value);
        GatherLayout(http, apps[1..], bound, m);
        var tail := Gather(http, apps[1..], bound).result;
        var g := Gather(http, apps, bound).result;
        assert g == Then(here.result.value, here.requests, Gather(http, apps[1..], bound)).result;
        if g.Ok? {
          assert tail.Ok?;
          var rest := tail.value;
          assert AllWide(here.result.value, width);
          assert AllWide(rest, width);
          AllWideConcat(here.result.value, rest, width);
          assert g.value == here.result.value + rest;
        }
      }
    }
  }

  /**
    The sort key of a row: the application id, then the column `9 + n`, which
    is the `n`-th custom value when `n` is below the number of configured
    fields, the flaw id when it equals it, and the category four columns on.
   */
  lemma SortKeyOfRow(row: Row, app: App, f: RawFinding, n: nat)
    requires LaidOut(row, app, f)
    ensures var m := |app.customFieldValues|;
      (HasKey(row, n) <==> n < m + |FindingColumnNames|) &&
      (n < m ==> RowKey(row, n) == Key(Int(app.appId), app.customFieldValues[n])) &&
      (n == m ==> RowKey(row, n) == Key(Int(app.appId), Int(f.issueId))) &&
      (n == m + 4 ==> RowKey(row, n) == Key(Int(app.appId), Str(f.categoryName)))
  {
  }

  /**
    Two rows of one application carry the same custom values, so a key column
    among the custom values never mixes types within an application.
   */
  lemma CustomKeyShared(app: App, f1: RawFinding, f2: RawFinding, n: nat)
    requires FindingRow(app, f1).Ok? && FindingRow(app, f2).Ok?
    requires n < |app.customFieldValues|
    ensures HasKey(FindingRow(app, f1).value, n) && HasKey(FindingRow(app, f2).value, n)
    ensures RowKey(FindingRow(app, f1).value, n) == RowKey(FindingRow(app, f2).value, n)
  {
    FindingRowLayout(app, f1);
    FindingRowLayout(app, f2);
    SortKeyOfRow(FindingRow(app, f1).value, app, f1, n);
    SortKeyOfRow(FindingRow(app, f2).value, app, f2, n);
  }

  /**
    Keyed on the date-first-not-seen column, an open finding (None there) beside
    a resolved one (its date text) of the same application makes the sort raise
    TypeError.
   */
  lemma OpenBesideResolved(app: App, f1: RawFinding, f2: RawFinding)
    requires FindingRow(app, f1).Ok? && FindingRow(app, f2).Ok?
    requires f1.findingStatus != [] && !Truthy(f1.findingStatus[0].resolvedDate)
    requires f2.findingStatus != [] && Truthy(f2.findingStatus[0].resolvedDate)
    ensures SortRows([FindingRow(app, f1).value, FindingRow(app, f2).value],
      |app.customFieldValues| + 14) == Err(IncomparableKeys)
  {
    var n := |app.customFieldValues| + 14;
    NotSeenKeyCell(app, f1);
    NotSeenKeyCell(app, f2);
    FieldsOfDates(f1);
    FieldsOfDates(f2);
    NullBesideText(FindingRow(app, f1).value, FindingRow(app, f2).value, n);
  }

  /** Column `9 + m + 14` of a finding's row is its date-first-not-seen cell. */
  lemma NotSeenKeyCell(app: App, f: RawFinding)
    requires FindingRow(app, f).Ok?
    ensures var row, n := FindingRow(app, f).value, |app.customFieldValues| + 14;
      HasKey(row, n) && row[2] == Int(app.appId) && row[KeyColumn(n)] == FieldsOf(f).value.dateFirstNotSeen
  {
    var p := FieldsOf(f).value;
    RowLayout(app, p);
    assert FindingColumns(p)[14] == p.dateFirstNotSeen;
  }

  /** The header names the sort key column: a configured field name, "flaw_id", or "category". */
  lemma HeaderAtKeyColumn(lookup: seq<string>, n: nat)
    ensures KeyColumn(n) < |Header(lookup)| <==> n < |lookup| + |FindingColumnNames|
    ensures n < |lookup| ==> Header(lookup)[KeyColumn(n)] == lookup[n]
    ensures n == |lookup| ==> Header(lookup)[KeyColumn(n)] == "flaw_id"
    ensures n == |lookup| + 4 ==> Header(lookup)[KeyColumn(n)] == "category"
  {
    var h := Header(lookup);
    if n < |lookup| {
      assert h[KeyColumn(n)] == (AppColumnNames + lookup)[KeyColumn(n)];
    } else if n < |lookup| + |FindingColumnNames| {
      assert h[KeyColumn(n)] == FindingColumnNames[n - |lookup|];
    }
  }

  /** With rows of `30 + m` columns, the sort fails exactly when `n` reaches `m + 21`. */
  lemma SortKeyRange(rows: seq<Row>, m: nat, n: nat)
    requires rows != []
    requires forall i :: 0 <= i < |rows| ==> |rows[i]| == |AppColumnNames| + m + |FindingColumnNames|
    ensures SortRows(rows, n) == Err(SortKeyOutOfRange) <==> n >= m + |FindingColumnNames|
  {
    if n >= m + |FindingColumnNames| {
      assert !HasKey(rows[0], n);
    }
  }

  /** A filter error stops the run before any request. */
  lemma RunGate(http: string -> Response, cfg: Config, bound: nat)
    requires PagesBounded(http, bound)
    requires CheckFilters(cfg.foundAfter, cfg.modifiedAfter).Err?
    ensures RunOf(http, cfg, bound).requests == []
    ensures RunOf(http, cfg, bound).result == Err(CheckFilters(cfg.foundAfter, cfg.modifiedAfter).error)
  {
  }

  /** No applications: no findings requests and no report. */
  lemma RunWithoutApps(http: string -> Response, cfg: Config, bound: nat)
    requires PagesBounded(http, bound)
    requires CheckFilters(cfg.foundAfter, cfg.modifiedAfter).Ok?
    requires AppsFetch(http, bound).result == Ok([])
    ensures RunOf(http, cfg, bound) == Run(Ok(None), AppsFetch(http, bound).requests)
  {
  }

  /**
    A report holds the header for the configured names and the gathered rows,
    sorted stably by the key whose column the last application's custom field
    count selects.
   */
  lemma RunReport(http: string -> Response, cfg: Config, bound: nat)
    requires PagesBounded(http, bound)
    requires RunOf(http, cfg, bound).result.Ok? && RunOf(http, cfg, bound).result.value.Some?
    ensures AppsFetch(http, bound).result.Ok? && AppsFetch(http, bound).result.value != []
    ensures var raws := AppsFetch(http, bound).result.value;
      var gathered := Gather(http, EnrichAll(raws, cfg), bound).result;
      var report := RunOf(http, cfg, bound).result.value.value;
      gathered.Ok? && report.header == Header(Lookup(cfg)) &&
      StablySorted(report.rows, gathered.value, LastFieldCount(raws))
  {
    var raws := AppsFetch(http, bound).result.value;
    SortRowsCorrect(Gather(http, EnrichAll(raws, cfg), bound).result.value, LastFieldCount(raws));
  }

  /**
    The sort key column runs past the end of the rows, and the run fails,
    exactly when the last application has at least 21 more custom fields than
    there are configured names.
   */
  lemma RunSortKeyOutOfRange(http: string -> Response, cfg: Config, bound: nat)
    requires PagesBounded(http, bound)
    requires CheckFilters(cfg.foundAfter, cfg.modifiedAfter).Ok?
    requires AppsFetch(http, bound).result.Ok? && AppsFetch(http, bound).result.value != []
    requires Gather(http, EnrichAll(AppsFetch(http, bound).result.value, cfg), bound).result.Ok?
    requires Gather(http, EnrichAll(AppsFetch(http, bound).result.value, cfg), bound).result.value != []
    ensures RunOf(http, cfg, bound).result == Err(SortKeyOutOfRange) <==>
      LastFieldCount(AppsFetch(http, bound).result.value) >= |Lookup(cfg)| + |FindingColumnNames|
  {
    var raws := AppsFetch(http, bound).result.value;
    var apps := EnrichAll(raws, cfg);
    GatherLayout(http, apps, bound, |Lookup(cfg)|);
    SortKeyRange(Gather(http, apps, bound).result.value, |Lookup(cfg)|, LastFieldCount(raws));
  }

  /**
    When every gathered row has the key column, the run fails on the sort's
    TypeError exactly when two rows of one application have key cells of
    different types.
   */
  lemma RunIncomparableKeys(http: string -> Response, cfg: Config, bound: nat)
    requires PagesBounded(http, bound)
    requires CheckFilters(cfg.foundAfter, cfg.modifiedAfter).Ok?
    requires AppsFetch(http, bound).result.Ok? && AppsFetch(http, bound).result.value != []
    requires Gather(http, EnrichAll(AppsFetch(http, bound).result.value, cfg), bound).result.Ok?
    requires AllHaveKeys(Gather(http, EnrichAll(AppsFetch(http, bound).result.value, cfg), bound).result.value,
                         LastFieldCount(AppsFetch(http, bound).result.value))
    ensures RunOf(http, cfg, bound).result == Err(IncomparableKeys) <==>
      MixedKeys(Gather(http, EnrichAll(AppsFetch(http, bound).result.value, cfg), bound).result.value,
                LastFieldCount(AppsFetch(http, bound).result.value))
  {
  }
}
