/**
  The records the flaw-aging report reads from the API, the enriched
  application it hands to the normaliser, the report row, and the errors that
  abort a run.
 */
module Records {
  import opened Wrappers

  /** A scalar as it reaches a report row: JSON null, an integer, or text. */
  datatype Cell = Null | Int(i: int) | Str(s: string)

  /** Python truthiness of a scalar. */
  predicate Truthy(c: Cell) {
    match c
    case Null => false
    case Int(i) => i != 0
    case Str(s) => s != ""
  }

  /** Truthiness of an optional text such as a command-line filter or a link. */
  predicate Given(o: Option<string>) {
    o.Some? && o.value != ""
  }

  /** One organisation-defined name/value pair of an application profile; the value may be any JSON scalar. */
  datatype CustomField = CustomField(name: string, value: Cell)

  /**
    An application profile; `customFields` is None when the profile has no
    `custom_fields` entry (or it is null).
   */
  datatype Profile = Profile(
    name: string,
    businessCriticality: string,
    businessUnitName: string,
    tags: string,
    customFields: Option<seq<CustomField>>)

  /** One item of the applications collection. */
  datatype RawApp = RawApp(id: int, guid: string, profile: Profile)

  /** A mitigation workflow event recorded against a finding. */
  datatype Annotation = Annotation(action: string, created: string)

  datatype Cwe = Cwe(id: int, name: string, recommendation: string)

  /**
    The status object of a finding. `findingSource` is the type-specific
    source object, a JSON object whose keys differ by analysis type;
    `componentPath` is None when the status object has no `component_path`.
   */
  datatype StatusRecord = StatusRecord(
    status: Cell,
    newInContext: bool,
    resolutionStatus: string,
    foundDate: Cell,
    lastSeenDate: Cell,
    resolvedDate: Cell,
    findingSource: map<string, Cell>,
    componentPath: Option<Cell>)

  /**
    One item of a findings collection. `findingStatus` holds the values of the
    single-entry `finding_status` mapping in order (its keys are never used);
    `scanType` is None when the finding has no `scan_type`.
   */
  datatype RawFinding = RawFinding(
    issueId: int,
    cwe: Cwe,
    categoryName: string,
    severity: int,
    exploitability: int,
    scanType: Option<string>,
    violatesPolicy: bool,
    findingStatus: seq<StatusRecord>,
    annotations: seq<Annotation>)

  /**
    An application enriched with the run's configuration: the account label,
    its resolved custom-field values and the two date filters. Its enterprise,
    origin and teams columns are always null.
   */
  datatype App = App(
    accountName: string,
    appId: int,
    appName: string,
    guid: string,
    assuranceLevel: string,
    businessUnit: string,
    tags: string,
    customFieldValues: seq<Cell>,
    foundAfter: Option<string>,
    modifiedAfter: Option<string>)

  /** A report row: positional cells with no names. */
  type Row = seq<Cell>

  /** Everything that aborts a run. */
  datatype Error =
    | HttpStatus(code: int)              // a non-ok response; the run raises
    | BadJson                            // the response body is not JSON
    | MissingField(name: string)         // a missing key (KeyError)
    | NoStatus                           // an empty `finding_status` mapping (IndexError)
    | SeverityOutOfRange(code: int)      // IndexError in the severity table
    | ExploitabilityOutOfRange(code: int)  // IndexError in the exploitability table
    | UnknownResolution(status: string)  // KeyError in the resolution table
    | BadTimestamp                       // strptime rejects a finding or annotation timestamp
    | BadDateFormat                      // a filter date is not YYYY-MM-DD
    | FiltersConflict                    // both date filters given: the run stops (exit status 0)
    | SortKeyOutOfRange                  // the sort key's column index is past the end of a row
    | IncomparableKeys                   // the sort compares key cells of two types (TypeError)
}
