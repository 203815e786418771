/**
  The finding normaliser: one raw finding plus its enriched application become
  one flat report row (the 9 application columns, the application's custom
  field values, then the 21 finding columns).
 */
module Normalizer {
  import opened Wrappers
  import opened Text
  import opened Timestamps
  import opened Records

  const SeverityLabels: seq<string> := ["Informational", "Very Low", "Low", "Medium", "High", "Very High"]
  const ExploitLabels: seq<string> := ["Very Unlikely", "Unlikely", "Neutral", "Likely", "Very Likely"]
  const MitigationLabels: map<string, string> := map[
    "NONE" := "Not Mitigated",
    "PROPOSED" := "Mitigation Proposed",
    "APPROVED" := "Mitigation Approved",
    "REJECTED" := "Mitigation Rejected",
    "AUTOMATED" := "Not Mitigated"]
  const ProposalActions: seq<string> := ["FP", "APPDESIGN", "OSENV", "NETENV", "NOACTIONTAKEN",
    "CUSTOMCLEANSERPROPOSED", "REMEDIATED", "BYENV", "BYDESIGN", "ACCEPTRISK"]

  /** The application column names, in row order. */
  const AppColumnNames: seq<string> := ["account_name", "enterprise_name", "app_id", "app_name",
    "assurance_level", "business_unit", "origin", "teams", "tags"]

  /** The finding column names, in row order. */
  const FindingColumnNames: seq<string> := ["flaw_id", "flaw_name", "policy_rule_passed", "cwe_id",
    "category", "severity", "exploitability", "status", "issue_history_state", "mitigation_status",
    "analysis_type", "owasptext", "date_first_seen", "date_last_seen", "date_first_not_seen",
    "mitigation_first_proposed", "mitigation_last_accepted", "mitigation_last_rejected",
    "recommendation", "module_name", "location"]

  // Positions within the finding columns (indices into FindingColumnNames).
  const FlawIdCol := 0
  const PolicyRulePassedCol := 2
  const SeverityCol := 5
  const ExploitabilityCol := 6
  const IssueHistoryStateCol := 8
  const MitigationStatusCol := 9
  const DateFirstSeenCol := 12
  const DateLastSeenCol := 13
  const DateFirstNotSeenCol := 14
  const FirstProposedCol := 15
  const LastAcceptedCol := 16
  const LastRejectedCol := 17
  const RecommendationCol := 18
  const ModuleNameCol := 19
  const LocationCol := 20

  /** Python's `table[i]` on a list: a negative index counts from the end. */
  function PyIndex(table: seq<string>, i: int): Option<string> {
    if 0 <= i < |table| then Some(table[i])
    else if -|table| <= i < 0 then Some(table[|table| + i])
    else None
  }

  /** `severity_lookup[code]`. */
  function SeverityLabel(code: int): (r: Result<string, Error>)
    ensures 0 <= code <= 5 ==> r == Ok(SeverityLabels[code])
    ensures -6 <= code < 0 ==> r == Ok(SeverityLabels[6 + code])
    ensures r.Err? <==> code >= 6 || code < -6
    ensures r.Err? ==> r.error == SeverityOutOfRange(code)
  {
    match PyIndex(SeverityLabels, code)
    case Some(name) => Ok(name)
    case None => Err(SeverityOutOfRange(code))
  }

  /** `exploit_lookup[code + 2]`. */
  function ExploitLabel(code: int): (r: Result<string, Error>)
    ensures -2 <= code <= 2 ==> r == Ok(ExploitLabels[code + 2])
    ensures -7 <= code < -2 ==> r == Ok(ExploitLabels[code + 7])
    ensures r.Err? <==> code + 2 >= 5 || code + 2 < -5
    ensures r.Err? ==> r.error == ExploitabilityOutOfRange(code)
  {
    match PyIndex(ExploitLabels, code + 2)
    case Some(name) => Ok(name)
    case None => Err(ExploitabilityOutOfRange(code))
  }

  /** `mitigation_dict[code]`. */
  function MitigationLabel(code: string): (r: Result<string, Error>)
    ensures r.Ok? <==> code in {"NONE", "PROPOSED", "APPROVED", "REJECTED", "AUTOMATED"}
    ensures r == Ok("Not Mitigated") <==> code == "NONE" || code == "AUTOMATED"
    ensures r.Err? ==> r.error == UnknownResolution(code)
  {
    if code in MitigationLabels then Ok(MitigationLabels[code]) else Err(UnknownResolution(code))
  }

  /** The issue history state derived from the status and the new-in-context flag. */
  function HistoryState(status: Cell, isNew: bool): (r: Cell)
    ensures r == Str("New") <==> status == Str("OPEN") && isNew
    ensures r == Str("Existing") <==> status == Str("OPEN") && !isNew
    ensures r == Str("Closed") <==> status != Str("OPEN") && Truthy(status)
    ensures r == Null <==> !Truthy(status)
  {
    if status == Str("OPEN") then (if isNew then Str("New") else Str("Existing"))
    else if Truthy(status) then Str("Closed")
    else Null
  }

  /** The policy flag: "0" when the finding violates policy, "1" otherwise. */
  function PolicyFlag(violates: bool): (r: string)
    ensures r == "0" <==> violates
    ensures r == "1" <==> !violates
  {
    if violates then "0" else "1"
  }

  /** `"{}".format(c)`. */
  function CellText(c: Cell): string {
    match c
    case Null => "None"
    case Int(i) => IntToString(i)
    case Str(s) => s
  }

  /** `mapping[key]`. */
  function Field(src: map<string, Cell>, key: string): (r: Result<Cell, Error>)
    ensures r.Ok? <==> key in src
    ensures r.Ok? ==> r.value == src[key]
    ensures r.Err? ==> r.error == MissingField(key)
  {
    if key in src then Ok(src[key]) else Err(MissingField(key))
  }

  /**
    `word in str(src)`: the text of the source object mentions `word`, read as an
    occurrence inside one key or one text value. The text of a mapping adds quotes,
    colons, commas and braces, none of them letters, so this reading is exact for
    keys and values made of printable characters; an escape such as `\r` in front
    of `elative_location` would spell the word across the escape, which this
    predicate does not see.
   */
  predicate Mentions(src: map<string, Cell>, word: string) {
    exists k :: k in src && (Contains(k, word) || (src[k].Str? && Contains(src[k].s, word)))
  }

  lemma KeyIsMentioned(src: map<string, Cell>, word: string)
    requires word in src
    ensures Mentions(src, word)
  {
    ContainsItself(word);
  }

  /** The recommendation, module and location columns. */
  datatype Placement = Placement(recommendation: Cell, moduleName: Cell, location: Cell)

  /**
    The analysis-type branch. None when the type is none of SCA, STATIC,
    DYNAMIC and MANUAL: the three columns are then never set.
   */
  function PlacementOf(scanType: string, f: RawFinding, st: StatusRecord): Result<Option<Placement>, Error> {
    var src := st.findingSource;
    var advice := Str(f.cwe.recommendation);
    if scanType == "SCA" then
      var moduleName :- Field(src, "component_filename");
      var location :- (if st.componentPath.Some? then Ok(st.componentPath.value) else Err(MissingField("component_path")));
      Ok(Some(Placement(advice, moduleName, location)))
    else if scanType == "STATIC" then
      if Mentions(src, "procedure") && Mentions(src, "relative_location") then
        var moduleName :- Field(src, "module");
        var procedure :- Field(src, "procedure");
        var relative :- Field(src, "relative_location");
        Ok(Some(Placement(advice, moduleName, Str(CellText(procedure) + ":" + CellText(relative)))))
      else
        var moduleName :- Field(src, "module");
        var path :- Field(src, "file_path");
        var line :- Field(src, "file_line_number");
        Ok(Some(Placement(advice, moduleName, Str(CellText(path) + ":" + CellText(line)))))
    else if scanType == "DYNAMIC" then
      var url :- Field(src, "url");
      Ok(Some(Placement(advice, Str("Dynamic Analysis"), url)))
    else if scanType == "MANUAL" then
      var remediation :- Field(src, "remediation_desc");
      var location :- Field(src, "module");
      Ok(Some(Placement(remediation, Str("Manual Pentest"), location)))
    else
      Ok(None)
  }

  /** A STATIC finding whose source names a procedure and a relative location is placed there. */
  lemma StaticPlacementAtProcedure(f: RawFinding, st: StatusRecord)
    requires "module" in st.findingSource && "procedure" in st.findingSource
    requires "relative_location" in st.findingSource
    ensures var src := st.findingSource;
      PlacementOf("STATIC", f, st) == Ok(Some(Placement(Str(f.cwe.recommendation), src["module"],
        Str(CellText(src["procedure"]) + ":" + CellText(src["relative_location"])))))
  {
    KeyIsMentioned(st.findingSource, "procedure");
    KeyIsMentioned(st.findingSource, "relative_location");
  }

  /** A STATIC finding whose source mentions neither name is placed at file path and line. */
  lemma StaticPlacementAtFileLine(f: RawFinding, st: StatusRecord)
    requires !Mentions(st.findingSource, "procedure") || !Mentions(st.findingSource, "relative_location")
    requires "module" in st.findingSource && "file_path" in st.findingSource
    requires "file_line_number" in st.findingSource
    ensures var src := st.findingSource;
      PlacementOf("STATIC", f, st) == Ok(Some(Placement(Str(f.cwe.recommendation), src["module"],
        Str(CellText(src["file_path"]) + ":" + CellText(src["file_line_number"])))))
  {
  }

  /** DYNAMIC findings: the fixed module name and the URL. */
  lemma DynamicPlacement(f: RawFinding, st: StatusRecord)
    requires "url" in st.findingSource
    ensures PlacementOf("DYNAMIC", f, st) ==
      Ok(Some(Placement(Str(f.cwe.recommendation), Str("Dynamic Analysis"), st.findingSource["url"])))
  {
  }

  /** MANUAL findings: the remediation text, the fixed module name, and the source module as location. */
  lemma ManualPlacement(f: RawFinding, st: StatusRecord)
    requires "remediation_desc" in st.findingSource && "module" in st.findingSource
    ensures PlacementOf("MANUAL", f, st) ==
      Ok(Some(Placement(st.findingSource["remediation_desc"], Str("Manual Pentest"), st.findingSource["module"])))
  {
  }

  /** SCA findings: the location comes from the status object, not from its source object. */
  lemma ScaPlacement(f: RawFinding, st: StatusRecord)
    requires "component_filename" in st.findingSource && st.componentPath.Some?
    ensures PlacementOf("SCA", f, st) ==
      Ok(Some(Placement(Str(f.cwe.recommendation), st.findingSource["component_filename"], st.componentPath.value)))
  {
  }

  /** Any other analysis type leaves the three columns unset. */
  lemma UnknownTypePlacement(f: RawFinding, st: StatusRecord, other: string)
    requires other !in {"SCA", "STATIC", "DYNAMIC", "MANUAL"}
    ensures PlacementOf(other, f, st) == Ok(None)
  {
  }

  /** `datetime.strptime(c, "%Y-%m-%dT%H:%M:%S.%fZ")`; a non-text value is rejected too. */
  function ParseCell(c: Cell): (r: Result<Timestamp, Error>)
    ensures r.Ok? <==> c.Str? && ParseTimestamp(c.s).Some?
    ensures r.Ok? ==> r.value == ParseTimestamp(c.s).value
    ensures r.Err? ==> r.error == BadTimestamp
  {
    if c.Str? && ParseTimestamp(c.s).Some? then Ok(ParseTimestamp(c.s).value) else Err(BadTimestamp)
  }

  /**
    The last-seen column: month, day and year of the last-seen date, but hour
    and minute of the found date. Null when there is no last-seen date.
   */
  function LastSeenColumn(lastSeen: Cell, found: Timestamp): Result<Cell, Error> {
    if !Truthy(lastSeen) then Ok(Null)
    else
      var t :- ParseCell(lastSeen);
      Ok(Str(Format(Timestamp(t.year, t.month, t.day, found.hour, found.minute))))
  }

  /** An optional date column: Null when the date is absent, else its display text. */
  function OptionalDateColumn(date: Cell): Result<Cell, Error> {
    if !Truthy(date) then Ok(Null)
    else
      var t :- ParseCell(date);
      Ok(Str(Format(t)))
  }

  predicate IsProposal(action: string) {
    action in ProposalActions
  }

  /** The position of the first of the first `k` annotations with the given action. */
  function FirstAction(anns: seq<Annotation>, action: string, k: nat): (r: Option<nat>)
    requires k <= |anns|
    ensures r.Some? ==> r.value < k && anns[r.value].action == action
    ensures r.Some? ==> forall j :: 0 <= j < r.value ==> anns[j].action != action
    ensures r.None? ==> forall j :: 0 <= j < k ==> anns[j].action != action
  {
    if k == 0 then None
    else if FirstAction(anns, action, k - 1).Some? then FirstAction(anns, action, k - 1)
    else if anns[k - 1].action == action then Some(k - 1)
    else None
  }

  /** The position of the last of the first `k` annotations whose action is a proposal. */
  function LastProposal(anns: seq<Annotation>, k: nat): (r: Option<nat>)
    requires k <= |anns|
    ensures r.Some? ==> r.value < k && IsProposal(anns[r.value].action)
    ensures r.Some? ==> forall j :: r.value < j < k ==> !IsProposal(anns[j].action)
    ensures r.None? ==> forall j :: 0 <= j < k ==> !IsProposal(anns[j].action)
  {
    if k == 0 then None
    else if IsProposal(anns[k - 1].action) then Some(k - 1)
    else LastProposal(anns, k - 1)
  }

  /**
    The scan parses the `created` timestamp of annotation `i` when it is the
    first APPROVED one, the first REJECTED one, or any proposal.
   */
  predicate Parsed(anns: seq<Annotation>, i: int) {
    0 <= i < |anns| &&
    ((FirstAction(anns, "APPROVED", i).None? && anns[i].action == "APPROVED") ||
     (FirstAction(anns, "REJECTED", i).None? && anns[i].action == "REJECTED") ||
     IsProposal(anns[i].action))
  }

  /** The display text of the annotation at the given position, Null for none. */
  function Shown(anns: seq<Annotation>, at: Option<nat>): Cell {
    if at.Some? && at.value < |anns| && ParseTimestamp(anns[at.value].created).Some? then
      Str(Format(ParseTimestamp(anns[at.value].created).value))
    else Null
  }

  /** The three mitigation columns, in row order: first proposed, last accepted, last rejected. */
  datatype Mitigations = Mitigations(firstProposed: Cell, lastAccepted: Cell, lastRejected: Cell)

  /** The columns the scan shows once it has passed the first `k` annotations. */
  function Columns(anns: seq<Annotation>, k: nat): Mitigations
    requires k <= |anns|
  {
    Mitigations(Shown(anns, LastProposal(anns, k)),
                Shown(anns, FirstAction(anns, "APPROVED", k)),
                Shown(anns, FirstAction(anns, "REJECTED", k)))
  }

  /** Every annotation among the first `k` that the scan parses has a well-formed timestamp. */
  ghost predicate ParsedWell(anns: seq<Annotation>, k: nat) {
    forall i :: 0 <= i < k && Parsed(anns, i) ==> ParseTimestamp(anns[i].created).Some?
  }

  /**
    What the annotation scan yields: the accepted and rejected columns show the
    FIRST matching annotation, the proposed column the LAST proposal; the scan
    fails when any annotation it parses has a malformed timestamp.
   */
  ghost function MitigationsOf(anns: seq<Annotation>): Result<Mitigations, Error> {
    if ParsedWell(anns, |anns|) then Ok(Columns(anns, |anns|)) else Err(BadTimestamp)
  }

  /** No annotation action is two of APPROVED, REJECTED and a proposal at once. */
  lemma ActionsDistinct()
    ensures "APPROVED" != "REJECTED" && !IsProposal("APPROVED") && !IsProposal("REJECTED")
  {
    assert "APPROVED"[0] != "REJECTED"[0];
  }

  lemma FormatNotEmpty(t: Timestamp)
    ensures Format(t) != ""
  {
    assert Format(t)[0] == NatToString(t.month)[0];
  }

  /** The guarded update of the accepted (or rejected) column by annotation `a`. */
  function FirstUpdate(column: Cell, a: Annotation, action: string): Result<Cell, Error> {
    if !Truthy(column) && a.action == action then
      var t := ParseTimestamp(a.created);
      if t.None? then Err(BadTimestamp) else Ok(Str(Format(t.value)))
    else Ok(column)
  }

  /** The update of the proposed column by annotation `a`. */
  function ProposalUpdate(column: Cell, a: Annotation): Result<Cell, Error> {
    if IsProposal(a.action) then
      var t := ParseTimestamp(a.created);
      if t.None? then Err(BadTimestamp) else Ok(Str(Format(t.value)))
    else Ok(column)
  }

  /** One pass of the loop body over annotation `a`, updating the three columns in turn. */
  function ScanStep(m: Mitigations, a: Annotation): Result<Mitigations, Error> {
    var accepted :- FirstUpdate(m.lastAccepted, a, "APPROVED");
    var rejected :- FirstUpdate(m.lastRejected, a, "REJECTED");
    var proposed :- ProposalUpdate(m.firstProposed, a);
    Ok(Mitigations(proposed, accepted, rejected))
  }

  /** A column that shows the first match so far stays the first match after annotation `k`. */
  lemma FirstUpdateStep(anns: seq<Annotation>, action: string, k: nat)
    requires k < |anns| && ParsedWell(anns, k)
    requires action == "APPROVED" || action == "REJECTED"
    ensures var u := FirstUpdate(Shown(anns, FirstAction(anns, action, k)), anns[k], action);
      (u.Err? <==> FirstAction(anns, action, k).None? && anns[k].action == action && ParseTimestamp(anns[k].created).None?) &&
      (u.Err? ==> u.error == BadTimestamp) &&
      (u.Ok? ==> u.value == Shown(anns, FirstAction(anns, action, k + 1)))
  {
    var first := FirstAction(anns, action, k);
    if first.Some? {
      var i := first.value;
      assert FirstAction(anns, action, i).None?;
      assert Parsed(anns, i);
      FormatNotEmpty(ParseTimestamp(anns[i].created).value);
    }
  }

  /** The proposed column shows the last proposal so far after annotation `k` too. */
  lemma ProposalUpdateStep(anns: seq<Annotation>, k: nat)
    requires k < |anns|
    ensures var u := ProposalUpdate(Shown(anns, LastProposal(anns, k)), anns[k]);
      (u.Err? <==> IsProposal(anns[k].action) && ParseTimestamp(anns[k].created).None?) &&
      (u.Err? ==> u.error == BadTimestamp) &&
      (u.Ok? ==> u.value == Shown(anns, LastProposal(anns, k + 1)))
  {
  }

  lemma ParsedWellStep(anns: seq<Annotation>, k: nat)
    requires k < |anns| && ParsedWell(anns, k)
    requires Parsed(anns, k) ==> ParseTimestamp(anns[k].created).Some?
    ensures ParsedWell(anns, k + 1)
  {
  }

  /** The loop body over annotation `k` fails exactly when it parses a malformed timestamp, else yields the next columns. */
  lemma ScanStepMeaning(anns: seq<Annotation>, k: nat)
    requires k < |anns| && ParsedWell(anns, k)
    ensures var u := ScanStep(Columns(anns, k), anns[k]);
      (u.Err? <==> Parsed(anns, k) && ParseTimestamp(anns[k].created).None?) &&
      (u.Err? ==> u.error == BadTimestamp) &&
      (u.Ok? ==> u.value == Columns(anns, k + 1) && ParsedWell(anns, k + 1))
  {
    ActionsDistinct();
    FirstUpdateStep(anns, "APPROVED", k);
    FirstUpdateStep(anns, "REJECTED", k);
    ProposalUpdateStep(anns, k);
    if ScanStep(Columns(anns, k), anns[k]).Ok? {
      ParsedWellStep(anns, k);
    }
  }

  /** The annotation loop of the normaliser, with its three guarded updates. */
  method ScanAnnotations(anns: seq<Annotation>) returns (r: Result<Mitigations, Error>)
    ensures r == MitigationsOf(anns)
  {
    var accepted, rejected, proposed := Null, Null, Null;
    for k := 0 to |anns|
      invariant Mitigations(proposed, accepted, rejected) == Columns(anns, k)
      invariant ParsedWell(anns, k)
    {
      var a := anns[k];
      ScanStepMeaning(anns, k);
      if ScanStep(Mitigations(proposed, accepted, rejected), a).Err? {
        assert Parsed(anns, k);
      }
      accepted :- FirstUpdate(accepted, a, "APPROVED");
      rejected :- FirstUpdate(rejected, a, "REJECTED");
      proposed :- ProposalUpdate(proposed, a);
    }
    r := Ok(Mitigations(proposed, accepted, rejected));
  }

  /** The normaliser's working record, one field per finding column. */
  datatype FindingFields = FindingFields(
    status: Cell,
    flawId: Cell,
    flawName: Cell,
    cweId: Cell,
    category: Cell,
    severity: Cell,
    exploitability: Cell,
    mitigationStatus: Cell,
    analysisType: Cell,
    policyRulePassed: Cell,
    dateLastSeen: Cell,
    owaspText: Cell,
    issueHistoryState: Cell,
    dateFirstSeen: Cell,
    dateFirstNotSeen: Cell,
    mitigations: Mitigations,
    placement: Option<Placement>)

  /** The finding columns, in the order of FindingColumnNames. */
  function FindingColumns(p: FindingFields): (r: seq<Cell>)
    requires p.placement.Some?
    ensures |r| == |FindingColumnNames|
  {
    [p.flawId, p.flawName, p.policyRulePassed, p.cweId, p.category, p.severity, p.exploitability,
     p.status, p.issueHistoryState, p.mitigationStatus, p.analysisType, p.owaspText, p.dateFirstSeen,
     p.dateLastSeen, p.dateFirstNotSeen, p.mitigations.firstProposed, p.mitigations.lastAccepted,
     p.mitigations.lastRejected, p.placement.value.recommendation, p.placement.value.moduleName,
     p.placement.value.location]
  }

  /** The application columns, in the order of AppColumnNames. */
  function AppColumns(app: App): (r: seq<Cell>)
    ensures |r| == |AppColumnNames|
  {
    [Str(app.accountName), Null, Int(app.appId), Str(app.appName), Str(app.assuranceLevel),
     Str(app.businessUnit), Null, Null, Str(app.tags)]
  }

  /** The normaliser's record for one finding, with every field read and every date parsed. */
  ghost function FieldsOf(f: RawFinding): (r: Result<FindingFields, Error>)
    ensures r.Ok? ==> r.value.placement.Some?
  {
    if f.findingStatus == [] then Err(NoStatus)
    else
      var st := f.findingStatus[0];
      var severity :- SeverityLabel(f.severity);
      var exploitability :- ExploitLabel(f.exploitability);
      var mitigation :- MitigationLabel(st.resolutionStatus);
      var scanType :- (if f.scanType.Some? then Ok(f.scanType.value) else Err(MissingField("scan_type")));
      var placement :- PlacementOf(scanType, f, st);
      var found :- ParseCell(st.foundDate);
      var lastSeen :- LastSeenColumn(st.lastSeenDate, found);
      var notSeen :- OptionalDateColumn(st.resolvedDate);
      var mitigations :- MitigationsOf(f.annotations);
      if placement.None? then Err(MissingField("recommendation"))
      else
        Ok(FindingFields(st.status, Int(f.issueId), Str(f.cwe.name), Int(f.cwe.id),
          Str(f.categoryName), Str(severity), Str(exploitability), Str(mitigation), Str(scanType),
          Str(PolicyFlag(f.violatesPolicy)), lastSeen, Null, HistoryState(st.status, st.newInContext),
          Str(Format(found)), notSeen, mitigations, placement))
  }

  /** The row the normaliser produces for one finding of an application. */
  ghost function FindingRow(app: App, f: RawFinding): Result<Row, Error> {
    var p :- FieldsOf(f);
    Ok(AppColumns(app) + app.customFieldValues + FindingColumns(p))
  }

  /**
    The fields a successful read takes straight from the finding: the issue id,
    the CWE name and id, the category, the severity and exploitability labels,
    the policy flag, the analysis type, and the placement its branch chose.
   */
  lemma FieldsOfValues(f: RawFinding)
    requires FieldsOf(f).Ok?
    ensures f.findingStatus != [] && f.scanType.Some?
    ensures var p := FieldsOf(f).value;
      p.flawId == Int(f.issueId) && p.flawName == Str(f.cwe.name) && p.cweId == Int(f.cwe.id) &&
      p.category == Str(f.categoryName) &&
      SeverityLabel(f.severity).Ok? && p.severity == Str(SeverityLabel(f.severity).value) &&
      ExploitLabel(f.exploitability).Ok? && p.exploitability == Str(ExploitLabel(f.exploitability).value) &&
      p.policyRulePassed == Str(PolicyFlag(f.violatesPolicy)) &&
      p.analysisType == Str(f.scanType.value) &&
      PlacementOf(f.scanType.value, f, f.findingStatus[0]) == Ok(p.placement)
  {
  }

  /**
    The status and date fields of a successful read: the status itself; the
    first-seen text of the found date; the last-seen text with the last-seen day
    but the found date's hour and minute; the resolved date's own text; None for
    an empty last-seen or resolved date; and the mitigation columns of the
    annotation scan.
   */
  lemma FieldsOfDates(f: RawFinding)
    requires FieldsOf(f).Ok?
    ensures f.findingStatus != []
    ensures var p, st := FieldsOf(f).value, f.findingStatus[0];
      p.mitigationStatus == Str(MitigationLabel(st.resolutionStatus).value) &&
      p.issueHistoryState == HistoryState(st.status, st.newInContext) &&
      p.mitigations == Columns(f.annotations, |f.annotations|) &&
      (!Truthy(st.lastSeenDate) ==> p.dateLastSeen == Null) &&
      p.status == st.status &&
      (!Truthy(st.resolvedDate) ==> p.dateFirstNotSeen == Null) &&
      (Truthy(st.resolvedDate) ==>
        st.resolvedDate.Str? && ParseTimestamp(st.resolvedDate.s).Some? &&
        p.dateFirstNotSeen == Str(Format(ParseTimestamp(st.resolvedDate.s).value))) &&
      st.foundDate.Str? && ParseTimestamp(st.foundDate.s).Some? &&
      var found := ParseTimestamp(st.foundDate.s).value;
      p.dateFirstSeen == Str(Format(found)) &&
      (Truthy(st.lastSeenDate) ==>
        (st.lastSeenDate.Str? && ParseTimestamp(st.lastSeenDate.s).Some? &&
         var seen := ParseTimestamp(st.lastSeenDate.s).value;
         p.dateLastSeen == Str(Format(Timestamp(seen.year, seen.month, seen.day, found.hour, found.minute)))))
  {
  }

  /**
    A resolved DYNAMIC finding with no annotations is read, and its
    date-first-not-seen column shows the resolved date at its own hour and
    minute, not at the found date's.
   */
  lemma ResolvedDateShown(found: Timestamp, resolved: Timestamp)
    requires ValidTimestamp(found) && ValidTimestamp(resolved)
    ensures var st := StatusRecord(Str("CLOSED"), false, "NONE", Str(IsoText(found, 0, 0)), Null,
        Str(IsoText(resolved, 0, 0)), map["url" := Str("https://example.com/login")], None);
      var f := RawFinding(1, Cwe(79, "Cross-site Scripting", "Encode output"), "Injection", 4, 0,
        Some("DYNAMIC"), true, [st], []);
      FieldsOf(f).Ok? && FieldsOf(f).value.dateFirstNotSeen == Str(Format(resolved))
  {
    var src := map["url" := Str("https://example.com/login")];
    var st := StatusRecord(Str("CLOSED"), false, "NONE", Str(IsoText(found, 0, 0)), Null,
      Str(IsoText(resolved, 0, 0)), src, None);
    var f := RawFinding(1, Cwe(79, "Cross-site Scripting", "Encode output"), "Injection", 4, 0,
      Some("DYNAMIC"), true, [st], []);
    ParseIsoText(found, 0, 0);
    ParseIsoText(resolved, 0, 0);
    assert SeverityLabel(4).Ok? && ExploitLabel(0).Ok? && MitigationLabel("NONE").Ok?;
    DynamicPlacement(f, st);
    assert ParseCell(st.foundDate) == Ok(found);
    assert LastSeenColumn(Null, found) == Ok(Null);
    assert ParseCell(st.resolvedDate) == Ok(resolved);
    assert IsoLayout(st.resolvedDate.s);
    assert Truthy(st.resolvedDate);
    assert OptionalDateColumn(st.resolvedDate) == Ok(Str(Format(resolved)));
    assert ParsedWell([], 0);
    assert MitigationsOf([]).Ok?;
  }

  /**
    The layout of `row` as the row of finding `f` of application `app`: the
    application columns, its custom values, then the finding columns, with the
    cells taken straight from the finding at their header positions.
   */
  predicate LaidOut(row: Row, app: App, f: RawFinding) {
    var n := |app.customFieldValues|;
    var at := |AppColumnNames| + n;
    |row| == at + |FindingColumnNames| &&
    row[..|AppColumnNames|] == AppColumns(app) &&
    row[2] == Int(app.appId) &&
    (forall i :: 0 <= i < n ==> row[|AppColumnNames| + i] == app.customFieldValues[i]) &&
    row[at + FlawIdCol] == Int(f.issueId) &&
    row[at + 1] == Str(f.cwe.name) &&
    row[at + PolicyRulePassedCol] == Str(PolicyFlag(f.violatesPolicy)) &&
    row[at + 3] == Int(f.cwe.id) &&
    row[at + 4] == Str(f.categoryName) &&
    SeverityLabel(f.severity).Ok? && row[at + SeverityCol] == Str(SeverityLabel(f.severity).value) &&
    ExploitLabel(f.exploitability).Ok? && row[at + ExploitabilityCol] == Str(ExploitLabel(f.exploitability).value) &&
    f.scanType.Some? && row[at + 10] == Str(f.scanType.value)
  }

  lemma FindingRowLayout(app: App, f: RawFinding)
    requires FindingRow(app, f).Ok?
    ensures LaidOut(FindingRow(app, f).value, app, f)
  {
    FieldsOfValues(f);
    var p := FieldsOf(f).value;
    RowLayout(app, p);
    FindingCells(p);
  }

  /** The cells of the finding columns at the positions the header names. */
  lemma FindingCells(p: FindingFields)
    requires p.placement.Some?
    ensures var d := FindingColumns(p);
      d[FlawIdCol] == p.flawId && d[1] == p.flawName && d[PolicyRulePassedCol] == p.policyRulePassed &&
      d[3] == p.cweId && d[4] == p.category && d[SeverityCol] == p.severity &&
      d[ExploitabilityCol] == p.exploitability && d[10] == p.analysisType
  {
  }

  /** The assembled row: the application columns, the custom values, then the finding columns. */
  lemma RowLayout(app: App, p: FindingFields)
    requires p.placement.Some?
    ensures var row, n := AppColumns(app) + app.customFieldValues + FindingColumns(p), |app.customFieldValues|;
      |row| == |AppColumnNames| + n + |FindingColumnNames| &&
      row[..|AppColumnNames|] == AppColumns(app) && row[2] == Int(app.appId) &&
      (forall i :: 0 <= i < n ==> row[|AppColumnNames| + i] == app.customFieldValues[i]) &&
      forall k :: 0 <= k < |FindingColumnNames| ==> row[|AppColumnNames| + n + k] == FindingColumns(p)[k]
  {
    var a, c, d := AppColumns(app), app.customFieldValues, FindingColumns(p);
    var row := a + c + d;
    assert row == a + (c + d);
    assert row[..|a|] == a;
    assert row[2] == a[2];
    assert forall i :: 0 <= i < |c| ==> row[|a| + i] == c[i];
    assert forall k :: 0 <= k < |d| ==> row[|a| + |c| + k] == d[k];
  }

  /** The row fails on the first field that cannot be read, in the order the normaliser reads them. */
  lemma FindingRowFirstErrors(app: App, f: RawFinding)
    ensures f.findingStatus == [] ==> FindingRow(app, f) == Err(NoStatus)
    ensures f.findingStatus != [] && SeverityLabel(f.severity).Err? ==>
      FindingRow(app, f) == Err(SeverityOutOfRange(f.severity))
    ensures f.findingStatus != [] && SeverityLabel(f.severity).Ok? && ExploitLabel(f.exploitability).Err? ==>
      FindingRow(app, f) == Err(ExploitabilityOutOfRange(f.exploitability))
    ensures (f.findingStatus != [] && SeverityLabel(f.severity).Ok? && ExploitLabel(f.exploitability).Ok? &&
             MitigationLabel(f.findingStatus[0].resolutionStatus).Err?) ==>
      FindingRow(app, f) == Err(UnknownResolution(f.findingStatus[0].resolutionStatus))
  {
  }

  /** An analysis type outside SCA, STATIC, DYNAMIC and MANUAL never yields a row. */
  lemma FindingRowUnknownType(app: App, f: RawFinding)
    requires f.scanType.Some? && f.scanType.value !in {"SCA", "STATIC", "DYNAMIC", "MANUAL"}
    ensures FindingRow(app, f).Err?
  {
    if f.findingStatus != [] {
      UnknownTypePlacement(f, f.findingStatus[0], f.scanType.value);
    }
  }

  /** `make_finding`: build the working record, update it field by field, assemble the row. */
  method MakeFinding(app: App, f: RawFinding) returns (r: Result<Row, Error>)
    ensures r == FindingRow(app, f)
  {
    if f.findingStatus == [] {
      return Err(NoStatus);
    }
    var st := f.findingStatus[0];
    var isNew := st.newInContext;
    var severity :- SeverityLabel(f.severity);
    var exploitability :- ExploitLabel(f.exploitability);
    var mitigation :- MitigationLabel(st.resolutionStatus);
    if f.scanType.None? {
      return Err(MissingField("scan_type"));
    }
    var parsed := FindingFields(st.status, Int(f.issueId), Str(f.cwe.name), Int(f.cwe.id),
      Str(f.categoryName), Str(severity), Str(exploitability), Str(mitigation), Str(f.scanType.value),
      Null, Null, Null, Null, Null, Null, Mitigations(Null, Null, Null), None);

    var placement :- PlacementOf(f.scanType.value, f, st);
    parsed := parsed.(placement := placement);

    parsed := parsed.(policyRulePassed := Str(PolicyFlag(f.violatesPolicy)));
    parsed := parsed.(issueHistoryState := HistoryState(st.status, isNew));

    var found :- ParseCell(st.foundDate);
    parsed := parsed.(dateFirstSeen := Str(Format(found)));

    if Truthy(st.lastSeenDate) {
      var lastSeen :- ParseCell(st.lastSeenDate);
      parsed := parsed.(dateLastSeen := Str(Format(Timestamp(lastSeen.year, lastSeen.month, lastSeen.day,
                                                             found.hour, found.minute))));
    }

    if Truthy(st.resolvedDate) {
      var resolved :- ParseCell(st.resolvedDate);
      parsed := parsed.(dateFirstNotSeen := Str(Format(resolved)));
    }

    var mitigations :- ScanAnnotations(f.annotations);
    parsed := parsed.(mitigations := mitigations);

    if parsed.placement.None? {
      return Err(MissingField("recommendation"));
    }
    r := Ok(AppColumns(app) + app.customFieldValues + FindingColumns(parsed));
  }
}
