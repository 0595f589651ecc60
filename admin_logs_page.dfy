/** The pure logic of the administrator's log page (app/admin/logs/page.tsx):
    parsing the entries of the three log sections, building the sections in
    their fixed order, and the failure count of the summary. Fetching and
    rendering are left out. */
module AdminLogsPage {
  import opened Wrappers
  import Ascii
  import LogPatterns
  import AgentLogsPage

  type RawLogEntry = AgentLogsPage.RawLogEntry

  /** A log entry as this page lists it: the log group and stream are kept,
      and the identifiers are set only for transaction entries. */
  datatype ParsedLogEntry = ParsedLogEntry(id: string, level: string, timestamp: string,
                                           transactionId: Option<string>, clientId: Option<string>,
                                           accountId: Option<string>, logGroup: string,
                                           logStream: Option<string>, message: string)

  /** `parseField`: the value after the first "key=", or "—" when there is none. */
  function ParseField(message: string, key: string): (r: string)
    ensures LogPatterns.FieldValue(message, key).None? ==> r == "—"
    ensures LogPatterns.FieldValue(message, key).Some? ==> r == LogPatterns.FieldValue(message, key).value
  {
    match LogPatterns.FieldValue(message, key)
    case None => "—"
    case Some(v) => LogPatterns.StripKeepsFieldValue(v); LogPatterns.StripTrailingNewlines(v)
  }

  /** A message whose field value is itself "—" shows the same as a message
      without the field. */
  lemma DashValueLooksAbsent(key: string)
    ensures ParseField(key + "=" + "—", key) == ParseField("", key) == "—"
  {
    var s := key + "=" + "—";
    assert s[0..|key| + 1] == key + "=";
    assert LogPatterns.FieldAt(s, key, 0);
    assert LogPatterns.RunEnd(s, |key| + 1) == |s|;
    assert s[|key| + 1..|s|] == "—";
  }

  /** `parseLevel`: the text in the first bracket pair, as written (even
      when empty), or "INFO". */
  function ParseLevel(message: string): (r: string)
    ensures LogPatterns.BracketText(message).None? ==> r == "INFO"
    ensures LogPatterns.BracketText(message).Some? ==> r == LogPatterns.BracketText(message).value
  {
    LogPatterns.BracketText(message).GetOr("INFO")
  }

  /** `parseLogEntry`. */
  function ParseLogEntry(entry: RawLogEntry): (p: ParsedLogEntry)
    ensures p.id == entry.id && p.logGroup == entry.logGroup && p.logStream == entry.logStream
    ensures p.level == ParseLevel(entry.message)
    ensures entry.readableTimestamp != "" ==> p.timestamp == entry.readableTimestamp
    ensures entry.readableTimestamp == "" ==> p.timestamp == "—"
    ensures p.message == LogPatterns.StripTrailingNewlines(entry.message)
    ensures p.transactionId.None? && p.clientId.None? && p.accountId.None?
  {
    ParsedLogEntry(entry.id, ParseLevel(entry.message),
                   if entry.readableTimestamp != "" then entry.readableTimestamp else "—",
                   None, None, None, entry.logGroup, entry.logStream,
                   LogPatterns.StripTrailingNewlines(entry.message))
  }

  /** `parseTransactionEntry`: the base entry with all three identifiers
      set, "—" standing for a missing one. */
  function ParseTransactionEntry(entry: RawLogEntry): (p: ParsedLogEntry)
    ensures p.id == entry.id && p.logGroup == entry.logGroup && p.logStream == entry.logStream
    ensures p.level == ParseLevel(entry.message) && p.timestamp == ParseLogEntry(entry).timestamp
    ensures p.message == LogPatterns.StripTrailingNewlines(entry.message)
    ensures p.transactionId == Some(LogPatterns.FieldValue(entry.message, "TransactionID").GetOr("—"))
    ensures p.clientId == Some(LogPatterns.FieldValue(entry.message, "ClientID").GetOr("—"))
    ensures p.accountId == Some(LogPatterns.FieldValue(entry.message, "AccountID").GetOr("—"))
  {
    ParseLogEntry(entry).(transactionId := Some(ParseField(entry.message, "TransactionID")),
                          clientId := Some(ParseField(entry.message, "ClientID")),
                          accountId := Some(ParseField(entry.message, "AccountID")))
  }

  /** The two log pages read the same entry alike: the agent's page shows
      the level upper-cased where this page shows it as written, and "—"
      here is an absent identifier there. */
  lemma PagesAgree(entry: RawLogEntry)
    ensures var a := AgentLogsPage.ParseTransactionEntry(entry);
      var b := ParseTransactionEntry(entry);
      a.id == b.id && a.timestamp == b.timestamp && a.message == b.message
      && a.level == Ascii.ToUpper(b.level)
      && b.clientId == Some(a.clientId.GetOr("—"))
      && b.transactionId == Some(a.transactionId.GetOr("—"))
      && b.accountId == Some(a.accountId.GetOr("—"))
  {
    LevelsAgree(entry);
    IdsAgree(entry);
  }

  lemma LevelsAgree(entry: RawLogEntry)
    ensures AgentLogsPage.ParseTransactionEntry(entry).level == Ascii.ToUpper(ParseTransactionEntry(entry).level)
  {
    assert Ascii.ToUpper("INFO") == "INFO";
  }

  lemma IdsAgree(entry: RawLogEntry)
    ensures var a := AgentLogsPage.ParseTransactionEntry(entry);
      var b := ParseTransactionEntry(entry);
      b.clientId == Some(a.clientId.GetOr("—"))
      && b.transactionId == Some(a.transactionId.GetOr("—"))
      && b.accountId == Some(a.accountId.GetOr("—"))
  {
  }

  /** The three log sections. */
  datatype SectionKey = TransactionLambda | ClientProfile | ClientAccount

  /** A section with its entries parsed. */
  datatype Section = Section(key: SectionKey, title: string, description: string, entries: seq<ParsedLogEntry>)

  /** The endpoint's reply: the two counters and the entries of each section,
      any of which may be missing. */
  datatype LogResponse = LogResponse(totalScanned: Option<int>, successCount: Option<int>,
                                     logs: Option<map<SectionKey, seq<RawLogEntry>>>)

  function Label(key: SectionKey): string {
    match key
    case TransactionLambda => "Transaction Logs"
    case ClientProfile => "Client Profile Logs"
    case ClientAccount => "Client Account Logs"
  }

  function Description(key: SectionKey): string {
    match key
    case TransactionLambda => "AWS Lambda responsible for ingesting transaction CSV files."
    case ClientProfile => "ECS service powering client lookup and profile management."
    case ClientAccount => "ECS service that handles client accounts and transactions."
  }

  const SECTION_ORDER: seq<SectionKey> := [TransactionLambda, ClientProfile, ClientAccount]

  /** `data?.logs?.[key] ?? []`. */
  function RawEntries(data: Option<LogResponse>, key: SectionKey): (r: seq<RawLogEntry>)
    ensures data.Some? && data.value.logs.Some? && key in data.value.logs.value ==> r == data.value.logs.value[key]
    ensures !(data.Some? && data.value.logs.Some? && key in data.value.logs.value) ==> r == []
  {
    if data.Some? && data.value.logs.Some? && key in data.value.logs.value then data.value.logs.value[key] else []
  }

  /** The parser a section uses: only the transaction section reads identifiers. */
  function ParserFor(key: SectionKey, entry: RawLogEntry): ParsedLogEntry {
    if key == TransactionLambda then ParseTransactionEntry(entry) else ParseLogEntry(entry)
  }

  function BuildSection(data: Option<LogResponse>, key: SectionKey): (s: Section)
    ensures s.key == key && s.title == Label(key) && s.description == Description(key)
    ensures |s.entries| == |RawEntries(data, key)|
    ensures forall i :: 0 <= i < |s.entries| ==> s.entries[i] == ParserFor(key, RawEntries(data, key)[i])
  {
    var raw := RawEntries(data, key);
    Section(key, Label(key), Description(key), seq(|raw|, i requires 0 <= i < |raw| => ParserFor(key, raw[i])))
  }

  /** `sections`: always the three sections, in their fixed order, whatever
      the reply holds. */
  function Sections(data: Option<LogResponse>): (r: seq<Section>)
    ensures |r| == 3
    ensures forall i :: 0 <= i < 3 ==> r[i].key == SECTION_ORDER[i] && r[i].title == Label(SECTION_ORDER[i])
    ensures forall i :: 0 <= i < 3 ==> |r[i].entries| == |RawEntries(data, SECTION_ORDER[i])|
  {
    [BuildSection(data, TransactionLambda), BuildSection(data, ClientProfile), BuildSection(data, ClientAccount)]
  }

  /** Only transaction entries carry identifiers; entries of the other two
      sections never do, even when their messages hold "ClientID=...". */
  lemma OnlyTransactionEntriesCarryIds(data: Option<LogResponse>)
    ensures var r := Sections(data);
      (forall e :: e in r[0].entries ==> e.transactionId.Some? && e.clientId.Some? && e.accountId.Some?)
      && (forall i, e :: 1 <= i < 3 && e in r[i].entries ==> e.transactionId.None? && e.clientId.None? && e.accountId.None?)
  {
    var r := Sections(data);
    forall e | e in r[0].entries
      ensures e.transactionId.Some? && e.clientId.Some? && e.accountId.Some?
    {
      SectionEntryIds(data, TransactionLambda, e);
    }
    forall i, e | 1 <= i < 3 && e in r[i].entries
      ensures e.transactionId.None? && e.clientId.None? && e.accountId.None?
    {
      SectionEntryIds(data, SECTION_ORDER[i], e);
    }
  }

  /** An entry of one section carries identifiers exactly when the section
      is the transaction section. */
  lemma SectionEntryIds(data: Option<LogResponse>, key: SectionKey, e: ParsedLogEntry)
    requires e in BuildSection(data, key).entries
    ensures key == TransactionLambda ==> e.transactionId.Some? && e.clientId.Some? && e.accountId.Some?
    ensures key != TransactionLambda ==> e.transactionId.None? && e.clientId.None? && e.accountId.None?
  {
    var s := BuildSection(data, key);
    var k :| 0 <= k < |s.entries| && s.entries[k] == e;
  }

  /** Before the reply arrives, or after a failed fetch, every section is empty. */
  lemma NoDataEmptySections()
    ensures forall s :: s in Sections(None) ==> s.entries == []
  {
  }

  /** The summary's failure count: scanned minus succeeded, a missing counter
      read as 0, and never below 0. */
  function FailureCount(data: Option<LogResponse>): (f: int)
    ensures f >= 0
    ensures var total := if data.Some? then data.value.totalScanned.GetOr(0) else 0;
      var success := if data.Some? then data.value.successCount.GetOr(0) else 0;
      f >= total - success && (f == 0 || f == total - success)
  {
    var total := if data.Some? then data.value.totalScanned.GetOr(0) else 0;
    var success := if data.Some? then data.value.successCount.GetOr(0) else 0;
    if total - success > 0 then total - success else 0
  }

  /** More successes than scanned entries shows no failure, not a negative one. */
  lemma FailureCountClamps(total: int, success: int)
    requires success > total
    ensures FailureCount(Some(LogResponse(Some(total), Some(success), None))) == 0
  {
  }
}
