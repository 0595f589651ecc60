/** The pure logic of the agent's log page (app/agent/logs/page.tsx): parsing
    the transaction-processor log entries, the level/client/search filter, the
    list of distinct clients offered by the client filter, and the counts
    shown above the list. Fetching and rendering are left out; the date
    formatting's `Date` parsing and locale are a parameter. */
module AgentLogsPage {
  import opened Wrappers
  import Ascii
  import LogPatterns

  /** A log entry as the endpoint returns it. */
  datatype RawLogEntry = RawLogEntry(message: string, logGroup: string, id: string,
                                     readableTimestamp: string, logStream: Option<string>)

  /** A log entry as the page lists it. */
  datatype ParsedLogEntry = ParsedLogEntry(id: string, level: string, timestamp: string,
                                           transactionId: Option<string>, clientId: Option<string>,
                                           accountId: Option<string>, message: string)

  /** `normalizeLevel`: upper-cased, or "INFO" when there is no level at all.
      An empty level stays empty: `??` replaces only an absent value. */
  function NormalizeLevel(level: Option<string>): (r: string)
    ensures level.None? ==> r == "INFO"
    ensures level.Some? ==> |r| == |level.value| && forall i :: 0 <= i < |r| ==> !Ascii.IsLower(r[i])
    ensures level.Some? ==> Ascii.EqualsIgnoreCase(r, level.value)
  {
    if level.Some? then Ascii.ToUpper(level.value) else "INFO"
  }

  /** Normalising a normalised level changes nothing, so the filter's second
      normalisation of a parsed entry's level is a no-op. */
  lemma NormalizeIdempotent(level: Option<string>)
    ensures NormalizeLevel(Some(NormalizeLevel(level))) == NormalizeLevel(level)
  {
  }

  /** `parseField`: the value after the first "key=" or "" when there is
      none; the trailing-newline strip never changes a field value. */
  function ParseField(message: string, key: string): (r: string)
    ensures r == "" <==> LogPatterns.FieldValue(message, key).None?
    ensures r != "" ==> r == LogPatterns.FieldValue(message, key).value
  {
    match LogPatterns.FieldValue(message, key)
    case None => ""
    case Some(v) => LogPatterns.StripKeepsFieldValue(v); LogPatterns.StripTrailingNewlines(v)
  }

  /** `parseField(...) || undefined`. */
  function OptionalField(message: string, key: string): (r: Option<string>)
    ensures r == LogPatterns.FieldValue(message, key)
  {
    var v := ParseField(message, key);
    if v != "" then Some(v) else None
  }

  /** `parseLogEntry`. */
  function ParseLogEntry(entry: RawLogEntry): (p: ParsedLogEntry)
    ensures p.id == entry.id
    ensures p.level == NormalizeLevel(LogPatterns.BracketText(entry.message))
    ensures entry.readableTimestamp != "" ==> p.timestamp == entry.readableTimestamp
    ensures entry.readableTimestamp == "" ==> p.timestamp == "—"
    ensures p.message == LogPatterns.StripTrailingNewlines(entry.message)
    ensures p.transactionId.None? && p.clientId.None? && p.accountId.None?
  {
    ParsedLogEntry(entry.id, NormalizeLevel(LogPatterns.BracketText(entry.message)),
                   if entry.readableTimestamp != "" then entry.readableTimestamp else "—",
                   None, None, None, LogPatterns.StripTrailingNewlines(entry.message))
  }

  /** `parseTransactionEntry`: the base entry with the three identifiers. */
  function ParseTransactionEntry(entry: RawLogEntry): (p: ParsedLogEntry)
    ensures p == ParseLogEntry(entry).(transactionId := LogPatterns.FieldValue(entry.message, "TransactionID"),
                                       clientId := LogPatterns.FieldValue(entry.message, "ClientID"),
                                       accountId := LogPatterns.FieldValue(entry.message, "AccountID"))
  {
    ParseLogEntry(entry).(transactionId := OptionalField(entry.message, "TransactionID"),
                          clientId := OptionalField(entry.message, "ClientID"),
                          accountId := OptionalField(entry.message, "AccountID"))
  }

  /** An identifier, when present, is never empty and holds no comma or
      whitespace. */
  predicate IsTokenOrAbsent(v: Option<string>) {
    v.Some? ==> v.value != "" && forall k :: 0 <= k < |v.value| ==> v.value[k] != ',' && !Ascii.IsSpace(v.value[k])
  }

  /** Every value the pattern captures has that shape. */
  lemma FieldValueIsToken(message: string, key: string)
    ensures IsTokenOrAbsent(LogPatterns.FieldValue(message, key))
  {
  }

  /** A parsed identifier is never empty and holds no comma or whitespace. */
  lemma ParsedIdsAreTokens(entry: RawLogEntry)
    ensures var p := ParseTransactionEntry(entry);
      IsTokenOrAbsent(p.transactionId) && IsTokenOrAbsent(p.clientId) && IsTokenOrAbsent(p.accountId)
  {
    FieldValueIsToken(entry.message, "TransactionID");
    FieldValueIsToken(entry.message, "ClientID");
    FieldValueIsToken(entry.message, "AccountID");
  }

  /** The key is not anchored: text before it, such as "Old" in
      "OldClientID=c1", does not stop the match. */
  lemma KeyIsNotAnchored(before: string, key: string, v: string)
    requires v != [] && LogPatterns.IsFieldChar(v[0])
    ensures LogPatterns.FieldValue(before + key + "=" + v, key).Some?
  {
    var s := before + key + "=" + v;
    var p := |before|;
    assert s[p..p + |key| + 1] == key + "=";
    assert s[p + |key| + 1] == v[0];
    assert LogPatterns.FieldAt(s, key, p);
  }

  /** What the load yields: the entries under "transaction_lambda" (none when
      the key is absent), each parsed; a failed fetch yields no entries and
      the error's message, or a fixed message for a thrown non-Error. */
  function LoadLogs(fetched: Result<Option<seq<RawLogEntry>>, Option<string>>): (r: (seq<ParsedLogEntry>, Option<string>))
    ensures fetched.Success? ==> r.1.None? && |r.0| == |fetched.value.GetOr([])|
    ensures fetched.Success? ==> forall i :: 0 <= i < |r.0| ==> r.0[i] == ParseTransactionEntry(fetched.value.GetOr([])[i])
    ensures fetched.Failure? ==> r.0 == [] && r.1 == Some(fetched.error.GetOr("Failed to fetch logs."))
  {
    match fetched
    case Success(raw) =>
      var entries := raw.GetOr([]);
      (seq(|entries|, i requires 0 <= i < |entries| => ParseTransactionEntry(entries[i])), None)
    case Failure(message) => ([], Some(message.GetOr("Failed to fetch logs.")))
  }

  /** `formatDateTime`; `localize` is `new Date(s).toLocaleString()`, `None`
      when the date is invalid. */
  function FormatDateTime(dateTime: string, localize: string -> Option<string>): (r: string)
    ensures dateTime == "" || dateTime == "—" ==> r == "—"
    ensures dateTime != "" && dateTime != "—" && localize(dateTime).None? ==> r == dateTime
    ensures dateTime != "" && dateTime != "—" && localize(dateTime).Some? ==> r == localize(dateTime).value
  {
    if dateTime == "" || dateTime == "—" then "—"
    else match localize(dateTime)
      case None => dateTime
      case Some(s) => s
  }

  datatype BadgeVariant = Destructive | Secondary | Outline

  /** `getLevelBadgeVariant`. */
  function LevelBadge(level: string): (b: BadgeVariant)
    ensures b == Destructive <==> Ascii.ToUpper(level) == "ERROR"
    ensures b == Secondary <==> Ascii.ToUpper(level) == "WARN" || Ascii.ToUpper(level) == "WARNING"
  {
    var n := NormalizeLevel(Some(level));
    if n == "ERROR" then Destructive
    else if n == "WARN" || n == "WARNING" then Secondary
    else Outline
  }

  /** `x?.toLowerCase().includes(term)`, false when `x` is absent. */
  predicate OptionalContains(x: Option<string>, term: string) {
    x.Some? && Ascii.Contains(Ascii.ToLower(x.value), term)
  }

  /** The filter applied to each entry. */
  predicate Keep(log: ParsedLogEntry, levelFilter: string, clientFilter: string, searchTerm: string): (b: bool)
    ensures levelFilter == "all" && clientFilter == "all" && searchTerm == "" ==> b
    ensures b && levelFilter != "all" ==> NormalizeLevel(Some(log.level)) == levelFilter
    ensures b && clientFilter != "all" ==> log.clientId == Some(clientFilter)
  {
    var term := Ascii.ToLower(searchTerm);
    (levelFilter == "all" || NormalizeLevel(Some(log.level)) == levelFilter)
    && (clientFilter == "all" || log.clientId == Some(clientFilter))
    && (term == "" || Ascii.Contains(Ascii.ToLower(log.message), term)
        || OptionalContains(log.transactionId, term) || OptionalContains(log.clientId, term)
        || OptionalContains(log.accountId, term))
  }

  /** `filteredLogs`: the entries that pass, in order. */
  function FilteredLogs(logs: seq<ParsedLogEntry>, levelFilter: string, clientFilter: string, searchTerm: string)
    : (r: seq<ParsedLogEntry>)
    ensures |r| <= |logs|
    ensures forall l :: l in r <==> l in logs && Keep(l, levelFilter, clientFilter, searchTerm)
  {
    if logs == [] then []
    else
      var rest := FilteredLogs(logs[1..], levelFilter, clientFilter, searchTerm);
      if Keep(logs[0], levelFilter, clientFilter, searchTerm) then [logs[0]] + rest else rest
  }

  /** Filtering keeps the entries' order and their repeats: it distributes
      over concatenation, so the result is the passing entries in log order. */
  lemma {:induction false} FilteredLogsAppend(a: seq<ParsedLogEntry>, b: seq<ParsedLogEntry>,
                                              levelFilter: string, clientFilter: string, searchTerm: string)
    ensures FilteredLogs(a + b, levelFilter, clientFilter, searchTerm)
         == FilteredLogs(a, levelFilter, clientFilter, searchTerm) + FilteredLogs(b, levelFilter, clientFilter, searchTerm)
  {
    if a == [] {
      assert a + b == b;
    } else {
      assert (a + b)[1..] == a[1..] + b;
      FilteredLogsAppend(a[1..], b, levelFilter, clientFilter, searchTerm);
    }
  }

  /** With every filter at its initial value the whole list is shown. */
  lemma {:induction false} InitialFiltersShowAll(logs: seq<ParsedLogEntry>)
    ensures FilteredLogs(logs, "all", "all", "") == logs
  {
    if logs != [] {
      InitialFiltersShowAll(logs[1..]);
    }
  }

  /** Choosing a client hides every entry whose message carried no client id. */
  lemma ClientFilterHidesEntriesWithoutClient(logs: seq<ParsedLogEntry>, levelFilter: string,
                                              clientFilter: string, searchTerm: string)
    requires clientFilter != "all"
    ensures forall l :: l in FilteredLogs(logs, levelFilter, clientFilter, searchTerm) ==> l.clientId == Some(clientFilter)
  {
  }

  /** Filtering twice with the same settings is filtering once. */
  lemma {:induction false} FilterIdempotent(logs: seq<ParsedLogEntry>, levelFilter: string, clientFilter: string, searchTerm: string)
    ensures var once := FilteredLogs(logs, levelFilter, clientFilter, searchTerm);
      FilteredLogs(once, levelFilter, clientFilter, searchTerm) == once
  {
    if logs != [] {
      FilterIdempotent(logs[1..], levelFilter, clientFilter, searchTerm);
    }
  }

  /** The number of entries satisfying `p`. */
  function CountWhere(logs: seq<ParsedLogEntry>, p: ParsedLogEntry -> bool): (n: nat)
    ensures n <= |logs|
    ensures n == 0 <==> forall i :: 0 <= i < |logs| ==> !p(logs[i])
    ensures n == |logs| <==> forall i :: 0 <= i < |logs| ==> p(logs[i])
  {
    if logs == [] then 0 else (if p(logs[0]) then 1 else 0) + CountWhere(logs[1..], p)
  }

  predicate IsError(l: ParsedLogEntry) { NormalizeLevel(Some(l.level)) == "ERROR" }
  predicate IsWarning(l: ParsedLogEntry) { Ascii.StartsWith(NormalizeLevel(Some(l.level)), "WARN") }
  predicate IsInfo(l: ParsedLogEntry) { NormalizeLevel(Some(l.level)) == "INFO" }

  /** The three counts never add up to more than the total: no level is
      counted in two of them. */
  lemma {:induction false} CountsWithinTotal(logs: seq<ParsedLogEntry>)
    ensures CountWhere(logs, IsError) + CountWhere(logs, IsWarning) + CountWhere(logs, IsInfo) <= |logs|
  {
    if logs != [] {
      var n := NormalizeLevel(Some(logs[0].level));
      assert IsError(logs[0]) ==> !IsWarning(logs[0]) by {
        if IsError(logs[0]) { assert n[..4] == "ERRO"; }
      }
      assert IsInfo(logs[0]) ==> !IsWarning(logs[0]) by {
        if IsInfo(logs[0]) { assert n[..4] == "INFO"; }
      }
      CountsWithinTotal(logs[1..]);
    }
  }

  /** A "WARNING" entry is counted as a warning, yet the "WARN" level filter,
      which compares exactly, hides it. */
  lemma WarningCountedButNotListed(l: ParsedLogEntry)
    requires l.level == "WARNING"
    ensures IsWarning(l)
    ensures !Keep(l, "WARN", "all", "")
  {
    assert NormalizeLevel(Some(l.level)) == "WARNING";
    assert NormalizeLevel(Some(l.level))[..4] == "WARN";
  }

  /** The entry's client id when it is set and non-empty. */
  predicate HasClient(log: ParsedLogEntry) { log.clientId.Some? && log.clientId.value != "" }

  /** `uniqueClients` as a function: the distinct non-empty client ids in
      order of first appearance (a JavaScript `Set` keeps insertion order). */
  function UniqueClientsOf(logs: seq<ParsedLogEntry>): (ids: seq<string>)
    ensures forall i, j :: 0 <= i < j < |ids| ==> ids[i] != ids[j]
    ensures forall x :: x in ids <==> exists k :: 0 <= k < |logs| && HasClient(logs[k]) && logs[k].clientId.value == x
  {
    if logs == [] then []
    else
      var prefix := logs[..|logs| - 1];
      var prev := UniqueClientsOf(prefix);
      var last := logs[|logs| - 1];
      assert forall k :: 0 <= k < |prefix| ==> prefix[k] == logs[k];
      if HasClient(last) && last.clientId.value !in prev then prev + [last.clientId.value] else prev
  }

  /** The list seen after the first `k` entries is a prefix of the final
      list: an id keeps the place its first appearance gave it. */
  lemma {:induction false} UniqueClientsKeepFirstOrder(logs: seq<ParsedLogEntry>, k: nat)
    requires k <= |logs|
    ensures UniqueClientsOf(logs[..k]) <= UniqueClientsOf(logs)
    decreases |logs|
  {
    if k < |logs| {
      var prefix := logs[..|logs| - 1];
      assert prefix[..k] == logs[..k];
      UniqueClientsKeepFirstOrder(prefix, k);
    } else {
      assert logs[..k] == logs;
    }
  }

  /** `uniqueClients`: the loop over the entries adding each truthy client id
      to an insertion-ordered set. */
  method UniqueClients(logs: seq<ParsedLogEntry>) returns (ids: seq<string>)
    ensures ids == UniqueClientsOf(logs)
  {
    ids := [];
    for i := 0 to |logs|
      invariant ids == UniqueClientsOf(logs[..i])
    {
      assert logs[..i + 1][..i] == logs[..i];
      var log := logs[i];
      if log.clientId.Some? && log.clientId.value != "" && log.clientId.value !in ids {
        ids := ids + [log.clientId.value];
      }
    }
    assert logs[..|logs|] == logs;
  }
}
