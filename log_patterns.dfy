/** The regular expressions both log pages apply to a log message, written
    out as searches over the string:
      - `key=([^,\s]+)`: the first "key=" followed by at least one character
        that is neither a comma nor whitespace, and the longest such run;
      - `\[(.*?)\]`: the first "[" whose next "]" comes before any line
        break, and the text between them;
      - `[\r\n]+$`: the run of carriage returns and line feeds that ends
        the string.
    `match` without the global flag returns the leftmost match, which is what
    the searches below return. Whitespace is ASCII whitespace. */
module LogPatterns {
  import opened Wrappers
  import Ascii

  /** A character of `[^,\s]`. */
  predicate IsFieldChar(c: char) { c != ',' && !Ascii.IsSpace(c) }

  /** A line terminator, which `.` does not match. */
  predicate IsLineBreak(c: char) { c == '\n' || c == '\r' || c == '\U{2028}' || c == '\U{2029}' }

  /** The end of the longest run of field characters starting at `i`. */
  function RunEnd(s: string, i: nat): (j: nat)
    requires i <= |s|
    ensures i <= j <= |s|
    ensures forall k :: i <= k < j ==> IsFieldChar(s[k])
    ensures j == |s| || !IsFieldChar(s[j])
    decreases |s| - i
  {
    if i < |s| && IsFieldChar(s[i]) then RunEnd(s, i + 1) else i
  }

  /** `key=` starts at `p` and is followed by at least one field character. */
  predicate FieldAt(s: string, key: string, p: nat) {
    var v := p + |key| + 1;
    v < |s| && s[p..v] == key + "=" && IsFieldChar(s[v])
  }

  /** The leftmost position at or after `p` where the field pattern matches. */
  function FieldSearch(s: string, key: string, p: nat): (r: Option<nat>)
    requires p <= |s|
    ensures r.Some? ==> p <= r.value < |s| && FieldAt(s, key, r.value)
    ensures r.Some? ==> forall q :: p <= q < r.value ==> !FieldAt(s, key, q)
    ensures r.None? ==> forall q :: p <= q ==> !FieldAt(s, key, q)
    decreases |s| - p
  {
    if p == |s| then None
    else if FieldAt(s, key, p) then Some(p)
    else FieldSearch(s, key, p + 1)
  }

  /** The captured value of `key=([^,\s]+)`, if the pattern matches. */
  function FieldValue(s: string, key: string): (v: Option<string>)
    ensures v.Some? ==> |v.value| > 0 && forall k :: 0 <= k < |v.value| ==> IsFieldChar(v.value[k])
    ensures v.None? <==> forall q :: !FieldAt(s, key, q)
  {
    match FieldSearch(s, key, 0)
    case None => None
    case Some(p) =>
      var start := p + |key| + 1;
      Some(s[start..RunEnd(s, start)])
  }

  /** The value is the whole run: the character after it, if any, is a comma
      or whitespace, and the run starts right after the first matching "key=". */
  lemma FieldValueIsMaximal(s: string, key: string)
    requires FieldValue(s, key).Some?
    ensures var p := FieldSearch(s, key, 0).value;
      var start := p + |key| + 1;
      var e := start + |FieldValue(s, key).value|;
      e <= |s| && s[start..e] == FieldValue(s, key).value && (e == |s| || !IsFieldChar(s[e]))
  {
  }

  /** The run of carriage returns and line feeds at the end, removed. */
  function StripTrailingNewlines(s: string): (r: string)
    ensures |r| <= |s| && r == s[..|r|]
    ensures r == [] || (r[|r| - 1] != '\r' && r[|r| - 1] != '\n')
    ensures forall k :: |r| <= k < |s| ==> s[k] == '\r' || s[k] == '\n'
  {
    if |s| > 0 && (s[|s| - 1] == '\r' || s[|s| - 1] == '\n') then StripTrailingNewlines(s[..|s| - 1]) else s
  }

  /** A string without a trailing CR or LF is left as it is; in particular a
      field value, which holds no whitespace, is never changed by the strip. */
  lemma StripKeepsFieldValue(v: string)
    requires forall k :: 0 <= k < |v| ==> IsFieldChar(v[k])
    ensures StripTrailingNewlines(v) == v
  {
  }

  /** Stripping twice is stripping once. */
  lemma StripIdempotent(s: string)
    ensures StripTrailingNewlines(StripTrailingNewlines(s)) == StripTrailingNewlines(s)
  {
  }

  /** The first "]" or line break at or after `i`. */
  function CloseSearch(s: string, i: nat): (r: Option<nat>)
    requires i <= |s|
    ensures r.Some? ==> i <= r.value < |s| && (s[r.value] == ']' || IsLineBreak(s[r.value]))
    ensures forall k :: i <= k < |s| && (r.None? || k < r.value) ==> s[k] != ']' && !IsLineBreak(s[k])
    decreases |s| - i
  {
    if i == |s| then None
    else if s[i] == ']' || IsLineBreak(s[i]) then Some(i)
    else CloseSearch(s, i + 1)
  }

  /** `\[(.*?)\]` matches at `p`: a "[" there, and the next "]" after it
      comes before any line break. */
  predicate BracketAt(s: string, p: nat) {
    p < |s| && s[p] == '[' && var c := CloseSearch(s, p + 1); c.Some? && s[c.value] == ']'
  }

  function BracketSearch(s: string, p: nat): (r: Option<nat>)
    requires p <= |s|
    ensures r.Some? ==> p <= r.value < |s| && BracketAt(s, r.value)
    ensures r.Some? ==> forall q :: p <= q < r.value ==> !BracketAt(s, q)
    ensures r.None? ==> forall q :: p <= q ==> !BracketAt(s, q)
    decreases |s| - p
  {
    if p == |s| then None
    else if BracketAt(s, p) then Some(p)
    else BracketSearch(s, p + 1)
  }

  /** The text inside the first bracket pair, if there is one. */
  function BracketText(s: string): (t: Option<string>)
    ensures t.Some? ==> forall k :: 0 <= k < |t.value| ==> t.value[k] != ']' && !IsLineBreak(t.value[k])
    ensures t.None? <==> forall q :: !BracketAt(s, q)
  {
    match BracketSearch(s, 0)
    case None => None
    case Some(p) => Some(s[p + 1..CloseSearch(s, p + 1).value])
  }
}
