/**
 * Article headers: the printer with its folding (post.go) and the parser that undoes it
 * (parseHeaders in client.go). The writer, the clock and MIME encoding are parameters.
 */
module Headers {
  import opened Basics
  import opened SortedNames

  const MAX_LINE: nat := 900
  const BREAK: string := ['\r', '\n']
  const FOLD: string := ['\r', '\n', '\t']

  // ---------------------------------------------------------------- characters

  predicate IsBlank(c: char) { c == ' ' || c == '\t' }

  /** ASCII white space. */
  predicate IsSpace(c: char) { c == ' ' || '\t' <= c <= '\r' }

  predicate IsAscii(s: string) { forall k :: 0 <= k < |s| ==> s[k] <= 127 as char }

  predicate HasBreak(s: string) { '\r' in s || '\n' in s }

  function TrimBlanks(s: string): (t: string)
    ensures |t| <= |s| && t == s[|s| - |t|..]
    ensures t == [] || !IsBlank(t[0])
  {
    if s == [] || !IsBlank(s[0]) then s else TrimBlanks(s[1..])
  }

  function TrimLeft(s: string): string {
    if s == [] || !IsSpace(s[0]) then s else TrimLeft(s[1..])
  }

  function TrimRight(s: string): string {
    if s == [] || !IsSpace(s[|s| - 1]) then s else TrimRight(s[..|s| - 1])
  }

  function TrimSpace(s: string): string { TrimRight(TrimLeft(s)) }

  /** The index of the last blank, or -1. */
  function LastBlank(s: string): (i: int)
    ensures -1 <= i < |s|
    ensures 0 <= i ==> IsBlank(s[i])
    ensures forall k :: i < k < |s| ==> !IsBlank(s[k])
  {
    if s == [] then -1 else if IsBlank(s[|s| - 1]) then |s| - 1 else LastBlank(s[..|s| - 1])
  }

  // ---------------------------------------------------------------- printing

  /** Where a line is folded; zero if it is written as it is. */
  function FoldPoint(line: string): (cut: nat)
    ensures cut > 0 ==> cut < MAX_LINE < |line| && IsBlank(line[cut])
  {
    if |line| <= MAX_LINE then 0
    else
      var cut := LastBlank(line[..MAX_LINE]);
      if cut <= 0 then 0 else cut
  }

  function Rest(line: string, cut: nat): (t: string)
    requires cut <= |line|
    ensures |t| <= |line| - cut
  {
    TrimBlanks(line[cut..])
  }

  lemma RestIsSuffix(line: string, cut: nat)
    requires cut <= |line|
    ensures var t := Rest(line, cut); t == line[|line| - |t|..]
  {
    Dropped(line, cut, |line| - cut - |Rest(line, cut)|);
  }

  lemma Dropped(s: string, m: nat, n: nat)
    requires m + n <= |s|
    ensures s[m..][n..] == s[m + n..]
  {}

  /** A header line with its folds. */
  function Folded(line: string): string
    decreases |line|
  {
    var cut := FoldPoint(line);
    if cut == 0 then line else line[..cut] + FOLD + Folded(Rest(line, cut))
  }

  /** The physical lines of a header line, the first one beginning with `lead`. */
  function Physical(line: string, lead: string): seq<string>
    decreases |line|
  {
    var cut := FoldPoint(line);
    if cut == 0 then [lead + line] else [lead + line[..cut]] + Physical(Rest(line, cut), ['\t'])
  }

  lemma FoldOnce(text: string, line: string)
    requires FoldPoint(line) > 0
    ensures var cut := FoldPoint(line);
            text + Folded(line) == (text + line[..cut] + FOLD) + Folded(Rest(line, cut))
  {
    var cut := FoldPoint(line);
    RegroupFold(text, line[..cut], FOLD, Folded(Rest(line, cut)));
  }

  lemma RegroupFold(a: string, b: string, c: string, d: string)
    ensures a + (b + c + d) == (a + b + c) + d
  {}

  method FoldHeaderLine(line: string) returns (text: string)
    ensures text == Folded(line)
  {
    if |line| <= MAX_LINE { return line; }
    text := "";
    var remaining := line;
    ghost var whole := Folded(line);
    while |remaining| > MAX_LINE
      invariant whole == text + Folded(remaining)
      decreases |remaining|
    {
      var cut := LastBlank(remaining[..MAX_LINE]);
      if cut <= 0 { return text + remaining; }
      FoldOnce(text, remaining);
      text := text + remaining[..cut] + FOLD;
      remaining := TrimBlanks(remaining[cut..]);
    }
    text := text + remaining;
  }

  datatype Field = Field(name: string, value: string)

  /** The headers of a post. */
  datatype PostHeaders = PostHeaders(
    from: string,
    subject: string,
    newsgroups: seq<string>,
    messageId: string,
    extra: map<string, seq<string>>)

  datatype Problem =
    | FromMissing | FromBreak | SubjectMissing | SubjectBreak | NoNewsgroup | BadNewsgroup
    | MessageIdBreak | BadMessageId | BadExtraName | ExtraBreak

  predicate IsGroupChar(c: char, first: bool) {
    || 'a' <= c <= 'z' || 'A' <= c <= 'Z' || '0' <= c <= '9'
    || (!first && c in {'.', '+', '_', '-'})
  }

  predicate IsNewsgroup(s: string) {
    s != "" && forall k :: 0 <= k < |s| ==> IsGroupChar(s[k], k == 0)
  }

  predicate IsHeaderName(s: string) {
    s != "" && forall k :: 0 <= k < |s| ==> 33 as char <= s[k] <= 126 as char && s[k] != ':'
  }

  predicate IsMessageId(s: string) {
    s != "" && s[0] == '<' && s[|s| - 1] == '>' && ' ' !in s && '\t' !in s
  }

  function EntryProblem(name: string, values: seq<string>): Option<Problem> {
    if !IsHeaderName(name) then Some(BadExtraName)
    else if exists v :: v in values && HasBreak(v) then Some(ExtraBreak)
    else None
  }

  predicate ExtraFine(extra: map<string, seq<string>>) {
    forall n :: n in extra ==> EntryProblem(n, extra[n]) == None
  }

  /** What is wrong with the fixed headers. */
  function FixedProblem(h: PostHeaders): Option<Problem> {
    if TrimSpace(h.from) == "" then Some(FromMissing)
    else if HasBreak(h.from) then Some(FromBreak)
    else if TrimSpace(h.subject) == "" then Some(SubjectMissing)
    else if HasBreak(h.subject) then Some(SubjectBreak)
    else if h.newsgroups == [] then Some(NoNewsgroup)
    else if exists g :: g in h.newsgroups && !IsNewsgroup(TrimSpace(g)) then Some(BadNewsgroup)
    else if h.messageId != "" && HasBreak(h.messageId) then Some(MessageIdBreak)
    else if h.messageId != "" && !IsMessageId(h.messageId) then Some(BadMessageId)
    else None
  }

  predicate Valid(h: PostHeaders) { FixedProblem(h) == None && ExtraFine(h.extra) }

  /** What validation may report: the first problem of the fixed headers, otherwise one of the
      additional headers, which are looked through in no particular order. */
  ghost predicate Reports(h: PostHeaders, problem: Option<Problem>) {
    if FixedProblem(h).Some? then problem == FixedProblem(h)
    else if ExtraFine(h.extra) then problem == None
    else problem.Some? && exists n :: n in h.extra && EntryProblem(n, h.extra[n]) == problem
  }

  method Validate(h: PostHeaders) returns (problem: Option<Problem>)
    ensures Reports(h, problem) && (problem == None <==> Valid(h))
  {
    problem := FixedProblem(h);
    if problem.Some? { return; }
    var rest := h.extra.Keys;
    while rest != {}
      invariant problem == None && rest <= h.extra.Keys
      invariant forall n :: n in h.extra && n !in rest ==> EntryProblem(n, h.extra[n]) == None
      decreases rest
    {
      var n :| n in rest;
      problem := EntryProblem(n, h.extra[n]);
      if problem.Some? { return; }
      rest := rest - {n};
    }
  }

  function Encode(s: string, mime: string -> string): string { if IsAscii(s) then s else mime(s) }

  function Groups(names: seq<string>): string {
    if names == [] then ""
    else if |names| == 1 then TrimSpace(names[0])
    else TrimSpace(names[0]) + ", " + Groups(names[1..])
  }

  function Values(name: string, values: seq<string>): seq<Field> {
    if values == [] then [] else [Field(name, values[0])] + Values(name, values[1..])
  }

  /** The additional headers under the given names. */
  function Extras(extra: map<string, seq<string>>, names: seq<string>): seq<Field>
    requires forall n :: n in names ==> n in extra
  {
    if names == [] then [] else Values(names[0], extra[names[0]]) + Extras(extra, names[1..])
  }

  function FirstFields(h: PostHeaders, date: string, mime: string -> string): seq<Field> {
    [Field("From", Encode(h.from, mime)), Field("Newsgroups", Groups(h.newsgroups)),
     Field("Subject", Encode(h.subject, mime))]
    + (if h.messageId != "" then [Field("Message-ID", h.messageId)] else [])
    + (if "Date" in h.extra then [] else [Field("Date", date)])
  }

  /** The fields of a post in the order they are written. */
  ghost function Fields(h: PostHeaders, date: string, mime: string -> string): seq<Field> {
    FirstFields(h, date, mime) + Extras(h.extra, Sorted(h.extra.Keys))
  }

  function Line(f: Field): string { f.name + ": " + f.value }

  /** The text of a list of fields. */
  function Text(fields: seq<Field>): string {
    if fields == [] then "" else Folded(Line(fields[0])) + BREAK + Text(fields[1..])
  }

  lemma {:induction false} TextConcat(a: seq<Field>, b: seq<Field>)
    ensures Text(a + b) == Text(a) + Text(b)
    decreases |a|
  {
    if a == [] {
      assert a + b == b;
    } else {
      assert (a + b)[1..] == a[1..] + b;
      TextConcat(a[1..], b);
    }
  }

  method WriteFields(fields: seq<Field>) returns (out: string)
    ensures out == Text(fields)
  {
    out := "";
    for i := 0 to |fields|
      invariant out == Text(fields[..i])
    {
      var line := FoldHeaderLine(fields[i].name + ": " + fields[i].value);
      out := out + (line + BREAK);
      TextConcat(fields[..i], [fields[i]]);
      assert fields[..i] + [fields[i]] == fields[..i + 1];
      assert line + BREAK + "" == line + BREAK;
    }
    assert fields[..|fields|] == fields;
  }

  lemma {:induction false} ExtrasConcat(extra: map<string, seq<string>>, a: seq<string>, b: seq<string>)
    requires forall n :: n in a + b ==> n in extra
    ensures Extras(extra, a + b) == Extras(extra, a) + Extras(extra, b)
    decreases |a|
  {
    if a == [] {
      assert a + b == b;
    } else {
      assert (a + b)[1..] == a[1..] + b;
      ExtrasConcat(extra, a[1..], b);
    }
  }

  lemma ExtrasSnoc(extra: map<string, seq<string>>, names: seq<string>, i: nat)
    requires i < |names| && forall n :: n in names ==> n in extra
    ensures Text(Extras(extra, names[..i + 1]))
         == Text(Extras(extra, names[..i])) + Text(Values(names[i], extra[names[i]]))
  {
    assert names[..i] + [names[i]] == names[..i + 1];
    ExtrasConcat(extra, names[..i], [names[i]]);
    TextConcat(Extras(extra, names[..i]), Extras(extra, [names[i]]));
    assert Extras(extra, [names[i]]) == Values(names[i], extra[names[i]]);
  }

  method WriteNamed(extra: map<string, seq<string>>, names: seq<string>) returns (text: string)
    requires forall n :: n in names ==> n in extra
    ensures text == Text(Extras(extra, names))
  {
    text := "";
    for i := 0 to |names|
      invariant text == Text(Extras(extra, names[..i]))
    {
      var more := WriteFields(Values(names[i], extra[names[i]]));
      ExtrasSnoc(extra, names, i);
      text := text + more;
    }
    assert names[..|names|] == names;
  }

  method WriteExtras(extra: map<string, seq<string>>) returns (text: string)
    ensures text == Text(Extras(extra, Sorted(extra.Keys)))
  {
    var names := SortNames(extra.Keys);
    text := WriteNamed(extra, names);
  }

  method JoinGroups(names: seq<string>) returns (s: string)
    ensures s == Groups(names)
  {
    s := "";
    var i := |names|;
    while i > 0
      invariant 0 <= i <= |names| && s == Groups(names[i..])
    {
      i := i - 1;
      assert names[i..][1..] == names[i + 1..];
      s := if i == |names| - 1 then TrimSpace(names[i]) else TrimSpace(names[i]) + ", " + s;
    }
  }

  method WriteFirst(h: PostHeaders, date: string, mime: string -> string) returns (out: string)
    ensures out == Text(FirstFields(h, date, mime))
  {
    var groups := JoinGroups(h.newsgroups);
    var fields := [Field("From", Encode(h.from, mime)), Field("Newsgroups", groups),
                   Field("Subject", Encode(h.subject, mime))];
    if h.messageId != "" { fields := fields + [Field("Message-ID", h.messageId)]; }
    if "Date" !in h.extra { fields := fields + [Field("Date", date)]; }
    assert fields == FirstFields(h, date, mime);
    out := WriteFields(fields);
  }

  method WriteValid(h: PostHeaders, date: string, mime: string -> string) returns (out: string)
    ensures out == Text(Fields(h, date, mime)) + BREAK
  {
    var first := WriteFirst(h, date, mime);
    var second := WriteExtras(h.extra);
    TextConcat(FirstFields(h, date, mime), Extras(h.extra, Sorted(h.extra.Keys)));
    out := first + second + BREAK;
  }

  /** Print the headers and the blank line; nothing is written if they are not valid. */
  method WriteTo(h: PostHeaders, date: string, mime: string -> string) returns (out: string, problem: Option<Problem>)
    ensures Reports(h, problem) && (problem == None <==> Valid(h))
    ensures out == if problem.Some? then "" else Text(Fields(h, date, mime)) + BREAK
  {
    problem := Validate(h);
    if problem.Some? { return "", problem; }
    out := WriteValid(h, date, mime);
  }

  // ---------------------------------------------------------------- parsing

  /** The parser's state: the headers so far and the key continuation lines go to. */
  datatype Parsed = Parsed(headers: map<string, seq<string>>, key: string)

  function Colon(line: string): (i: Option<nat>)
    ensures i.Some? ==> i.value < |line| && line[i.value] == ':' && ':' !in line[..i.value]
  {
    if line == "" then None
    else if line[0] == ':' then Some(0)
    else match Colon(line[1..]) case None => None case Some(i) => Some(i + 1)
  }

  /** A continuation line goes to the last value of the current key. */
  function Continue(headers: map<string, seq<string>>, key: string, line: string): map<string, seq<string>> {
    if key != "" && key in headers && headers[key] != [] then
      var values := headers[key];
      var last := |values| - 1;
      headers[key := values[last := values[last] + " " + TrimSpace(line)]]
    else headers
  }

  /** A new value for a key. */
  function Append(headers: map<string, seq<string>>, key: string, value: string): map<string, seq<string>> {
    headers[key := (if key in headers then headers[key] else []) + [value]]
  }

  function ParseLine(p: Parsed, line: string): Parsed {
    if line == "" then p
    else if IsBlank(line[0]) then Parsed(Continue(p.headers, p.key, line), p.key)
    else
      match Colon(line)
      case None => p
      case Some(i) =>
        var key := TrimSpace(line[..i]);
        Parsed(Append(p.headers, key, TrimSpace(line[i + 1..])), key)
  }

  function ParseLines(p: Parsed, lines: seq<string>): Parsed
    decreases |lines|
  {
    if lines == [] then p else ParseLines(ParseLine(p, lines[0]), lines[1..])
  }

  method ParseHeaders(lines: seq<string>) returns (headers: map<string, seq<string>>)
    ensures headers == ParseLines(Parsed(map[], ""), lines).headers
  {
    headers := map[];
    var currentKey := "";
    ghost var whole := ParseLines(Parsed(map[], ""), lines);
    for i := 0 to |lines|
      invariant whole == ParseLines(Parsed(headers, currentKey), lines[i..])
    {
      assert lines[i..][1..] == lines[i + 1..];
      var line := lines[i];
      if line == "" { continue; }
      if IsBlank(line[0]) {
        headers := Continue(headers, currentKey, line);
        continue;
      }
      var colon := Colon(line);
      if colon == None { continue; }
      currentKey := TrimSpace(line[..colon.value]);
      headers := Append(headers, currentKey, TrimSpace(line[colon.value + 1..]));
    }
  }
}
