/**
 * Folding is undone by the parser: printed headers split at CRLF and parsed give back the
 * field names and, word for word, the values (section 2.2.3 of RFC 5322).
 */
module HeaderRoundTrip {
  import opened Basics
  import opened Headers
  import opened SortedNames

  // ---------------------------------------------------------------- words

  function WordEnd(s: string): (n: nat)
    ensures n <= |s| && (forall k :: 0 <= k < n ==> !IsSpace(s[k])) && (n < |s| ==> IsSpace(s[n]))
  {
    if s == "" || IsSpace(s[0]) then 0 else 1 + WordEnd(s[1..])
  }

  /** The maximal runs of characters that are not white space. */
  function Words(s: string): seq<string>
    decreases |s|
  {
    if s == "" then []
    else if IsSpace(s[0]) then Words(s[1..])
    else [s[..WordEnd(s)]] + Words(s[WordEnd(s)..])
  }

  /** White space separates words. */
  lemma {:induction false} WordsGap(x: string, c: char, y: string)
    requires IsSpace(c)
    ensures Words(x + [c] + y) == Words(x) + Words(y)
    decreases |x|
  {
    var s := x + [c] + y;
    if x == "" {
      assert s[0] == c && s[1..] == y;
    } else if IsSpace(x[0]) {
      assert s[0] == x[0] && s[1..] == x[1..] + [c] + y;
      WordsGap(x[1..], c, y);
    } else {
      var n := WordEnd(x);
      assert s[0] == x[0];
      SameWord(x, c, y);
      WordsGap(x[n..], c, y);
      assert [x[..n]] + (Words(x[n..]) + Words(y)) == [x[..n]] + Words(x[n..]) + Words(y);
    }
  }

  lemma SameWord(x: string, c: char, y: string)
    requires IsSpace(c)
    ensures var s, n := x + [c] + y, WordEnd(x);
            WordEnd(s) == n && s[..n] == x[..n] && s[n..] == x[n..] + [c] + y
  {
    var s, n := x + [c] + y, WordEnd(x);
    forall k | 0 <= k < n ensures !IsSpace(s[k]) { assert s[k] == x[k]; }
    assert n < |x| ==> s[n] == x[n];
    EndOfWord(s, n);
  }

  lemma EndOfWord(s: string, n: nat)
    requires n < |s| && (forall k :: 0 <= k < n ==> !IsSpace(s[k])) && IsSpace(s[n])
    ensures WordEnd(s) == n
  {}

  lemma {:induction false} WordsTrimLeft(s: string)
    ensures Words(TrimLeft(s)) == Words(s)
  {
    if s == "" || !IsSpace(s[0]) {
    } else {
      WordsTrimLeft(s[1..]);
    }
  }

  lemma {:induction false} WordsTrimRight(s: string)
    ensures Words(TrimRight(s)) == Words(s)
  {
    if s == "" || !IsSpace(s[|s| - 1]) {
    } else {
      var t, c := s[..|s| - 1], s[|s| - 1];
      WordsTrimRight(t);
      WordsGap(t, c, "");
      assert t + [c] + "" == s;
    }
  }

  lemma WordsTrim(s: string)
    ensures Words(TrimSpace(s)) == Words(s)
  {
    WordsTrimLeft(s);
    WordsTrimRight(TrimLeft(s));
  }

  lemma {:induction false} WordsTrimBlanks(s: string)
    ensures Words(TrimBlanks(s)) == Words(s)
  {
    if s == "" || !IsBlank(s[0]) {
    } else {
      WordsTrimBlanks(s[1..]);
    }
  }

  /** Folding moves no word. */
  lemma WordsFold(line: string, from: nat)
    requires FoldPoint(line) > 0 && from <= FoldPoint(line)
    ensures var cut := FoldPoint(line);
            Words(line[from..]) == Words(line[from..cut]) + Words(Rest(line, cut))
  {
    var cut := FoldPoint(line);
    WordsGap(line[from..cut], line[cut], line[cut + 1..]);
    assert line[from..] == line[from..cut] + [line[cut]] + line[cut + 1..];
    assert line[cut..][1..] == line[cut + 1..];
    WordsTrimBlanks(line[cut..]);
    assert Words(line[cut..]) == Words(line[cut + 1..]);
  }

  lemma WordsFoldWhole(line: string)
    requires FoldPoint(line) > 0
    ensures Words(line) == Words(line[..FoldPoint(line)]) + Words(Rest(line, FoldPoint(line)))
  {
    WordsFold(line, 0);
    assert line[0..] == line && line[0..FoldPoint(line)] == line[..FoldPoint(line)];
  }

  // ---------------------------------------------------------------- lines

  function Join(lines: seq<string>): string {
    if lines == [] then "" else lines[0] + BREAK + Join(lines[1..])
  }

  function Find(text: string): (i: Option<nat>)
    ensures i.Some? ==> i.value + 2 <= |text|
  {
    FirstPair(text, '\r', '\n')
  }

  /** The lines of a text: what is between its CRLFs. */
  function Split(text: string): seq<string>
    decreases |text|
  {
    match Find(text)
    case None => if text == "" then [] else [text]
    case Some(i) => [text[..i]] + Split(text[i + 2..])
  }

  lemma {:induction false} FindsBreak(l: string, rest: string)
    requires !HasBreak(l)
    ensures Find(l + BREAK + rest) == Some(|l|)
    decreases |l|
  {
    var text := l + BREAK + rest;
    if l == "" {
    } else {
      assert text[1..] == l[1..] + BREAK + rest && text[0] == l[0];
      FindsBreak(l[1..], rest);
    }
  }

  lemma {:induction false} SplitJoin(lines: seq<string>)
    requires forall l :: l in lines ==> !HasBreak(l)
    ensures Split(Join(lines)) == lines
    decreases |lines|
  {
    if lines == [] {
    } else {
      var l, rest := lines[0], Join(lines[1..]);
      FindsBreak(l, rest);
      assert (l + BREAK + rest)[..|l|] == l && (l + BREAK + rest)[|l| + 2..] == rest;
      SplitJoin(lines[1..]);
    }
  }

  lemma {:induction false} JoinConcat(a: seq<string>, b: seq<string>)
    ensures Join(a + b) == Join(a) + Join(b)
    decreases |a|
  {
    if a == [] {
      assert a + b == b;
    } else {
      assert (a + b)[1..] == a[1..] + b;
      JoinConcat(a[1..], b);
    }
  }

  /** The folds of a line are its line breaks. */
  lemma {:induction false} FoldedIsJoin(line: string, lead: string)
    ensures lead + Folded(line) + BREAK == Join(Physical(line, lead))
    decreases |line|
  {
    var cut := FoldPoint(line);
    if cut == 0 {
      assert Join([lead + line][1..]) == "";
    } else {
      var rest := Rest(line, cut);
      FoldedIsJoin(rest, ['\t']);
      var lines := Physical(line, lead);
      assert lines[0] == lead + line[..cut] && lines[1..] == Physical(rest, ['\t']);
      FoldIsBreak(lead, line[..cut], Folded(rest));
    }
  }

  lemma FoldIsBreak(lead: string, first: string, rest: string)
    ensures lead + (first + FOLD + rest) + BREAK == (lead + first) + BREAK + (['\t'] + rest + BREAK)
  {
    assert FOLD == BREAK + ['\t'];
  }

  function Lines(fields: seq<Field>): seq<string> {
    if fields == [] then [] else Physical(Line(fields[0]), "") + Lines(fields[1..])
  }

  lemma {:induction false} TextIsJoin(fields: seq<Field>)
    ensures Text(fields) == Join(Lines(fields))
    decreases |fields|
  {
    if fields == [] {
    } else {
      FoldedIsJoin(Line(fields[0]), "");
      assert "" + Folded(Line(fields[0])) == Folded(Line(fields[0]));
      JoinConcat(Physical(Line(fields[0]), ""), Lines(fields[1..]));
      TextIsJoin(fields[1..]);
    }
  }

  lemma {:induction false} PhysicalHasNoBreak(line: string, lead: string)
    requires !HasBreak(line) && !HasBreak(lead)
    ensures forall l :: l in Physical(line, lead) ==> !HasBreak(l)
    decreases |line|
  {
    var cut := FoldPoint(line);
    if cut > 0 {
      var rest := Rest(line, cut);
      RestIsSuffix(line, cut);
      PhysicalHasNoBreak(rest, ['\t']);
    }
  }

  predicate IsField(f: Field) { IsHeaderName(f.name) && !HasBreak(f.value) }

  lemma {:induction false} LinesHaveNoBreak(fields: seq<Field>)
    requires forall f :: f in fields ==> IsField(f)
    ensures forall l :: l in Lines(fields) ==> !HasBreak(l)
    decreases |fields|
  {
    if fields == [] {
    } else {
      assert IsField(fields[0]);
      PhysicalHasNoBreak(Line(fields[0]), "");
      LinesHaveNoBreak(fields[1..]);
    }
  }

  // ---------------------------------------------------------------- parsing back

  lemma {:induction false} ParseConcat(p: Parsed, a: seq<string>, b: seq<string>)
    ensures ParseLines(p, a + b) == ParseLines(ParseLines(p, a), b)
    decreases |a|
  {
    if a == [] {
      assert a + b == b;
    } else {
      assert (a + b)[0] == a[0] && (a + b)[1..] == a[1..] + b;
      ParseConcat(ParseLine(p, a[0]), a[1..], b);
    }
  }

  lemma {:induction false} ColonAfterName(name: string, rest: string)
    requires ':' !in name
    ensures Colon(name + [':'] + rest) == Some(|name|)
    decreases |name|
  {
    var line := name + [':'] + rest;
    if name == "" {
    } else {
      assert line[0] == name[0] && line[1..] == name[1..] + [':'] + rest;
      ColonAfterName(name[1..], rest);
    }
  }

  /** A header name is not trimmed. */
  lemma NameIsTrim(name: string)
    requires IsHeaderName(name)
    ensures TrimSpace(name) == name && !IsBlank(name[0]) && ':' !in name
  {}

  /** The first line of a field starts a value for its name. */
  lemma ParseFirst(p: Parsed, name: string, rest: string)
    requires IsHeaderName(name)
    ensures ParseLine(p, name + [':'] + rest) == Parsed(Append(p.headers, name, TrimSpace(rest)), name)
  {
    var line := name + [':'] + rest;
    NameIsTrim(name);
    ColonAfterName(name, rest);
    assert line[0] == name[0] && line[..|name|] == name && line[|name| + 1..] == rest;
  }

  /** The state has a value that continuation lines go to. */
  predicate Open(p: Parsed) {
    p.key != "" && p.key in p.headers && p.headers[p.key] != []
  }

  function WithLast(p: Parsed, v: string): Parsed
    requires Open(p)
  {
    var values := p.headers[p.key];
    p.(headers := p.headers[p.key := values[|values| - 1 := v]])
  }

  function Last(p: Parsed): string
    requires Open(p)
  {
    p.headers[p.key][|p.headers[p.key]| - 1]
  }

  lemma ParseContinuation(p: Parsed, text: string) returns (v: string)
    requires Open(p)
    ensures ParseLine(p, ['\t'] + text) == WithLast(p, v)
    ensures Words(v) == Words(Last(p)) + Words(text)
  {
    var line := ['\t'] + text;
    assert line[1..] == text;
    WordsTrim(line);
    WordsGap(Last(p), ' ', TrimSpace(line));
    v := Last(p) + " " + TrimSpace(line);
  }

  /** Parsing a header line starts with its first physical line. */
  lemma ParsePhysical(p: Parsed, line: string, lead: string)
    ensures var cut := FoldPoint(line);
            ParseLines(p, Physical(line, lead)) ==
            if cut == 0 then ParseLine(p, lead + line)
            else ParseLines(ParseLine(p, lead + line[..cut]), Physical(Rest(line, cut), ['\t']))
  {
    var cut := FoldPoint(line);
    var lines := Physical(line, lead);
    if cut == 0 {
      assert lines[1..] == [];
    } else {
      assert lines[1..] == Physical(Rest(line, cut), ['\t']);
    }
  }

  /** The continuation lines of a value add its words to it. */
  lemma {:induction false} ParseContinuations(p: Parsed, text: string) returns (v: string)
    requires Open(p)
    ensures ParseLines(p, Physical(text, ['\t'])) == WithLast(p, v)
    ensures Words(v) == Words(Last(p)) + Words(text)
    decreases |text|
  {
    ParsePhysical(p, text, ['\t']);
    var cut := FoldPoint(text);
    if cut == 0 {
      v := ParseContinuation(p, text);
    } else {
      v := ParseFoldedContinuation(p, text);
    }
  }

  lemma {:induction false} ParseFoldedContinuation(p: Parsed, text: string) returns (v: string)
    requires Open(p) && FoldPoint(text) > 0
    ensures var cut := FoldPoint(text);
            ParseLines(ParseLine(p, ['\t'] + text[..cut]), Physical(Rest(text, cut), ['\t'])) == WithLast(p, v)
    ensures Words(v) == Words(Last(p)) + Words(text)
    decreases |text|, 0
  {
    var cut := FoldPoint(text);
    var u := ParseContinuation(p, text[..cut]);
    LastTwice(p, u, u);
    v := ParseContinuations(WithLast(p, u), Rest(text, cut));
    LastTwice(p, u, v);
    WordsFoldWhole(text);
    Regroup(Words(Last(p)), Words(text[..cut]), Words(Rest(text, cut)));
  }

  lemma LastTwice(p: Parsed, v: string, w: string)
    requires Open(p)
    ensures Open(WithLast(p, v)) && Last(WithLast(p, v)) == v && WithLast(WithLast(p, v), w) == WithLast(p, w)
  {
    var values := p.headers[p.key];
    var last := |values| - 1;
    assert values[last := v][last := w] == values[last := w];
  }

  // ---------------------------------------------------------------- round trip

  function WordsOf(values: seq<string>): seq<seq<string>> {
    if values == [] then [] else [Words(values[0])] + WordsOf(values[1..])
  }

  /** Headers up to the spacing of their values. */
  function View(headers: map<string, seq<string>>): map<string, seq<seq<string>>> {
    map k | k in headers :: WordsOf(headers[k])
  }

  /** The words of every value of every name, in the order written. */
  function Written(m: map<string, seq<seq<string>>>, fields: seq<Field>): map<string, seq<seq<string>>>
    decreases |fields|
  {
    if fields == [] then m
    else
      var f := fields[0];
      Written(m[f.name := (if f.name in m then m[f.name] else []) + [Words(f.value)]], fields[1..])
  }

  lemma {:induction false} WordsOfSnoc(values: seq<string>, v: string)
    ensures WordsOf(values + [v]) == WordsOf(values) + [Words(v)]
    decreases |values|
  {
    if values == [] {
      assert values + [v] == [v] && [v][1..] == [];
    } else {
      assert (values + [v])[1..] == values[1..] + [v];
      WordsOfSnoc(values[1..], v);
    }
  }

  /** The part of a field's line up to `end`, without its name. */
  lemma NamePart(f: Field, end: nat)
    requires |f.name| + 1 <= end <= |Line(f)|
    ensures var from := |f.name| + 1; "" + Line(f)[..end] == f.name + [':'] + Line(f)[from..end]
    ensures Words(Line(f)[|f.name| + 1..]) == Words(f.value)
  {
    var line, from := Line(f), |f.name| + 1;
    assert line[from..] == [' '] + f.value && line[from..][1..] == f.value;
    assert line[..from] == f.name + [':'];
    assert line[..end] == line[..from] + line[from..end];
  }

  /** A field is parsed to one more value for its name, with the words of its value. */
  lemma ParseField(p: Parsed, f: Field) returns (v: string)
    requires IsHeaderName(f.name)
    ensures ParseLines(p, Physical(Line(f), "")) == Parsed(Append(p.headers, f.name, v), f.name)
    ensures Words(v) == Words(f.value)
  {
    var line, from := Line(f), |f.name| + 1;
    var cut := FoldPoint(line);
    ParsePhysical(p, line, "");
    BlanksAreBehindName(f, cut);
    if cut == 0 {
      NamePart(f, |line|);
      assert line[..|line|] == line && line[from..|line|] == line[from..];
      ParseFirst(p, f.name, line[from..]);
      WordsTrim(line[from..]);
      v := TrimSpace(line[from..]);
    } else {
      NamePart(f, cut);
      v := ParseFoldedField(p, f, line, cut);
    }
  }

  lemma ParseFoldedField(p: Parsed, f: Field, line: string, cut: nat) returns (v: string)
    requires IsHeaderName(f.name) && cut == FoldPoint(line) > |f.name|
    requires var from := |f.name| + 1; "" + line[..cut] == f.name + [':'] + line[from..cut]
    ensures ParseLines(ParseLine(p, "" + line[..cut]), Physical(Rest(line, cut), ['\t']))
         == Parsed(Append(p.headers, f.name, v), f.name)
    ensures Words(v) == Words(line[|f.name| + 1..])
  {
    var from := |f.name| + 1;
    var u := TrimSpace(line[from..cut]);
    ParseFirst(p, f.name, line[from..cut]);
    WordsTrim(line[from..cut]);
    WordsFold(line, from);
    AppendLast(p, f.name, u, u);
    v := ParseContinuations(Parsed(Append(p.headers, f.name, u), f.name), Rest(line, cut));
    AppendLast(p, f.name, u, v);
  }

  lemma BlanksAreBehindName(f: Field, cut: nat)
    requires IsHeaderName(f.name) && cut == FoldPoint(Line(f))
    ensures cut > 0 ==> cut >= |f.name| + 1
  {
    var line := Line(f);
    assert forall k :: 0 <= k < |f.name| ==> line[k] == f.name[k];
    assert line[|f.name|] == ':';
  }

  lemma AppendLast(p: Parsed, key: string, v: string, w: string)
    requires key != ""
    ensures var q := Parsed(Append(p.headers, key, v), key);
            Open(q) && Last(q) == v && WithLast(q, w) == Parsed(Append(p.headers, key, w), key)
  {
    var values := if key in p.headers then p.headers[key] else [];
    assert (values + [v])[|values| := w] == values + [w];
    assert Append(p.headers, key, v)[key := values + [w]] == Append(p.headers, key, w);
  }

  lemma ViewAppend(headers: map<string, seq<string>>, key: string, v: string)
    ensures var m := View(headers);
            View(Append(headers, key, v)) == m[key := (if key in m then m[key] else []) + [Words(v)]]
  {
    var values := if key in headers then headers[key] else [];
    WordsOfSnoc(values, v);
  }

  lemma {:induction false} ParseFields(p: Parsed, fields: seq<Field>)
    requires forall f :: f in fields ==> IsField(f)
    ensures View(ParseLines(p, Lines(fields)).headers) == Written(View(p.headers), fields)
    decreases |fields|
  {
    if fields == [] {
    } else {
      var f := fields[0];
      assert IsField(f);
      var v := ParseField(p, f);
      ParseConcat(p, Physical(Line(f), ""), Lines(fields[1..]));
      ViewAppend(p.headers, f.name, v);
      ParseFields(Parsed(Append(p.headers, f.name, v), f.name), fields[1..]);
    }
  }

  // ---------------------------------------------------------------- valid headers

  predicate AllAscii(values: seq<string>) { forall v :: v in values ==> IsAscii(v) }

  predicate IsAsciiPost(h: PostHeaders, date: string) {
    && AllAscii([h.from, h.subject, h.messageId, date])
    && forall n :: n in h.extra ==> AllAscii(h.extra[n])
  }

  lemma {:induction false} ValuesAreFields(name: string, values: seq<string>)
    requires IsHeaderName(name) && forall v :: v in values ==> !HasBreak(v)
    ensures forall f :: f in Values(name, values) ==> IsField(f)
    decreases |values|
  {
    if values == [] {
    } else {
      ValuesAreFields(name, values[1..]);
    }
  }

  lemma {:induction false} ExtrasAreFields(extra: map<string, seq<string>>, names: seq<string>)
    requires ExtraFine(extra) && forall n :: n in names ==> n in extra
    ensures forall f :: f in Extras(extra, names) ==> IsField(f)
    decreases |names|
  {
    if names == [] {
    } else {
      assert EntryProblem(names[0], extra[names[0]]) == None;
      ValuesAreFields(names[0], extra[names[0]]);
      ExtrasAreFields(extra, names[1..]);
    }
  }

  lemma {:induction false} GroupsHaveNoBreak(names: seq<string>)
    requires forall g :: g in names ==> IsNewsgroup(TrimSpace(g))
    ensures !HasBreak(Groups(names))
    decreases |names|
  {
    if names == [] {
    } else {
      GroupHasNoBreak(TrimSpace(names[0]));
      GroupsHaveNoBreak(names[1..]);
    }
  }

  lemma GroupHasNoBreak(s: string)
    requires IsNewsgroup(s)
    ensures !HasBreak(s)
  {
    forall k | 0 <= k < |s| ensures s[k] != '\r' && s[k] != '\n' { assert IsGroupChar(s[k], k == 0); }
  }

  lemma FixedNames()
    ensures IsHeaderName("From") && IsHeaderName("Newsgroups") && IsHeaderName("Subject")
    ensures IsHeaderName("Message-ID") && IsHeaderName("Date")
  {}

  lemma FirstAreFields(h: PostHeaders, date: string, mime: string -> string)
    requires FixedProblem(h) == None && IsAscii(h.from) && IsAscii(h.subject) && !HasBreak(date)
    ensures forall f :: f in FirstFields(h, date, mime) ==> IsField(f)
  {
    var groups := Groups(h.newsgroups);
    assert !HasBreak(groups) by { GroupsHaveNoBreak(h.newsgroups); }
    FixedNames();
    assert IsField(Field("From", h.from)) && IsField(Field("Newsgroups", groups));
    assert IsField(Field("Subject", h.subject));
    assert IsField(Field("Date", date)) && (h.messageId != "" ==> IsField(Field("Message-ID", h.messageId)));
  }

  lemma ValidPostsAreFields(h: PostHeaders, date: string, mime: string -> string)
    requires Valid(h) && IsAscii(h.from) && IsAscii(h.subject) && !HasBreak(date)
    ensures forall f :: f in Fields(h, date, mime) ==> IsField(f)
  {
    FirstAreFields(h, date, mime);
    ExtrasAreFields(h.extra, Sorted(h.extra.Keys));
  }

  /** Any fields, printed with folding, split at CRLF and parsed, give back exactly the names
      written, and for each name its values in the order written, word for word. */
  lemma FieldsRoundTrip(fields: seq<Field>)
    requires forall f :: f in fields ==> IsField(f)
    ensures View(ParseLines(Parsed(map[], ""), Split(Text(fields) + BREAK)).headers) == Written(map[], fields)
  {
    var lines := Lines(fields);
    TextIsJoin(fields);
    LinesHaveNoBreak(fields);
    JoinConcat(lines, [""]);
    assert Join([""]) == BREAK by { assert [""][1..] == []; }
    SplitJoin(lines + [""]);
    var start := Parsed(map[], "");
    ParseConcat(start, lines, [""]);
    assert [""][1..] == [];
    ParseFields(start, fields);
    assert View(map[]) == map[];
  }

  /** Every valid post of ASCII headers reads back as written. */
  lemma PostRoundTrip(h: PostHeaders, date: string, mime: string -> string)
    requires Valid(h) && IsAsciiPost(h, date) && !HasBreak(date)
    ensures View(ParseLines(Parsed(map[], ""), Split(Text(Fields(h, date, mime)) + BREAK)).headers)
         == Written(map[], Fields(h, date, mime))
  {
    assert h.from in [h.from, h.subject, h.messageId, date] && h.subject in [h.from, h.subject, h.messageId, date];
    ValidPostsAreFields(h, date, mime);
    FieldsRoundTrip(Fields(h, date, mime));
  }

  // ---------------------------------------------------------------- line length

  predicate BlankSoon(s: string, i: nat)
    requires i + MAX_LINE <= |s|
  {
    exists k :: i <= k < i + MAX_LINE && IsBlank(s[k])
  }

  /** No run of `MAX_LINE` characters without a blank. */
  predicate NoLongRun(s: string) {
    forall i: nat | i <= |s| - MAX_LINE :: BlankSoon(s, i)
  }

  /** Only a line with a long run is written as it is. */
  lemma UnfoldedIsShort(line: string)
    requires NoLongRun(line) && line != "" && !IsBlank(line[0]) && FoldPoint(line) == 0
    ensures |line| <= MAX_LINE
  {
    assert |line| > MAX_LINE ==> BlankSoon(line, 0);
  }

  lemma {:induction false} PhysicalIsShort(line: string, lead: string)
    requires NoLongRun(line) && |lead| <= 1 && (line == "" || !IsBlank(line[0]))
    ensures forall l :: l in Physical(line, lead) ==> |l| <= MAX_LINE + 1
    decreases |line|
  {
    var cut := FoldPoint(line);
    if cut == 0 {
      if line != "" { UnfoldedIsShort(line); }
    } else {
      var rest := Rest(line, cut);
      SuffixHasNoLongRun(line, cut, rest);
      PhysicalIsShort(rest, ['\t']);
    }
  }

  lemma BlankInSuffix(s: string, d: nat, i: nat)
    requires d + i + MAX_LINE <= |s| && BlankSoon(s, d + i)
    ensures BlankSoon(s[d..], i)
  {
    var k :| d + i <= k < d + i + MAX_LINE && IsBlank(s[k]);
    assert s[d..][k - d] == s[k];
  }

  lemma SuffixHasNoLongRun(s: string, cut: nat, t: string)
    requires NoLongRun(s) && cut <= |s| && t == Rest(s, cut)
    ensures NoLongRun(t)
  {
    var d := |s| - |t|;
    RestIsSuffix(s, cut);
    forall i: nat | i <= |t| - MAX_LINE ensures BlankSoon(t, i) {
      BlankInSuffix(s, d, i);
    }
  }

  /** Without a blank-free run of 900 characters no physical line has more than 901 octets. */
  lemma {:induction false} LinesAreShort(fields: seq<Field>)
    requires forall f :: f in fields ==> IsField(f) && NoLongRun(Line(f))
    ensures forall l :: l in Lines(fields) ==> |l| <= MAX_LINE + 1
    decreases |fields|
  {
    if fields == [] {
    } else {
      var f := fields[0];
      assert IsField(f) && Line(f)[0] == f.name[0];
      PhysicalIsShort(Line(f), "");
      LinesAreShort(fields[1..]);
    }
  }

  /** What is written last, without the tab in front of a continuation. */
  function LastPiece(line: string): string
    decreases |line|
  {
    if FoldPoint(line) == 0 then line else LastPiece(Rest(line, FoldPoint(line)))
  }

  predicate KeepLimit(lines: seq<string>) { forall l :: l in lines ==> |l| <= MAX_LINE }

  lemma KeepLimitConcat(a: seq<string>, b: seq<string>)
    ensures KeepLimit(a + b) <==> KeepLimit(a) && KeepLimit(b)
  {
    assert forall l :: l in a + b <==> l in a || l in b;
  }

  /** Only the last piece of a line can be too long, and only it can fill up the tab's place. */
  lemma {:induction false} OnlyTheLastIsLong(line: string, lead: string)
    requires |lead| <= 1
    ensures KeepLimit(Physical(line, lead))
            <==> |LastPiece(line)| + (if FoldPoint(line) == 0 then |lead| else 1) <= MAX_LINE
    decreases |line|
  {
    var cut := FoldPoint(line);
    if cut == 0 {
      assert lead + line in [lead + line];
    } else {
      OnlyTheLastIsLong(Rest(line, cut), ['\t']);
      KeepLimitConcat([lead + line[..cut]], Physical(Rest(line, cut), ['\t']));
    }
  }

  /** The printed line breaks the limit of 900 octets: it could not be folded, or what is left
      behind its last fold has 900 characters or more. */
  predicate Overlong(f: Field) {
    if FoldPoint(Line(f)) == 0 then |Line(f)| > MAX_LINE else |LastPiece(Line(f))| >= MAX_LINE
  }

  predicate SomeOverlong(fields: seq<Field>) { exists f :: f in fields && Overlong(f) }

  /** The limit is kept exactly by the headers without such a line. */
  lemma {:induction false} LimitIsKeptUnlessOverlong(fields: seq<Field>)
    ensures KeepLimit(Lines(fields)) <==> !SomeOverlong(fields)
    decreases |fields|
  {
    if fields == [] {
    } else {
      LimitIsKeptUnlessOverlong(fields[1..]);
      OnlyTheLastIsLong(Line(fields[0]), "");
      KeepLimitConcat(Physical(Line(fields[0]), ""), Lines(fields[1..]));
      OverlongHead(fields);
    }
  }

  lemma OverlongHead(fields: seq<Field>)
    requires fields != []
    ensures SomeOverlong(fields) <==> Overlong(fields[0]) || SomeOverlong(fields[1..])
  {
    assert forall f :: f in fields <==> f == fields[0] || f in fields[1..];
  }

  lemma FoldsAtLimit(a: string, b: string)
    requires |a| == MAX_LINE - 1 && |b| == MAX_LINE && !IsBlank(b[0])
    ensures FoldPoint(a + [' '] + b) == MAX_LINE - 1 && Rest(a + [' '] + b, MAX_LINE - 1) == b
  {
    var line := a + [' '] + b;
    assert line[..MAX_LINE] == a + [' '];
    assert line[MAX_LINE - 1..] == [' '] + b;
    assert ([' '] + b)[1..] == b;
    assert TrimBlanks(b) == b;
  }

  /** 901 octets are reached, whatever the words: the tab in front of a continuation is not
      counted. */
  lemma AContinuationCanHave901Octets(a: string, b: string)
    requires |a| == MAX_LINE - 1 && |b| == MAX_LINE && !IsBlank(b[0])
    ensures Physical(a + [' '] + b, "") == [a, ['\t'] + b]
  {
    FoldsAtLimit(a, b);
    assert (a + [' '] + b)[..MAX_LINE - 1] == a && "" + a == a;
    assert Physical(b, ['\t']) == [['\t'] + b];
  }
}
