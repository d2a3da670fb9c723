/** The `KEY=value` configuration file: blank lines and `#` comments are
    skipped, an `export ` prefix is allowed, the split is at the first `=`,
    key and value are trimmed and one pair of matching quotes is removed
    from the value; a later key overrides an earlier one. */
module Config {
  import opened Wrappers
  import opened Text

  /** The parsed settings; `get` looks one up. */
  datatype AppConfig = AppConfig(values: map<string, string>)
  {
    function Get(key: string): (r: Option<string>)
      ensures r.Some? <==> key in values
      ensures r.Some? ==> r.value == values[key]
    {
      if key in values then Some(values[key]) else None
    }
  }

  // ------------------------------------------------------------------ lines

  /** A line ended by "\r\n" loses its carriage return. */
  function StripCr(line: string): string {
    if line != [] && line[|line| - 1] == '\r' then line[..|line| - 1] else line
  }

  /** `str::lines`: split after each '\n', drop the '\n' (and a '\r' just
      before it); no empty last line comes from a final line ending. */
  function Lines(s: string): (r: seq<string>)
    ensures forall i :: 0 <= i < |r| ==> '\n' !in r[i]
    decreases |s|
  {
    if s == [] then []
    else
      match SplitOnce(s, '\n')
      case None => [s]
      case Some((line, rest)) =>
        assert '\n' !in StripCr(line) by {
          assert forall c :: c in StripCr(line) ==> c in line;
        }
        [StripCr(line)] + Lines(rest)
  }

  /** Lines written one per "\n". */
  function Unlines(lines: seq<string>): string {
    if lines == [] then [] else lines[0] + "\n" + Unlines(lines[1..])
  }

  /** Reading back lines written one per "\n" gives the lines, as long as
      none holds a line break or ends with a carriage return. */
  lemma {:induction false} LinesOfUnlines(lines: seq<string>)
    requires forall i :: 0 <= i < |lines| ==> '\n' !in lines[i]
    requires forall i :: 0 <= i < |lines| ==> lines[i] == [] || lines[i][|lines[i]| - 1] != '\r'
    ensures Lines(Unlines(lines)) == lines
    decreases |lines|
  {
    if lines != [] {
      var rest := Unlines(lines[1..]);
      assert Unlines(lines) == lines[0] + ['\n'] + rest;
      SplitOnceOfJoined(lines[0], '\n', rest);
      LinesOfUnlines(lines[1..]);
    }
  }

  // ------------------------------------------------------------ one line

  /** What one line contributes. An invalid line keeps its text for the
      message; a value that is a lone quote character is where the
      parser's slice would panic. */
  datatype ParsedLine = Skip | Entry(key: string, value: string) | Invalid(line: string) | LoneQuote

  predicate IsQuoted(v: string) {
    (StartsWith(v, "\"") && EndsWith(v, "\"")) || (StartsWith(v, "'") && EndsWith(v, "'"))
  }

  /** The value with one pair of matching surrounding quotes removed. */
  function Unquote(v: string): (r: string)
    requires |v| != 1 || !IsQuoted(v)
    ensures IsQuoted(v) ==> |v| >= 2 && r == v[1..|v| - 1]
    ensures !IsQuoted(v) ==> r == v
  {
    if IsQuoted(v) then v[1..|v| - 1] else v
  }

  /** A trimmed key and value as stored. */
  function Setting(key: string, value: string): ParsedLine {
    if |value| == 1 && IsQuoted(value) then LoneQuote else Entry(key, Unquote(value))
  }

  /** The part of the line after an optional `export `, split at its first
      '='; `line` is the line as read, for the message. */
  function Assignment(body: string, line: string): ParsedLine {
    match SplitOnce(body, '=')
    case None => Invalid(line)
    case Some((key, value)) => Setting(Trim(key), Trim(value))
  }

  /** The parse of one line, as the loop body does it. */
  function ParseLine(line: string): ParsedLine {
    var trimmed := Trim(line);
    if trimmed == [] || StartsWith(trimmed, "#") then Skip
    else Assignment(StripPrefixOr(trimmed, "export "), line)
  }

  /** Blank lines and lines whose first visible character is '#' are
      skipped; nothing else is. */
  lemma SkippedLines(line: string)
    ensures ParseLine(line) == Skip <==> IsBlank(line) || StartsWith(Trim(line), "#")
  {
    var trimmed := Trim(line);
    if !(trimmed == [] || StartsWith(trimmed, "#")) {
      var body := StripPrefixOr(trimmed, "export ");
      match SplitOnce(body, '=')
      case None =>
      case Some((key, value)) =>
    }
  }

  /** A key with no '=' and no white space or comment marker at its ends. */
  predicate PlainKey(k: string) {
    && k != [] && '=' !in k
    && !IsWhitespace(k[0]) && !IsWhitespace(k[|k| - 1])
    && k[0] != '#' && !StartsWith(k, "export ")
  }

  /** A value with no white space at its ends and no surrounding quotes. */
  predicate PlainValue(v: string) {
    v != [] && !IsWhitespace(v[0]) && !IsWhitespace(v[|v| - 1]) && !IsQuoted(v)
  }

  /** A line that starts with a plain key then '=' is its own trim and is
      neither a comment nor exported. */
  lemma {:induction false} PlainKeyLine(k: string, rest: string)
    requires PlainKey(k) && rest != [] && rest[0] == '=' && !IsWhitespace(rest[|rest| - 1])
    ensures Trim(k + rest) == k + rest
    ensures !StartsWith(k + rest, "#")
    ensures !StartsWith(k + rest, "export ")
    ensures ParseLine(k + rest) == Assignment(k + rest, k + rest)
  {
    var line := k + rest;
    assert line[0] == k[0] && line[|line| - 1] == rest[|rest| - 1];
    TrimStartOfTrimmed(line);
    TrimEndOfTrimmed(line);
    assert !StartsWith(line, "#") by {
      assert line[..1][0] == k[0];
    }
    if |k| >= 7 {
      assert line[..7] == k[..7];
    } else if |line| >= 7 {
      assert line[..7][|k|] == '=';
    }
  }

  /** A plain key and a trimmed value around the first '=' split back into
      that key and value. */
  lemma {:induction false} AssignmentOfJoined(k: string, v: string)
    requires PlainKey(k) && (v == [] || (!IsWhitespace(v[0]) && !IsWhitespace(v[|v| - 1])))
    ensures Assignment(k + "=" + v, k + "=" + v) == Setting(k, v)
  {
    assert k + "=" + v == k + ['='] + v;
    SplitOnceOfJoined(k, '=', v);
    TrimStartOfTrimmed(k);
    TrimEndOfTrimmed(k);
    TrimStartOfTrimmed(v);
    TrimEndOfTrimmed(v);
  }

  /** A line written as key '=' value parses back to that key and value: the
      split is at the FIRST '=', so the value may hold '=' signs. */
  lemma {:induction false} ParseLineOfEntry(k: string, v: string)
    requires PlainKey(k) && PlainValue(v)
    ensures ParseLine(k + "=" + v) == Entry(k, v)
  {
    assert k + "=" + v == k + ("=" + v);
    PlainKeyLine(k, "=" + v);
    AssignmentOfJoined(k, v);
  }

  /** A value wrapped in double quotes loses exactly those quotes. */
  lemma {:induction false} UnquoteOfQuoted(v: string)
    ensures var q := "\"" + v + "\""; IsQuoted(q) && |q| >= 2 && q[0] == '"' && q[|q| - 1] == '"' && Unquote(q) == v
  {
    var q := "\"" + v + "\"";
    assert q[..1] == "\"";
    assert q[|q| - 1..] == "\"";
    assert q[1..|q| - 1] == v;
  }

  /** A double-quoted value comes back without its quotes, whatever it holds
      (white space, '=' or quotes included). */
  lemma {:induction false} ParseLineOfQuoted(k: string, v: string)
    requires PlainKey(k)
    ensures ParseLine(k + "=" + ("\"" + v + "\"")) == Entry(k, v)
  {
    var q := "\"" + v + "\"";
    UnquoteOfQuoted(v);
    assert k + "=" + q == k + ("=" + q);
    PlainKeyLine(k, "=" + q);
    AssignmentOfJoined(k, q);
  }

  /** A line already trimmed that neither is a comment nor starts with
      `export ` is parsed as it stands. */
  lemma ParsePlainLine(t: string)
    requires t != [] && !IsWhitespace(t[0]) && !IsWhitespace(t[|t| - 1])
    requires t[0] != '#' && !StartsWith(t, "export ")
    ensures ParseLine(t) == Assignment(t, t)
  {
    TrimStartOfTrimmed(t);
    TrimEndOfTrimmed(t);
    assert !StartsWith(t, "#") by { assert t[..1][0] == t[0]; }
  }

  /** The same line behind `export ` is parsed from what follows the prefix. */
  lemma ParseExportLine(t: string)
    requires t != [] && !IsWhitespace(t[|t| - 1])
    ensures ParseLine("export " + t) == Assignment(t, "export " + t)
  {
    var line := "export " + t;
    assert line[0] == 'e' && line[|line| - 1] == t[|t| - 1];
    TrimStartOfTrimmed(line);
    TrimEndOfTrimmed(line);
    assert line[..7] == "export ";
    assert line[7..] == t;
    assert !StartsWith(line, "#") by { assert line[..1][0] == 'e'; }
  }

  /** One leading `export ` is ignored, except that an invalid line is
      reported with its text as read. */
  lemma {:induction false} ExportPrefixIgnored(t: string)
    requires t != [] && !IsWhitespace(t[0]) && !IsWhitespace(t[|t| - 1])
    requires t[0] != '#' && !StartsWith(t, "export ")
    ensures '=' in t ==> ParseLine("export " + t) == ParseLine(t)
    ensures '=' !in t ==> ParseLine("export " + t) == Invalid("export " + t)
  {
    ParsePlainLine(t);
    ParseExportLine(t);
  }

  /** A line with text but no '=' is invalid. */
  lemma InvalidWithoutEquals(line: string)
    requires !IsBlank(line) && !StartsWith(Trim(line), "#") && '=' !in line
    ensures ParseLine(line) == Invalid(line)
  {
  }

  /** An invalid line carries its own text. */
  lemma InvalidKeepsLine(line: string)
    requires ParseLine(line).Invalid?
    ensures ParseLine(line) == Invalid(line)
  {
  }

  // ----------------------------------------------------------- whole file

  /** Each line parsed on its own. */
  function ParseLines(lines: seq<string>): (ps: seq<ParsedLine>)
    ensures |ps| == |lines|
    decreases |lines|
  {
    if lines == [] then [] else [ParseLine(lines[0])] + ParseLines(lines[1..])
  }

  lemma {:induction false} ParseLinesAt(lines: seq<string>, i: nat)
    requires i < |lines|
    ensures ParseLines(lines)[i] == ParseLine(lines[i])
    decreases |lines|
  {
    if i > 0 {
      ParseLinesAt(lines[1..], i - 1);
    }
  }

  lemma {:induction false} ParseLinesAppend(a: seq<string>, b: seq<string>)
    ensures ParseLines(a + b) == ParseLines(a) + ParseLines(b)
    decreases |a|
  {
    if a == [] {
      assert a + b == b;
    } else {
      assert (a + b)[0] == a[0] && (a + b)[1..] == a[1..] + b;
      ParseLinesAppend(a[1..], b);
    }
  }

  /** The parse of a file with one line singled out. */
  lemma {:induction false} ParseLinesAround(before: seq<string>, line: string, after: seq<string>)
    ensures ParseLines(before + [line] + after) == ParseLines(before) + [ParseLine(line)] + ParseLines(after)
  {
    ParseLinesAppend(before + [line], after);
    ParseLinesAppend(before, [line]);
    assert [line][1..] == [];
    assert ParseLines([line]) == [ParseLine(line)] + ParseLines([]);
  }

  /** The lines the loop reaches hold no lone-quote value: every line up to
      the first invalid one (the loop stops there). */
  predicate Parses(ps: seq<ParsedLine>)
    decreases |ps|
  {
    ps == [] ||
      match ps[0]
      case LoneQuote => false
      case Invalid(_) => true
      case _ => Parses(ps[1..])
  }

  function InvalidMessage(index: nat, line: string): string {
    "Invalid config line " + NatToString(index + 1) + ": " + line
  }

  /** The reference fold over the parsed lines from number `index` on, into
      the settings so far: the first invalid line ends it with its 1-based
      line number and its text as read. */
  function ParseFrom(ps: seq<ParsedLine>, index: nat, values: map<string, string>): Result<map<string, string>, string>
    requires Parses(ps)
    decreases |ps|
  {
    if ps == [] then Ok(values)
    else
      match ps[0]
      case Skip => ParseFrom(ps[1..], index + 1, values)
      case Entry(k, v) => ParseFrom(ps[1..], index + 1, values[k := v])
      case Invalid(line) => Err(InvalidMessage(index, line))
  }

  /** The settings a file's text yields, or the message for its first
      invalid line. */
  function Parse(content: string): Result<map<string, string>, string>
    requires Parses(ParseLines(Lines(content)))
  {
    ParseFrom(ParseLines(Lines(content)), 0, map[])
  }

  /** `AppConfig::from_file` over the text of the file. */
  method FromContent(content: string) returns (r: Result<AppConfig, string>)
    requires Parses(ParseLines(Lines(content)))
    ensures r.Ok? <==> Parse(content).Ok?
    ensures r.Ok? ==> r.value.values == Parse(content).value
    ensures r.Err? ==> r.error == Parse(content).error
  {
    var lines := Lines(content);
    ghost var ps := ParseLines(lines);
    var values: map<string, string> := map[];
    for idx := 0 to |lines|
      invariant Parses(ps[idx..])
      invariant ParseFrom(ps, 0, map[]) == ParseFrom(ps[idx..], idx, values)
    {
      var line := lines[idx];
      ParseLinesAt(lines, idx);
      assert ps[idx..][0] == ParseLine(line) && ps[idx..][1..] == ps[idx + 1..];
      var trimmed := Trim(line);
      if trimmed != [] && !StartsWith(trimmed, "#") {
        var body := StripPrefixOr(trimmed, "export ");
        match SplitOnce(body, '=') {
          case None =>
            return Err(InvalidMessage(idx, line));
          case Some((key, value)) =>
            var v := Trim(value);
            values := values[Trim(key) := Unquote(v)];
        }
      }
    }
    r := Ok(AppConfig(values));
  }

  /** Splitting the lines: the fold over a prefix continues into the rest. */
  lemma {:induction false} ParseFromAppend(a: seq<ParsedLine>, b: seq<ParsedLine>, index: nat, values: map<string, string>)
    requires Parses(a + b)
    ensures Parses(a)
    ensures ParseFrom(a, index, values).Ok? ==> Parses(b)
    ensures ParseFrom(a, index, values).Ok? ==>
              ParseFrom(a + b, index, values) == ParseFrom(b, index + |a|, ParseFrom(a, index, values).value)
    ensures ParseFrom(a, index, values).Err? ==> ParseFrom(a + b, index, values) == ParseFrom(a, index, values)
    decreases |a|
  {
    if a == [] {
      assert a + b == b;
    } else {
      assert (a + b)[0] == a[0] && (a + b)[1..] == a[1..] + b;
      match a[0]
      case Skip => ParseFromAppend(a[1..], b, index + 1, values);
      case Entry(k, v) => ParseFromAppend(a[1..], b, index + 1, values[k := v]);
      case Invalid(_) =>
    }
  }

  predicate SetsKey(p: ParsedLine, key: string) {
    p.Entry? && p.key == key
  }

  /** Lines that do not set a key leave its value as it was. */
  lemma {:induction false} LaterLinesKeepKey(ps: seq<ParsedLine>, index: nat, values: map<string, string>, key: string)
    requires Parses(ps)
    requires forall i :: 0 <= i < |ps| ==> !SetsKey(ps[i], key)
    requires key in values
    ensures ParseFrom(ps, index, values).Ok? ==>
              key in ParseFrom(ps, index, values).value && ParseFrom(ps, index, values).value[key] == values[key]
    decreases |ps|
  {
    if ps != [] {
      assert forall i :: 0 <= i < |ps| - 1 ==> ps[1..][i] == ps[i + 1];
      assert !SetsKey(ps[0], key);
      match ps[0]
      case Skip => LaterLinesKeepKey(ps[1..], index + 1, values, key);
      case Entry(k, v) => LaterLinesKeepKey(ps[1..], index + 1, values[k := v], key);
      case Invalid(_) =>
    }
  }

  /** A fold over lines none of which is invalid succeeds. */
  lemma {:induction false} NoInvalidParses(ps: seq<ParsedLine>, index: nat, values: map<string, string>)
    requires Parses(ps)
    requires forall i :: 0 <= i < |ps| ==> !ps[i].Invalid?
    ensures ParseFrom(ps, index, values).Ok?
    decreases |ps|
  {
    if ps != [] {
      assert forall i :: 0 <= i < |ps| - 1 ==> ps[1..][i] == ps[i + 1];
      match ps[0]
      case Skip => NoInvalidParses(ps[1..], index + 1, values);
      case Entry(k, v) => NoInvalidParses(ps[1..], index + 1, values[k := v]);
    }
  }

  /** Over parsed lines: an entry not overridden later decides its key. */
  lemma {:induction false} LastEntryWins(a: seq<ParsedLine>, key: string, value: string, b: seq<ParsedLine>)
    requires Parses(a + [Entry(key, value)] + b)
    requires forall p :: p in b ==> !SetsKey(p, key)
    requires ParseFrom(a + [Entry(key, value)] + b, 0, map[]).Ok?
    ensures AppConfig(ParseFrom(a + [Entry(key, value)] + b, 0, map[]).value).Get(key) == Some(value)
  {
    var e := [Entry(key, value)] + b;
    assert a + [Entry(key, value)] + b == a + e;
    ParseFromAppend(a, e, 0, map[]);
    var m := ParseFrom(a, 0, map[]).value;
    assert e[0] == Entry(key, value) && e[1..] == b;
    assert forall i :: 0 <= i < |b| ==> !SetsKey(b[i], key) by {
      forall i | 0 <= i < |b| ensures !SetsKey(b[i], key) {
        assert b[i] in b;
      }
    }
    LaterLinesKeepKey(b, |a| + 1, m[key := value], key);
  }

  /** Over parsed lines: the first invalid line ends the parse. */
  lemma {:induction false} FirstInvalidEnds(a: seq<ParsedLine>, line: string, b: seq<ParsedLine>)
    requires Parses(a + [Invalid(line)] + b)
    requires forall p :: p in a ==> !p.Invalid?
    ensures ParseFrom(a + [Invalid(line)] + b, 0, map[]) == Err(InvalidMessage(|a|, line))
  {
    var e := [Invalid(line)] + b;
    assert a + [Invalid(line)] + b == a + e;
    ParseFromAppend(a, e, 0, map[]);
    assert forall i :: 0 <= i < |a| ==> !a[i].Invalid? by {
      forall i | 0 <= i < |a| ensures !a[i].Invalid? {
        assert a[i] in a;
      }
    }
    NoInvalidParses(a, 0, map[]);
    assert e[0] == Invalid(line);
  }

  /** A key set on some line and not set again by any later line reads back
      as that line's value once the file parses. */
  lemma {:induction false} LastSettingWins(before: seq<string>, line: string, after: seq<string>, key: string, value: string)
    requires Parses(ParseLines(before + [line] + after))
    requires ParseLine(line) == Entry(key, value)
    requires forall p :: p in ParseLines(after) ==> !SetsKey(p, key)
    requires ParseFrom(ParseLines(before + [line] + after), 0, map[]).Ok?
    ensures AppConfig(ParseFrom(ParseLines(before + [line] + after), 0, map[]).value).Get(key) == Some(value)
  {
    ParseLinesAround(before, line, after);
    LastEntryWins(ParseLines(before), key, value, ParseLines(after));
  }

  /** The first invalid line is reported by its 1-based number and its text
      as read. */
  lemma {:induction false} FirstInvalidLineReported(before: seq<string>, line: string, after: seq<string>)
    requires Parses(ParseLines(before + [line] + after))
    requires forall p :: p in ParseLines(before) ==> !p.Invalid?
    requires ParseLine(line).Invalid?
    ensures ParseFrom(ParseLines(before + [line] + after), 0, map[]) == Err(InvalidMessage(|before|, line))
  {
    ParseLinesAround(before, line, after);
    InvalidKeepsLine(line);
    FirstInvalidEnds(ParseLines(before), line, ParseLines(after));
  }
}
