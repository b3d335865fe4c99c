/** The deploy state file: its record, its printer and its parser. */
module DeployState {
  import opened Common
  import opened Text

  datatype DeployState = DeployState(
    active: string,
    previous: string,
    version: string,
    deployedAt: int,
    health: string)

  const EMPTY := DeployState("", "", "", 0, "")

  // ---- encodeStateFile and parseStateFile ----

  function Line(key: string, value: string): string {
    key + [':'] + value + ['\n']
  }

  function Encode(s: DeployState): string {
    Line("active", s.active) + (Line("previous", s.previous) + (Line("version", s.version)
    + (Line("deployed_at", FormatInt(s.deployedAt)) + Line("health", s.health))))
  }

  // strings.IndexByte(line, ':')
  function Colon(line: string): (r: Option<nat>)
    ensures r.Some? ==> r.value < |line| && line[r.value] == ':' && ':' !in line[..r.value]
    ensures r.None? ==> ':' !in line
  {
    if line == "" then None
    else if line[0] == ':' then Some(0)
    else match Colon(line[1..])
         case None => None
         case Some(i) => Some(i + 1)
  }

  function WithField(s: DeployState, key: string, value: string): DeployState {
    if key == "active" then s.(active := value)
    else if key == "previous" then s.(previous := value)
    else if key == "version" then s.(version := value)
    else if key == "deployed_at" then
      (match ParseInt64(value) case None => s case Some(n) => s.(deployedAt := n))
    else if key == "health" then s.(health := value)
    else s
  }

  function ParseLine(s: DeployState, raw: string): DeployState {
    var line := TrimSpace(raw);
    if line == "" || line[0] == '#' then s
    else match Colon(line)
         case None => s
         case Some(i) => if i == 0 then s else WithField(s, line[..i], line[i + 1..])
  }

  function ParseLines(s: DeployState, lines: seq<string>): DeployState
    decreases lines
  {
    if lines == [] then s else ParseLines(ParseLine(s, lines[0]), lines[1..])
  }

  function Parse(content: string): DeployState {
    ParseLines(EMPTY, Split(content))
  }

  // parseStateFile's loop.
  method ParseStateFile(content: string) returns (s: DeployState)
    ensures s == Parse(content)
  {
    s := EMPTY;
    var lines := Split(content);
    for k := 0 to |lines|
      invariant ParseLines(s, lines[k..]) == Parse(content)
    {
      s := ParseLine(s, lines[k]);
      assert lines[k..][1..] == lines[k + 1..];
    }
  }

  // ---- What a file written by Encode parses to ----

  // What the format can carry: one line, with nothing for TrimSpace to take.
  predicate Clean(value: string) {
    NoNewline(value) && (value != "" ==> !IsSpace(value[|value| - 1]))
  }

  predicate CleanState(s: DeployState) {
    Clean(s.active) && Clean(s.previous) && Clean(s.version) && Clean(s.health)
  }

  predicate Keyword(key: string) {
    key != "" && !IsSpace(key[0]) && key[0] != '#' && NoNewline(key) && ':' !in key
  }

  lemma {:induction false} ColonAfterKey(key: string, rest: string)
    requires ':' !in key
    ensures Colon(key + [':'] + rest) == Some(|key|)
  {
    if key == "" {
    } else {
      ColonAfterKey(key[1..], rest);
      assert (key + [':'] + rest)[1..] == key[1..] + [':'] + rest;
    }
  }

  // A rendered line parses to its key's field, less the value's trailing space.
  lemma ParseRenderedLine(s: DeployState, key: string, value: string)
    requires Keyword(key)
    ensures ParseLine(s, key + [':'] + value) == WithField(s, key, TrimSpaceRight(value))
  {
    TrimSpaceRightBehind(key + [':'], value);
    var line := key + [':'] + TrimSpaceRight(value);
    assert TrimSpace(key + [':'] + value) == line;
    ColonAfterKey(key, TrimSpaceRight(value));
    assert line[..|key|] == key && line[|key| + 1..] == TrimSpaceRight(value);
  }

  lemma ParseOneLine(s: DeployState, key: string, value: string, rest: string)
    requires Keyword(key) && NoNewline(value)
    ensures ParseLines(s, Split(Line(key, value) + rest))
         == ParseLines(WithField(s, key, TrimSpaceRight(value)), Split(rest))
  {
    SplitLine(key + [':'] + value, rest);
    ParseRenderedLine(s, key, value);
    assert Line(key, value) + rest == (key + [':'] + value) + ['\n'] + rest;
  }

  lemma SetText(s: DeployState, value: string)
    ensures WithField(s, "active", value) == s.(active := value)
    ensures WithField(s, "previous", value) == s.(previous := value)
    ensures WithField(s, "version", value) == s.(version := value)
    ensures WithField(s, "health", value) == s.(health := value)
  {
    assert "health"[0] != "active"[0];
  }

  lemma ParseText(s: DeployState, key: string, value: string, rest: string, s': DeployState)
    requires key in ["active", "previous", "version", "health"] && NoNewline(value)
    requires s' == WithField(s, key, TrimSpaceRight(value))
    ensures ParseLines(s, Split(Line(key, value) + rest)) == ParseLines(s', Split(rest))
  {
    ParseOneLine(s, key, value, rest);
  }

  lemma ParseHead(active: string, previous: string, version: string, rest: string)
    requires NoNewline(active) && NoNewline(previous) && NoNewline(version)
    ensures Parse(Line("active", active) + (Line("previous", previous) + (Line("version", version) + rest)))
         == ParseLines(DeployState(TrimSpaceRight(active), TrimSpaceRight(previous), TrimSpaceRight(version), 0, ""),
                       Split(rest))
  {
    var s1 := DeployState(TrimSpaceRight(active), "", "", 0, "");
    var s2 := DeployState(TrimSpaceRight(active), TrimSpaceRight(previous), "", 0, "");
    var s3 := DeployState(TrimSpaceRight(active), TrimSpaceRight(previous), TrimSpaceRight(version), 0, "");
    SetText(EMPTY, TrimSpaceRight(active));
    SetText(s1, TrimSpaceRight(previous));
    SetText(s2, TrimSpaceRight(version));
    ParseText(EMPTY, "active", active, Line("previous", previous) + (Line("version", version) + rest), s1);
    ParseText(s1, "previous", previous, Line("version", version) + rest, s2);
    ParseText(s2, "version", version, rest, s3);
  }

  lemma ParseLast(s: DeployState, health: string)
    requires NoNewline(health)
    ensures ParseLines(s, Split(Line("health", health))) == s.(health := TrimSpaceRight(health))
  {
    var s' := s.(health := TrimSpaceRight(health));
    SetText(s, TrimSpaceRight(health));
    assert Line("health", health) + "" == Line("health", health);
    ParseText(s, "health", health, "", s');
    assert Split("") == [""] && ParseLines(s', [""]) == ParseLines(ParseLine(s', ""), []) == s';
  }

  lemma SetTime(s: DeployState, at: int)
    requires IsInt64(at)
    ensures WithField(s, "deployed_at", TrimSpaceRight(FormatInt(at))) == s.(deployedAt := at)
    ensures NoNewline(FormatInt(at))
  {
    ParseFormatted(at);
    assert "deployed_at"[0] != "active"[0] && "deployed_at"[0] != "previous"[0] && "deployed_at"[0] != "version"[0];
  }

  lemma ParseTime(s: DeployState, at: int, rest: string)
    requires IsInt64(at)
    ensures ParseLines(s, Split(Line("deployed_at", FormatInt(at)) + rest)) == ParseLines(s.(deployedAt := at), Split(rest))
  {
    SetTime(s, at);
    ParseOneLine(s, "deployed_at", FormatInt(at), rest);
  }

  lemma ParseTail(s: DeployState, at: int, health: string)
    requires IsInt64(at) && NoNewline(health)
    ensures ParseLines(s, Split(Line("deployed_at", FormatInt(at)) + Line("health", health)))
         == s.(deployedAt := at, health := TrimSpaceRight(health))
  {
    ParseTime(s, at, Line("health", health));
    ParseLast(s.(deployedAt := at), health);
  }

  // The parser reads back every field of a printed record, less the trailing
  // white space of the text fields, as long as none holds a newline.
  lemma ParseOfEncode(s: DeployState)
    requires IsInt64(s.deployedAt)
    requires NoNewline(s.active) && NoNewline(s.previous) && NoNewline(s.version) && NoNewline(s.health)
    ensures Parse(Encode(s)) == DeployState(TrimSpaceRight(s.active), TrimSpaceRight(s.previous),
                                            TrimSpaceRight(s.version), s.deployedAt, TrimSpaceRight(s.health))
  {
    ParseHead(s.active, s.previous, s.version, Line("deployed_at", FormatInt(s.deployedAt)) + Line("health", s.health));
    ParseTail(DeployState(TrimSpaceRight(s.active), TrimSpaceRight(s.previous), TrimSpaceRight(s.version), 0, ""),
              s.deployedAt, s.health);
  }

  // The lines of the file.
  function FileLines(s: DeployState): seq<string> {
    ["active:" + s.active] + (["previous:" + s.previous] + (["version:" + s.version] + TailLines(s)))
  }

  function TailLines(s: DeployState): seq<string> {
    ["deployed_at:" + FormatInt(s.deployedAt)] + (["health:" + s.health] + [""])
  }

  lemma EncodeLines(s: DeployState)
    requires NoNewline(s.active) && NoNewline(s.previous) && NoNewline(s.version) && NoNewline(s.health)
    requires IsInt64(s.deployedAt)
    ensures Split(Encode(s)) == FileLines(s)
  {
    var d := Line("deployed_at", FormatInt(s.deployedAt)) + Line("health", s.health);
    var c := Line("version", s.version) + d;
    assert "version" + ":" == "version:" && "previous" + ":" == "previous:" && "active" + ":" == "active:";
    TailIs(s);
    FirstLine("version", s.version, d);
    FirstLine("previous", s.previous, c);
    FirstLine("active", s.active, Line("previous", s.previous) + c);
  }

  lemma TailIs(s: DeployState)
    requires NoNewline(s.health) && IsInt64(s.deployedAt)
    ensures Split(Line("deployed_at", FormatInt(s.deployedAt)) + Line("health", s.health)) == TailLines(s)
  {
    ParseFormatted(s.deployedAt);
    assert "health" + ":" == "health:" && "deployed_at" + ":" == "deployed_at:";
    assert Line("health", s.health) + "" == Line("health", s.health) && Split("") == [""];
    FirstLine("health", s.health, "");
    FirstLine("deployed_at", FormatInt(s.deployedAt), Line("health", s.health));
  }

  lemma FirstLine(key: string, value: string, rest: string)
    requires NoNewline(key) && NoNewline(value)
    ensures Split(Line(key, value) + rest) == [key + ":" + value] + Split(rest)
  {
    SplitLine(key + [':'] + value, rest);
    assert Line(key, value) + rest == (key + [':'] + value) + ['\n'] + rest;
  }

  // Lines the parser passes over: empty ones, comments, and those without a key or
  // with one it does not know.
  lemma NoiseIsIgnored(s: DeployState, raw: string)
    requires var line := TrimSpace(raw);
             || line == "" || line[0] == '#' || ':' !in line || line[0] == ':'
             || exists key, value :: line == key + ([':'] + value) && ':' !in key
                  && key !in {"active", "previous", "version", "deployed_at", "health"}
    ensures ParseLine(s, raw) == s
  {
    var line := TrimSpace(raw);
    if line != "" && line[0] != '#' && ':' in line && line[0] != ':' {
      var key, value :| line == key + ([':'] + value) && ':' !in key
                        && key !in {"active", "previous", "version", "deployed_at", "health"};
      assert line == key + [':'] + value;
      ColonAfterKey(key, value);
      assert line[..|key|] == key;
    }
  }

  // Whatever the content, the parser returns values the format can carry.
  lemma {:induction false} ParsedIsClean(s: DeployState, lines: seq<string>)
    requires CleanState(s) && forall l :: l in lines ==> NoNewline(l)
    ensures CleanState(ParseLines(s, lines))
    decreases lines
  {
    if lines != [] {
      ParsedLineIsClean(s, lines[0]);
      ParsedIsClean(ParseLine(s, lines[0]), lines[1..]);
    }
  }

  // What is behind the colon of a trimmed line carries over as it is.
  lemma TrimmedTailIsClean(raw: string, k: nat)
    requires NoNewline(raw) && k <= |TrimSpace(raw)|
    ensures Clean(TrimSpace(raw)[k..])
  {
    var line := TrimSpace(raw);
    TrimSpaceLeftEnds(raw);
    TrimSpaceRightEnds(TrimSpaceLeft(raw));
    forall c | c in line[k..] ensures c in raw {
      assert c in line;
    }
  }

  lemma FieldIsClean(s: DeployState, key: string, value: string)
    requires CleanState(s) && Clean(value)
    ensures CleanState(WithField(s, key, value))
  {
  }

  lemma ParsedLineIsClean(s: DeployState, raw: string)
    requires CleanState(s) && NoNewline(raw)
    ensures CleanState(ParseLine(s, raw))
  {
    var line := TrimSpace(raw);
    if Colon(line).Some? {
      var i := Colon(line).value;
      TrimmedTailIsClean(raw, i + 1);
      FieldIsClean(s, line[..i], line[i + 1..]);
    }
  }

  // Printing and parsing give the record back exactly when every text field is
  // one line that does not end in white space. Colons are fine anywhere.
  lemma RoundTrip(s: DeployState)
    requires IsInt64(s.deployedAt)
    ensures Parse(Encode(s)) == s <==> CleanState(s)
  {
    if CleanState(s) {
      ParseOfEncode(s);
    }
    ParsedIsClean(EMPTY, Split(Encode(s)));
  }
}
