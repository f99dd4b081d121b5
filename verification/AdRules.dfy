/** The text form of a chat's own advertisement rules: parser and printer. */
module AdRules {
  import opened Domain
  import opened Text

  datatype Mode = Containing | Exactly | Regex

  /** None stands for the empty string the maps give for an unknown label. */
  datatype AdRule = AdRule(pattern: string, mode: Option<Mode>, action: Option<Action>, enabled: bool)

  datatype Parsed = Ok(rules: seq<AdRule>) | BadLine | Invalid

  // ---------------------------------------------------------------- validity

  predicate ValidRule(r: AdRule, compiles: string -> bool) {
    && Trim(r.pattern) != "" && '\r' !in r.pattern && '\n' !in r.pattern && |r.pattern| <= 500
    && r.mode.Some? && (r.action == Some(Delete) || r.action == Some(Mute) || r.action == Some(Ban))
    && (r.mode == Some(Regex) ==> compiles(r.pattern))
  }

  /** validateLocalSettings on settings that are otherwise the defaults. */
  predicate Valid(rs: seq<AdRule>, compiles: string -> bool) {
    |rs| <= 50 && forall i :: 0 <= i < |rs| ==> ValidRule(rs[i], compiles)
  }

  predicate AllTrimmed(rs: seq<AdRule>) {
    forall i :: 0 <= i < |rs| ==> Trimmed(rs[i].pattern)
  }

  // ---------------------------------------------------------------- splitting and joining

  /** The position of the first c, or the length. */
  function IndexOf(s: string, c: char): (i: nat)
    ensures i <= |s| && (i < |s| ==> s[i] == c)
    ensures forall k :: 0 <= k < i ==> s[k] != c
  {
    if s == "" || s[0] == c then 0 else 1 + IndexOf(s[1..], c)
  }

  function Split(s: string, c: char): (r: seq<string>)
    ensures r != []
    decreases |s|
  {
    var i := IndexOf(s, c);
    if i == |s| then [s] else [s[..i]] + Split(s[i + 1..], c)
  }

  /** strings.SplitN(s, "|", 3). */
  function Fields(s: string): seq<string> {
    var i := IndexOf(s, '|');
    if i == |s| then [s]
    else
      var rest := s[i + 1..];
      var j := IndexOf(rest, '|');
      if j == |rest| then [s[..i], rest] else [s[..i], rest[..j], rest[j + 1..]]
  }

  function Join(lines: seq<string>): string {
    if lines == [] then ""
    else if |lines| == 1 then lines[0]
    else lines[0] + "\n" + Join(lines[1..])
  }

  lemma IndexOfSplit(a: string, c: char, b: string)
    requires c !in a
    ensures IndexOf(a + [c] + b, c) == |a|
    ensures (a + [c] + b)[..|a|] == a && (a + [c] + b)[|a| + 1..] == b
  {
    var s := a + [c] + b;
    var i := IndexOf(s, c);
    assert s[|a|] == c;
    assert forall k :: 0 <= k < |a| ==> s[k] != c;
  }

  lemma {:induction false} SplitJoin(lines: seq<string>)
    requires lines != [] && forall i :: 0 <= i < |lines| ==> '\n' !in lines[i]
    ensures Split(Join(lines), '\n') == lines
  {
    if |lines| == 1 {
      var i := IndexOf(lines[0], '\n');
    } else {
      IndexOfSplit(lines[0], '\n', Join(lines[1..]));
      assert lines[0] + "\n" + Join(lines[1..]) == lines[0] + ['\n'] + Join(lines[1..]);
      SplitJoin(lines[1..]);
    }
  }

  // ---------------------------------------------------------------- labels

  const DISABLED := "停用"
  const CLEAR := "清空"

  function ModeLabel(m: Option<Mode>): string {
    match m
    case Some(Containing) => "包含"
    case Some(Exactly) => "精确"
    case Some(Regex) => "正则"
    case None => ""
  }

  function ModeOf(s: string): Option<Mode> {
    if s == "包含" then Some(Containing)
    else if s == "精确" then Some(Exactly)
    else if s == "正则" then Some(Regex)
    else None
  }

  function ActionLabel(a: Option<Action>): string {
    match a
    case Some(Delete) => "删除"
    case Some(Mute) => "禁言"
    case Some(Ban) => "封禁"
    case _ => ""
  }

  function ActionOf(s: string): Option<Action> {
    if s == "删除" then Some(Delete)
    else if s == "禁言" then Some(Mute)
    else if s == "封禁" then Some(Ban)
    else None
  }

  /** The first field of a line. */
  function Head(r: AdRule): string {
    if r.enabled then ModeLabel(r.mode) else DISABLED + ModeLabel(r.mode)
  }

  predicate Plain(s: string) {
    s != "" && '|' !in s && '\n' !in s && Trim(s) == s
  }

  lemma ModeLabelShape(mode: Option<Mode>)
    requires mode.Some?
    ensures var m := ModeLabel(mode);
      && |m| == 2 && m[0] != '停' && ModeOf(m) == mode
      && (forall i :: 0 <= i < 2 ==> m[i] != '|' && m[i] != '\n' && !Space(m[i]))
  {
    assert "包含"[0] != "精确"[0] && "包含"[0] != "正则"[0] && "精确"[0] != "正则"[0];
  }

  lemma ModeLabels(r: AdRule)
    requires r.mode.Some?
    ensures Plain(Head(r))
    ensures r.enabled ==> !(DISABLED <= Head(r)) && ModeOf(Head(r)) == r.mode
    ensures !r.enabled ==> DISABLED <= Head(r) && ModeOf(Head(r)[|DISABLED|..]) == r.mode
  {
    hide ModeLabel, ModeOf, Trim;
    ModeLabelShape(r.mode);
    var m := ModeLabel(r.mode);
    assert DISABLED[0] == '停' && DISABLED[1] == '用' && !Space('停') && !Space('用');
    TrimIsTrimmed(Head(r));
    assert (DISABLED + m)[2..] == m;
  }

  lemma ActionLabels(a: Option<Action>)
    requires a == Some(Delete) || a == Some(Mute) || a == Some(Ban)
    ensures Plain(ActionLabel(a)) && ActionOf(ActionLabel(a)) == a
  {
    var l := ActionLabel(a);
    assert |l| == 2 && l[0] != '|' && l[1] != '|' && l[0] != '\n' && l[1] != '\n' && !Space(l[0]) && !Space(l[1]);
    TrimIsTrimmed(l);
    assert "删除"[0] != "禁言"[0] && "删除"[0] != "封禁"[0] && "禁言"[0] != "封禁"[0];
  }

  // ---------------------------------------------------------------- one line

  function FormatLine(r: AdRule): string {
    Head(r) + "|" + ActionLabel(r.action) + "|" + r.pattern
  }

  function ParseLine(line: string): Option<AdRule> {
    var p := Fields(line);
    if |p| != 3 then None
    else
      var mode := Trim(p[0]);
      var enabled := !(DISABLED <= mode);
      Some(AdRule(Trim(p[2]), ModeOf(if enabled then mode else mode[|DISABLED|..]), ActionOf(Trim(p[1])), enabled))
  }

  lemma ThreeFields(a: string, b: string, c: string)
    requires '|' !in a && '|' !in b
    ensures Fields(a + "|" + b + "|" + c) == [a, b, c]
  {
    hide IndexOf;
    var rest := b + ['|'] + c;
    assert a + "|" + b + "|" + c == a + ['|'] + rest;
    IndexOfSplit(a, '|', rest);
    IndexOfSplit(b, '|', c);
  }

  /** A printed line has exactly its three fields, pipes in the pattern included. */
  lemma LineFields(r: AdRule, compiles: string -> bool)
    requires ValidRule(r, compiles)
    ensures Fields(FormatLine(r)) == [Head(r), ActionLabel(r.action), r.pattern]
    ensures '\n' !in FormatLine(r)
  {
    hide Head, ActionLabel, ModeOf, ActionOf, Trim, Fields;
    ModeLabels(r);
    ActionLabels(r.action);
    ThreeFields(Head(r), ActionLabel(r.action), r.pattern);
  }

  lemma LineRoundTrip(r: AdRule, compiles: string -> bool)
    requires ValidRule(r, compiles)
    ensures ParseLine(FormatLine(r)) == Some(r.(pattern := Trim(r.pattern)))
  {
    hide Head, ActionLabel, ModeOf, ActionOf, Trim, Fields, FormatLine;
    LineFields(r, compiles);
    ModeLabels(r);
    ActionLabels(r.action);
  }

  // ---------------------------------------------------------------- whole texts

  function Lines(rs: seq<AdRule>): seq<string> {
    seq(|rs|, i requires 0 <= i < |rs| => FormatLine(rs[i]))
  }

  function Format(rs: seq<AdRule>): string {
    Join(Lines(rs))
  }

  /** None if some line that is not blank has fewer than three fields. */
  function ParseLines(lines: seq<string>): Option<seq<AdRule>> {
    if lines == [] then Some([])
    else
      var (pre, line) := (ParseLines(lines[..|lines| - 1]), lines[|lines| - 1]);
      if pre.None? || Trim(line) == "" then pre
      else
        var r := ParseLine(line);
        if r.None? then None else Some(pre.value + [r.value])
  }

  function Parse(text: string, compiles: string -> bool): Parsed {
    if Trim(text) == CLEAR || Trim(text) == "" then Ok([])
    else
      var rs := ParseLines(Split(text, '\n'));
      if rs.None? then BadLine
      else if Valid(rs.value, compiles) then Ok(rs.value) else Invalid
  }

  // ---------------------------------------------------------------- the loops

  method ParseAdRules(text: string, compiles: string -> bool) returns (r: Parsed)
    ensures r == Parse(text, compiles)
  {
    hide *;
    ParseBy(text, compiles);
    var out: seq<AdRule> := [];
    if Trim(text) == CLEAR || Trim(text) == "" {
      return Ok(out);
    }
    var lines := Split(text, '\n');
    ParseLinesEnds(lines);
    var i := 0;
    while i < |lines|
      invariant i <= |lines| && ParseLines(lines[..i]) == Some(out)
    {
      var line := lines[i];
      ParseLinesNext(lines, i);
      i := i + 1;
      if Trim(line) == "" {
        continue;
      }
      var p := Fields(line);
      ParseLineBy(line);
      if |p| != 3 {
        ParseLinesFail(lines, i);
        return BadLine;
      }
      var mode := Trim(p[0]);
      var enabled := !(DISABLED <= mode);
      if !enabled {
        mode := mode[|DISABLED|..];
      }
      out := out + [AdRule(Trim(p[2]), ModeOf(mode), ActionOf(Trim(p[1])), enabled)];
    }
    assert lines[..i] == lines;
    if !Valid(out, compiles) {
      return Invalid;
    }
    r := Ok(out);
  }

  lemma ParseBy(text: string, compiles: string -> bool)
    ensures Trim(text) == CLEAR || Trim(text) == "" ==> Parse(text, compiles) == Ok([])
    ensures !(Trim(text) == CLEAR || Trim(text) == "") ==>
      Parse(text, compiles) == (var rs := ParseLines(Split(text, '\n'));
        if rs.None? then BadLine else if Valid(rs.value, compiles) then Ok(rs.value) else Invalid)
  {
  }

  lemma ParseLineBy(line: string)
    ensures ParseLine(line) == (var p := Fields(line);
      if |p| != 3 then None
      else
        var mode := Trim(p[0]);
        var enabled := !(DISABLED <= mode);
        Some(AdRule(Trim(p[2]), ModeOf(if enabled then mode else mode[|DISABLED|..]), ActionOf(Trim(p[1])), enabled)))
  {
  }

  lemma ParseLinesEnds(lines: seq<string>)
    ensures ParseLines(lines[..0]) == Some([])
  {
  }

  lemma ParseLinesNext(lines: seq<string>, i: nat)
    requires i < |lines|
    ensures var (pre, line) := (ParseLines(lines[..i]), lines[i]);
      ParseLines(lines[..i + 1]) ==
        if pre.None? || Trim(line) == "" then pre
        else if ParseLine(line).None? then None else Some(pre.value + [ParseLine(line).value])
  {
    hide ParseLine, Trim;
    assert lines[..i + 1][..i] == lines[..i];
  }

  lemma {:induction false} ParseLinesFail(lines: seq<string>, i: nat)
    requires i <= |lines| && ParseLines(lines[..i]).None?
    ensures ParseLines(lines).None?
    decreases |lines| - i
  {
    hide ParseLine, Trim;
    if i < |lines| {
      ParseLinesNext(lines, i);
      ParseLinesFail(lines, i + 1);
    } else {
      assert lines[..i] == lines;
    }
  }

  method FormatAdRules(rules: seq<AdRule>) returns (text: string)
    ensures text == Format(rules)
  {
    var lines: seq<string> := [];
    var i := 0;
    while i < |rules|
      invariant i <= |rules| && lines == Lines(rules[..i])
    {
      var mode := ModeLabel(rules[i].mode);
      if !rules[i].enabled {
        mode := DISABLED + mode;
      }
      lines := lines + [mode + "|" + ActionLabel(rules[i].action) + "|" + rules[i].pattern];
      i := i + 1;
    }
    assert rules[..i] == rules;
    text := Join(lines);
  }

  // ---------------------------------------------------------------- round trips

  function TrimAll(rs: seq<AdRule>): seq<AdRule> {
    seq(|rs|, i requires 0 <= i < |rs| => rs[i].(pattern := Trim(rs[i].pattern)))
  }

  lemma {:induction false} ParsePrinted(rs: seq<AdRule>, compiles: string -> bool)
    requires forall i :: 0 <= i < |rs| ==> ValidRule(rs[i], compiles)
    ensures ParseLines(Lines(rs)) == Some(TrimAll(rs))
  {
    hide ParseLine, FormatLine, Trim, ValidRule;
    if rs != [] {
      var n := |rs| - 1;
      ParsePrinted(rs[..n], compiles);
      LineRoundTrip(rs[n], compiles);
      LineIsNotBlank(rs[n], compiles);
      assert Lines(rs)[..n] == Lines(rs[..n]);
      assert TrimAll(rs) == TrimAll(rs[..n]) + [rs[n].(pattern := Trim(rs[n].pattern))];
    }
  }

  lemma LineIsNotBlank(r: AdRule, compiles: string -> bool)
    requires ValidRule(r, compiles)
    ensures Trim(FormatLine(r)) != ""
  {
    hide Head, ActionLabel;
    ModeLabels(r);
    TrimIsTrimmed(FormatLine(r));
    assert FormatLine(r)[|Head(r)|] == '|';
    assert !Space('|');
  }

  /** A printed list is neither empty nor the word that clears the list. */
  lemma PrintedIsContent(rs: seq<AdRule>, compiles: string -> bool)
    requires rs != [] && ValidRule(rs[0], compiles)
    ensures Trim(Format(rs)) != "" && Trim(Format(rs)) != CLEAR
  {
    hide Head, ActionLabel, ValidRule;
    var t := Format(rs);
    assert Lines(rs)[0] == FormatLine(rs[0]);
    var h := |Head(rs[0])|;
    assert t[h] == '|' && !Space('|');
    TrimIsTrimmed(t);
    PipeSurvives(t, h);
    assert CLEAR[0] != '|' && CLEAR[1] != '|' && |CLEAR| == 2;
  }

  lemma PipeSurvives(t: string, h: nat)
    requires h < |t| && !Space(t[h])
    ensures t[h] in Trim(t)
  {
    var l := TrimLeft(t);
    assert h >= |t| - |l|;
    assert l[h - (|t| - |l|)] == t[h];
    var r := TrimRight(l);
    assert h - (|t| - |l|) < |r|;
    assert r[h - (|t| - |l|)] == t[h];
  }

  /** Parsing what was printed gives the list back exactly when no pattern has blanks at
      its ends: pipes in patterns, regular expressions and disabled rules included. */
  lemma PrintThenParse(rs: seq<AdRule>, compiles: string -> bool)
    requires Valid(rs, compiles)
    ensures Parse(Format(rs), compiles) == Ok(rs) <==> AllTrimmed(rs)
  {
    hide ParseLine, FormatLine, Trim, ValidRule, ParseLines, Trimmed, Split;
    if rs == [] {
      assert Format(rs) == "";
      TrimIsTrimmed("");
    } else {
      PrintedIsContent(rs, compiles);
      forall i | 0 <= i < |rs| ensures '\n' !in Lines(rs)[i] {
        LineFields(rs[i], compiles);
      }
      SplitJoin(Lines(rs));
      ParsePrinted(rs, compiles);
      forall i | 0 <= i < |rs| ensures TrimAll(rs)[i] == rs[i] <==> Trimmed(rs[i].pattern) {
        TrimIsTrimmed(rs[i].pattern);
      }
      if AllTrimmed(rs) {
        assert TrimAll(rs) == rs;
      }
    }
  }

  lemma {:induction false} ParsedIsTrimmed(lines: seq<string>)
    ensures ParseLines(lines).Some? ==> AllTrimmed(ParseLines(lines).value)
  {
    hide Trim, Trimmed;
    if lines != [] {
      ParsedIsTrimmed(lines[..|lines| - 1]);
      var p := Fields(lines[|lines| - 1]);
      if |p| == 3 {
        TrimIsTrimmed(p[2]);
      }
    }
  }

  /** The lists that some text parses to are exactly the valid ones with trimmed patterns. */
  lemma ParsedLists(rs: seq<AdRule>, compiles: string -> bool)
    ensures (exists text :: Parse(text, compiles) == Ok(rs)) <==> Valid(rs, compiles) && AllTrimmed(rs)
  {
    hide Split, ParseLines, ValidRule, Trim, Trimmed;
    if text :| Parse(text, compiles) == Ok(rs) {
      ParsedIsTrimmed(Split(text, '\n'));
    }
    if Valid(rs, compiles) && AllTrimmed(rs) {
      PrintThenParse(rs, compiles);
    }
  }

  /** Printing a parsed text is a normal form: it parses to the same rules, so parsing and
      printing it again changes nothing. */
  lemma NormalForm(text: string, compiles: string -> bool)
    requires Parse(text, compiles).Ok?
    ensures Parse(Format(Parse(text, compiles).rules), compiles) == Parse(text, compiles)
  {
    hide Parse, Format;
    var rs := Parse(text, compiles).rules;
    ParsedLists(rs, compiles);
    PrintThenParse(rs, compiles);
  }

  /** Every mode and action has its word, and a line of them with a pattern that fits, switched
      on or off, is accepted as that rule. */
  lemma LineIsAccepted(mode: Mode, action: Action, enabled: bool, pattern: string, compiles: string -> bool)
    requires action == Delete || action == Mute || action == Ban
    requires Trimmed(pattern) && pattern != "" && |pattern| <= 500 && '\r' !in pattern && '\n' !in pattern
    requires mode == Regex ==> compiles(pattern)
    ensures var word := match mode case Containing => "包含" case Exactly => "精确" case Regex => "正则";
      var consequence := if action == Delete then "删除" else if action == Mute then "禁言" else "封禁";
      Parse((if enabled then "" else "停用") + word + "|" + consequence + "|" + pattern, compiles)
        == Ok([AdRule(pattern, Some(mode), Some(action), enabled)])
  {
    hide Parse, Trim, Trimmed;
    var r := AdRule(pattern, Some(mode), Some(action), enabled);
    TrimIsTrimmed(pattern);
    PrintThenParse([r], compiles);
    assert Lines([r]) == [FormatLine(r)];
    assert Format([r]) == FormatLine(r);
    assert "" + ModeLabel(r.mode) == ModeLabel(r.mode);
  }
}
