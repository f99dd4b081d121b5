/** The welcome message: one pass over the template, cut at Telegram's length limit, with
    one link entity for the emitted part of each mention. Lengths and offsets count UTF-16
    units (section 2.1 of RFC 2781). */
module Welcome {
  import opened Text

  const LIMIT: nat := 3000

  /** utf16.RuneLen. */
  function Unit(c: char): nat {
    if c as int < 0x10000 then 1 else 2
  }

  function Units(s: string): nat {
    if s == "" then 0 else Units(s[..|s| - 1]) + Unit(s[|s| - 1])
  }

  datatype Fields = Fields(firstName: string, lastName: string, username: string, userId: int,
                           group: string, timeout: int, welcomeText: string, enabled: bool)

  datatype Entity = Entity(offset: nat, length: nat)

  // ---------------------------------------------------------------- template and values

  function Name(f: Fields): string {
    var name := Trim(f.firstName + " " + f.lastName);
    if name == "" then Decimal(f.userId) else name
  }

  function Username(f: Fields): string {
    if f.username != "" then "@" + f.username else Name(f)
  }

  const KEYS: seq<string> := ["{name}", "{username}", "{user_id}", "{group}", "{timeout}"]

  predicate IsKey(k: string) {
    k in KEYS
  }

  function Value(f: Fields, key: string): string {
    if key == "{name}" then Name(f)
    else if key == "{username}" then Username(f)
    else if key == "{user_id}" then Decimal(f.userId)
    else if key == "{group}" then f.group
    else if key == "{timeout}" then Decimal(f.timeout)
    else ""
  }

  predicate Mentions(key: string) {
    key == "{name}" || key == "{username}" || key == "{user_id}"
  }

  predicate Occurs(word: string, text: string) {
    exists i :: 0 <= i <= |text| && word <= text[i..]
  }

  const VERIFY_TEMPLATE: string := "{username}，请在 {timeout} 秒内点击下方验证按钮，进入私聊完成验证。验证期间暂时不能发言。"

  function Template(f: Fields, verify: bool): string {
    var t := if verify then VERIFY_TEMPLATE else Trim(f.welcomeText);
    if !Occurs("{name}", t) && !Occurs("{username}", t) && !Occurs("{user_id}", t) then "{username}，" + t else t
  }

  // ---------------------------------------------------------------- matching variables

  /** The variable that starts here, if any. */
  function KeyAt(t: string): (k: string)
    ensures k <= t && (k != "" ==> IsKey(k))
  {
    if KEYS[0] <= t then KEYS[0]
    else if KEYS[1] <= t then KEYS[1]
    else if KEYS[2] <= t then KEYS[2]
    else if KEYS[3] <= t then KEYS[3]
    else if KEYS[4] <= t then KEYS[4]
    else ""
  }

  /** The single-pass expansion: variables are replaced where they stand, and what replaces
      them is not looked at again. */
  function Expand(f: Fields, t: string): string
    decreases |t|
  {
    if t == "" then ""
    else if KeyAt(t) != "" then Value(f, KeyAt(t)) + Expand(f, t[|KeyAt(t)|..])
    else [t[0]] + Expand(f, t[1..])
  }

  /** Keys start with the only brace they open. */
  lemma KeyShape(k: string, i: nat)
    requires IsKey(k) && i < |k|
    ensures k[i] == '{' <==> i == 0
  {
    var j :| 0 <= j < |KEYS| && KEYS[j] == k;
    assert |KEYS[0]| == 6 && |KEYS[1]| == 10 && |KEYS[2]| == 9 && |KEYS[3]| == 7 && |KEYS[4]| == 9;
  }

  /** A variable cannot straddle the start of another one. */
  lemma KeyAtStays(a: string, b: string)
    requires a != "" && b != "" && b[0] == '{'
    ensures KeyAt(a + b) == KeyAt(a)
  {
    hide IsKey;
    forall k: string | IsKey(k) ensures k <= a + b <==> k <= a {
      if |k| > |a| {
        KeyShape(k, |a|);
        assert (a + b)[|a|] == b[0];
      } else {
        assert (a + b)[..|k|] == a[..|k|];
      }
    }
    assert forall j :: 0 <= j < |KEYS| ==> IsKey(KEYS[j]) by {
      EachIsKey();
    }
  }

  lemma EachIsKey()
    ensures forall j :: 0 <= j < |KEYS| ==> IsKey(KEYS[j])
  {
  }

  /** Every occurrence of a variable is replaced by its value, verbatim, whatever stands
      around it and whatever the value contains. */
  lemma {:induction false} ValuesAreVerbatim(f: Fields, a: string, key: string, b: string)
    requires IsKey(key)
    ensures Expand(f, a + key + b) == Expand(f, a) + Value(f, key) + Expand(f, b)
    decreases |a|
  {
    hide KeyAt, Value, IsKey;
    KeyLength(key);
    KeyShape(key, 0);
    if a == "" {
      assert a + key + b == key + b;
      KeyAtKey(key, b);
      assert (key + b)[|key|..] == b;
    } else {
      KeyAtStays(a, key + b);
      assert a + key + b == a + (key + b);
      var n := if KeyAt(a) == "" then 1 else |KeyAt(a)|;
      assert (a + key + b)[n..] == a[n..] + key + b;
      ValuesAreVerbatim(f, a[n..], key, b);
    }
  }

  /** What each variable stands for. */
  lemma VariablesStandFor(f: Fields)
    ensures Value(f, "{name}") == (if Trim(f.firstName + " " + f.lastName) == "" then Decimal(f.userId)
                                   else Trim(f.firstName + " " + f.lastName))
    ensures Value(f, "{username}") == if f.username == "" then Value(f, "{name}") else "@" + f.username
    ensures Value(f, "{user_id}") == Decimal(f.userId)
    ensures Value(f, "{group}") == f.group
    ensures Value(f, "{timeout}") == Decimal(f.timeout)
  {
    assert "{name}"[1] == 'n' && "{group}"[1] == 'g' && "{timeout}"[1] == 't' && "{username}"[4] == 'r' && "{user_id}"[5] == '_';
    assert |"{username}"| == 10 && |"{user_id}"| == 9 && |"{timeout}"| == 9 && |"{name}"| == 6 && |"{group}"| == 7;
  }

  lemma KeyLength(key: string)
    requires IsKey(key)
    ensures |key| > 0
  {
  }

  lemma KeyAtKey(key: string, b: string)
    requires IsKey(key)
    ensures KeyAt(key + b) == key
  {
    var j :| 0 <= j < |KEYS| && KEYS[j] == key;
    assert |KEYS[0]| == 6 && |KEYS[1]| == 10 && |KEYS[2]| == 9 && |KEYS[3]| == 7 && |KEYS[4]| == 9;
    forall k | IsKey(k) && k <= key + b ensures k == key {
      var i :| 0 <= i < |KEYS| && KEYS[i] == k;
      assert k[1] == key[1] && k[2] == key[2] && k[5] == key[5];
    }
    assert key <= key + b;
    EachIsKey();
  }

  // ---------------------------------------------------------------- pieces

  datatype Piece = Piece(text: string, mention: bool)

  /** FindAllStringIndex: the leftmost matches, in order. */
  function Spans(t: string, from: nat): (r: seq<(nat, nat)>)
    requires from <= |t|
    ensures forall i :: 0 <= i < |r| ==> from <= r[i].0 < r[i].1 <= |t|
    decreases |t| - from
  {
    if from == |t| then []
    else
      var k := |KeyAt(t[from..])|;
      if k > 0 then [(from, from + k)] + Spans(t, from + k) else Spans(t, from + 1)
  }

  /** The template from `pos` on, cut at these matches. */
  function Pieces(f: Fields, t: string, pos: nat, spans: seq<(nat, nat)>): seq<Piece>
    requires pos <= |t| && forall i :: 0 <= i < |spans| ==> spans[i].0 < spans[i].1 <= |t|
    decreases |spans|
  {
    if spans == [] then [Piece(t[pos..], false)]
    else
      var (a, b) := spans[0];
      var key := t[a..b];
      [Piece(if pos <= a then t[pos..a] else "", false), Piece(Value(f, key), Mentions(key))]
      + Pieces(f, t, b, spans[1..])
  }

  function Flat(ps: seq<Piece>): string {
    if ps == [] then "" else Flat(ps[..|ps| - 1]) + ps[|ps| - 1].text
  }

  lemma {:induction false} FlatConcat(ps: seq<Piece>, qs: seq<Piece>)
    ensures Flat(ps + qs) == Flat(ps) + Flat(qs)
  {
    if qs == [] {
      assert ps + qs == ps;
    } else {
      assert (ps + qs)[..|ps + qs| - 1] == ps + qs[..|qs| - 1];
      FlatConcat(ps, qs[..|qs| - 1]);
    }
  }

  /** A match and the text before it. */
  lemma OneMatch(f: Fields, t: string, pos: nat, a: nat, b: nat, spans: seq<(nat, nat)>)
    requires pos <= a < b <= |t| && forall i :: 0 <= i < |spans| ==> spans[i].0 < spans[i].1 <= |t|
    ensures Flat(Pieces(f, t, pos, [(a, b)] + spans)) == t[pos..a] + Value(f, t[a..b]) + Flat(Pieces(f, t, b, spans))
  {
    hide Value, Mentions;
    var two := [Piece(t[pos..a], false), Piece(Value(f, t[a..b]), Mentions(t[a..b]))];
    assert ([(a, b)] + spans)[1..] == spans;
    FlatConcat(two, Pieces(f, t, b, spans));
    assert two[..1] == [two[0]] && [two[0]][..0] == [];
    assert Flat([two[0]]) == t[pos..a];
  }

  /** Cutting the template at its matches is the single-pass expansion. */
  lemma {:induction false} PiecesExpand(f: Fields, t: string, pos: nat, from: nat)
    requires pos <= from <= |t|
    ensures Flat(Pieces(f, t, pos, Spans(t, from))) == t[pos..from] + Expand(f, t[from..])
    decreases |t| - from
  {
    hide KeyAt, Value, Mentions, IsKey, Pieces, Flat;
    if from == |t| {
      LastPiece(f, t, pos);
    } else {
      var rest := t[from..];
      var k := |KeyAt(rest)|;
      if k > 0 {
        PiecesExpand(f, t, from + k, from + k);
        OneMatch(f, t, pos, from, from + k, Spans(t, from + k));
        assert t[from..from + k] == KeyAt(rest);
        assert rest[k..] == t[from + k..];
      } else {
        PiecesExpand(f, t, pos, from + 1);
        assert t[pos..from + 1] == t[pos..from] + [rest[0]];
        assert rest[1..] == t[from + 1..];
      }
    }
  }

  lemma LastPiece(f: Fields, t: string, pos: nat)
    requires pos <= |t|
    ensures Flat(Pieces(f, t, pos, [])) == t[pos..]
    ensures Pieces(f, t, pos, []) == [Piece(t[pos..], false)]
  {
    assert [Piece(t[pos..], false)][..0] == [];
  }

  // ---------------------------------------------------------------- the length limit

  lemma {:induction false} UnitsConcat(a: string, b: string)
    ensures Units(a + b) == Units(a) + Units(b)
  {
    if b == "" {
      assert a + b == a;
    } else {
      assert (a + b)[..|a + b| - 1] == a + b[..|b| - 1];
      UnitsConcat(a, b[..|b| - 1]);
    }
  }

  lemma UnitsPositive(s: string)
    ensures Units(s) > 0 <==> s != ""
  {
  }

  /** The part of a text that is sent. */
  function Cut(s: string): string {
    if s == "" then ""
    else
      var p := Cut(s[..|s| - 1]);
      if p == s[..|s| - 1] && Units(s) <= LIMIT then s else p
  }

  /** The longest prefix within the limit; a code point of two units is never split. */
  lemma {:induction false} CutIsLongest(s: string)
    ensures Cut(s) <= s && Units(Cut(s)) <= LIMIT
    ensures forall n :: |Cut(s)| < n <= |s| ==> Units(s[..n]) > LIMIT
  {
    if s != "" {
      var pre := s[..|s| - 1];
      CutIsLongest(pre);
      forall n | |Cut(s)| < n <= |s| ensures Units(s[..n]) > LIMIT {
        if n < |s| {
          assert s[..n] == pre[..n];
        } else {
          assert s[..n] == s;
          if Cut(pre) != pre {
            assert pre[..|pre|] == pre;
          }
        }
      }
    }
  }

  /** Sending one more code point. */
  lemma CutNext(s: string, c: char)
    requires Cut(s) == s
    ensures Units(s + [c]) == Units(s) + Unit(c)
    ensures Cut(s + [c]) == if Units(s) + Unit(c) <= LIMIT then s + [c] else s
  {
    assert (s + [c])[..|s|] == s;
  }

  lemma {:induction false} CutStops(s: string, t: string)
    requires Cut(s) != s
    ensures Cut(s + t) == Cut(s)
  {
    if t == "" {
      assert s + t == s;
    } else {
      var pre := s + t[..|t| - 1];
      assert (s + t)[..|s + t| - 1] == pre;
      CutStops(s, t[..|t| - 1]);
      CutIsLongest(s);
      assert |Cut(s)| < |s|;
    }
  }

  /** Sending more never changes what has been sent. */
  lemma {:induction false} CutGrows(s: string, t: string)
    ensures Cut(s) <= Cut(s + t)
  {
    if t == "" {
      assert s + t == s;
    } else {
      assert (s + t)[..|s + t| - 1] == s + t[..|t| - 1];
      CutGrows(s, t[..|t| - 1]);
      CutIsLongest(s + t[..|t| - 1]);
    }
  }

  // ---------------------------------------------------------------- entities

  /** One entity for each mention of which something is sent. */
  function EntitiesOf(ps: seq<Piece>): seq<Entity> {
    if ps == [] then []
    else
      var pre := ps[..|ps| - 1];
      var (start, end) := (Units(Cut(Flat(pre))), Units(Cut(Flat(ps))));
      EntitiesOf(pre) + if ps[|ps| - 1].mention && end > start then [Entity(start, end - start)] else []
  }

  lemma FlatGrows(ps: seq<Piece>)
    requires ps != []
    ensures Cut(Flat(ps[..|ps| - 1])) <= Cut(Flat(ps))
    ensures Units(Cut(Flat(ps[..|ps| - 1]))) <= Units(Cut(Flat(ps)))
  {
    var (a, b) := (Cut(Flat(ps[..|ps| - 1])), Cut(Flat(ps)));
    CutGrows(Flat(ps[..|ps| - 1]), ps[|ps| - 1].text);
    UnitsConcat(a, b[|a|..]);
    assert b == a + b[|a|..];
  }

  /** Entities are non-empty, ascending, disjoint and inside the sent text. */
  lemma {:induction false} EntitiesAreOrdered(ps: seq<Piece>)
    ensures forall k :: 0 <= k < |EntitiesOf(ps)| ==>
      EntitiesOf(ps)[k].length > 0 && EntitiesOf(ps)[k].offset + EntitiesOf(ps)[k].length <= Units(Cut(Flat(ps)))
    ensures forall k, l :: 0 <= k < l < |EntitiesOf(ps)| ==>
      EntitiesOf(ps)[k].offset + EntitiesOf(ps)[k].length <= EntitiesOf(ps)[l].offset
  {
    if ps != [] {
      EntitiesAreOrdered(ps[..|ps| - 1]);
      FlatGrows(ps);
    }
  }

  /** What is sent of piece j: the text between these positions. */
  function Sent(ps: seq<Piece>, j: nat): (r: (nat, nat))
    requires j < |ps|
  {
    (|Cut(Flat(ps[..j]))|, |Cut(Flat(ps[..j + 1]))|)
  }

  lemma {:induction false} SentSoFar(ps: seq<Piece>, j: nat)
    requires j <= |ps|
    ensures Cut(Flat(ps[..j])) <= Cut(Flat(ps))
    decreases |ps|
  {
    if j == |ps| {
      assert ps[..j] == ps;
    } else {
      var pre := ps[..|ps| - 1];
      assert pre[..j] == ps[..j];
      SentSoFar(pre, j);
      FlatGrows(ps);
    }
  }

  function Rest(ps: seq<Piece>, j: nat): string
    requires j <= |ps|
  {
    Flat(ps[j..])
  }

  lemma RestOfFlat(ps: seq<Piece>, j: nat)
    requires j <= |ps|
    ensures Flat(ps) == Flat(ps[..j]) + Rest(ps, j)
  {
    assert ps == ps[..j] + ps[j..];
    FlatConcat(ps[..j], ps[j..]);
  }

  /** A piece that begins after the cut: nothing of it is sent. */
  lemma SentAfterCut(ps: seq<Piece>, j: nat)
    requires j < |ps| && Cut(Flat(ps[..j])) != Flat(ps[..j])
    ensures var (a, b) := Sent(ps, j); a == b == |Cut(Flat(ps))|
  {
    hide Cut, Flat;
    FlatOneMore(ps, j);
    CutStops(Flat(ps[..j]), ps[j].text);
    RestOfFlat(ps, j);
    CutStops(Flat(ps[..j]), Rest(ps, j));
  }

  lemma FlatOneMore(ps: seq<Piece>, j: nat)
    requires j < |ps|
    ensures Flat(ps[..j + 1]) == Flat(ps[..j]) + ps[j].text
  {
    assert ps[..j + 1][..j] == ps[..j];
  }

  /** A piece that begins before the cut. */
  lemma SentBeforeCut(ps: seq<Piece>, j: nat)
    requires j < |ps| && Cut(Flat(ps[..j])) == Flat(ps[..j])
    ensures var (a, b) := Sent(ps, j);
      a <= b <= |Cut(Flat(ps))| && Cut(Flat(ps))[a..b] <= ps[j].text
      && (b < |Cut(Flat(ps))| ==> Cut(Flat(ps))[a..b] == ps[j].text)
  {
    hide Cut, Flat;
    var (whole, upTo, before) := (Cut(Flat(ps)), Flat(ps[..j + 1]), Flat(ps[..j]));
    FlatOneMore(ps, j);
    CutGrows(before, ps[j].text);
    CutIsLongest(upTo);
    RestOfFlat(ps, j + 1);
    CutGrows(upTo, Rest(ps, j + 1));
    var (a, b) := Sent(ps, j);
    assert whole[..b] == upTo[..b];
    assert whole[a..b] == whole[..b][a..] == upTo[..b][a..] == ps[j].text[..b - a];
    if Cut(upTo) != upTo {
      CutStops(upTo, Rest(ps, j + 1));
    }
  }

  /** The sent part of a piece is a prefix of its text, and all of it unless the limit cut it. */
  lemma SentIsPrefix(ps: seq<Piece>, j: nat)
    requires j < |ps|
    ensures var (a, b) := Sent(ps, j);
      a <= b <= |Cut(Flat(ps))| && Cut(Flat(ps))[a..b] <= ps[j].text
      && (b < |Cut(Flat(ps))| ==> Cut(Flat(ps))[a..b] == ps[j].text)
  {
    hide Cut, Flat;
    if Cut(Flat(ps[..j])) != Flat(ps[..j]) {
      SentAfterCut(ps, j);
    } else {
      SentBeforeCut(ps, j);
    }
  }

  /** The entities are exactly the sent parts of the mentions. */
  lemma {:induction false} EntitiesCoverMentions(ps: seq<Piece>, e: Entity)
    ensures e in EntitiesOf(ps) <==>
            exists j :: 0 <= j < |ps| && ps[j].mention && Sent(ps, j).0 < Sent(ps, j).1
                        && e == Covering(ps, j)
  {
    hide Cut, Flat, Units;
    if ps != [] {
      var n := |ps| - 1;
      var pre := ps[..n];
      EntitiesCoverMentions(pre, e);
      assert ps[..n + 1] == ps;
      forall j | 0 <= j < n ensures Sent(pre, j) == Sent(ps, j) && Covering(pre, j) == Covering(ps, j) {
        assert pre[..j] == ps[..j] && pre[..j + 1] == ps[..j + 1];
      }
      LastEntity(ps);
    }
  }

  /** The entity over the sent part of piece j. */
  function Covering(ps: seq<Piece>, j: nat): Entity
    requires j < |ps|
  {
    var (start, end) := (Units(Cut(Flat(ps[..j]))), Units(Cut(Flat(ps[..j + 1]))));
    Entity(start, if end > start then end - start else 0)
  }

  lemma LastEntity(ps: seq<Piece>)
    requires ps != []
    ensures Sent(ps, |ps| - 1).0 < Sent(ps, |ps| - 1).1 <==> Units(Cut(Flat(ps[..|ps| - 1]))) < Units(Cut(Flat(ps)))
  {
    hide Cut, Flat, Units;
    var (a, b) := (Cut(Flat(ps[..|ps| - 1])), Cut(Flat(ps)));
    assert ps[..|ps| - 1 + 1] == ps;
    FlatGrows(ps);
    assert b == a + b[|a|..];
    UnitsConcat(a, b[|a|..]);
    UnitsPositive(b[|a|..]);
  }

  // ---------------------------------------------------------------- rendering

  /** The variables that the closure appendText shares with welcomeMessage. */
  class Renderer {
    var out: string
    var offset: nat
    var exhausted: bool
    var entities: seq<Entity>
    ghost var pieces: seq<Piece>

    ghost predicate Valid()
      reads this
    {
      && out == Cut(Flat(pieces)) && offset == Units(out)
      && (exhausted <==> out != Flat(pieces)) && entities == EntitiesOf(pieces)
    }

    constructor ()
      ensures Valid() && pieces == []
    {
      out, offset, exhausted, entities, pieces := "", 0, false, [], [];
    }

    method AppendText(text: string, mention: bool)
      requires Valid()
      modifies this
      ensures Valid() && pieces == old(pieces) + [Piece(text, mention)]
    {
      hide Cut, Flat, Units, EntitiesOf;
      ghost var before := Flat(pieces);
      ghost var ps := pieces + [Piece(text, mention)];
      Appended(pieces, Piece(text, mention));
      if exhausted {
        CutStops(before, text);
        CutIsLongest(before);
        pieces := ps;
        return;
      }
      var start := offset;
      var i := 0;
      ghost var sent := before;
      assert before + text[..0] == before;
      while i < |text| && !exhausted
        invariant i <= |text| && entities == EntitiesOf(pieces) && pieces == old(pieces)
        invariant sent == before + text[..i] && offset == Units(out)
        decreases |text| - i + if exhausted then 0 else 1
        invariant if exhausted then out == Cut(before + text) != before + text else out == sent == Cut(sent)
      {
        var n := Unit(text[i]);
        CutNext(sent, text[i]);
        assert before + text[..i + 1] == sent + [text[i]];
        if offset + n > LIMIT {
          exhausted := true;
          CutStops(sent + [text[i]], text[i + 1..]);
          CutIsLongest(sent);
          assert sent + [text[i]] + text[i + 1..] == before + text;
        } else {
          out := out + [text[i]];
          offset := offset + n;
          i := i + 1;
          sent := sent + [text[i - 1]];
        }
      }
      assert text[..|text|] == text;
      FlatGrows(ps);
      pieces := ps;
      if mention && offset > start {
        entities := entities + [Entity(start, offset - start)];
      }
    }
  }

  lemma Appended(ps: seq<Piece>, p: Piece)
    ensures Flat(ps + [p]) == Flat(ps) + p.text && (ps + [p])[..|ps|] == ps
    ensures EntitiesOf(ps + [p]) == EntitiesOf(ps)
      + (var (start, end) := (Units(Cut(Flat(ps))), Units(Cut(Flat(ps + [p]))));
         if p.mention && end > start then [Entity(start, end - start)] else [])
  {
    assert (ps + [p])[..|ps|] == ps;
  }

  /** One turn of the loop over the matches. */
  lemma NextPieces(f: Fields, t: string, pos: nat, spans: seq<(nat, nat)>, done: seq<Piece>)
    requires spans != [] && pos <= spans[0].0 && pos <= |t|
    requires forall i :: 0 <= i < |spans| ==> spans[i].0 < spans[i].1 <= |t|
    ensures var (a, b) := spans[0];
      done + Pieces(f, t, pos, spans)
        == done + [Piece(t[pos..a], false)] + [Piece(Value(f, t[a..b]), Mentions(t[a..b]))] + Pieces(f, t, b, spans[1..])
  {
  }

  method WelcomeMessage(f: Fields, verify: bool) returns (text: string, entities: seq<Entity>)
    ensures !verify && !f.enabled ==> text == "" && entities == []
    ensures verify || f.enabled ==>
      text == Cut(Expand(f, Template(f, verify)))
      && entities == EntitiesOf(Pieces(f, Template(f, verify), 0, Spans(Template(f, verify), 0)))
  {
    hide *;
    if !verify && !f.enabled {
      return "", [];
    }
    var template := Template(f, verify);
    var spans := Spans(template, 0);
    var renderer := new Renderer();
    var pos, k := 0, 0;
    ghost var all := Pieces(f, template, 0, spans);
    assert spans[0..] == spans;
    while k < |spans|
      invariant k <= |spans| && pos <= |template|
      invariant k < |spans| ==> pos <= spans[k].0
      invariant renderer.Valid() && fresh(renderer)
      invariant renderer.pieces + Pieces(f, template, pos, spans[k..]) == all
    {
      var (a, b) := spans[k];
      var key := template[a..b];
      assert spans[k..][0] == spans[k] && spans[k..][1..] == spans[k + 1..];
      NextPieces(f, template, pos, spans[k..], renderer.pieces);
      SpansAscend(template, 0, k);
      renderer.AppendText(template[pos..a], false);
      renderer.AppendText(Value(f, key), Mentions(key));
      pos := b;
      k := k + 1;
    }
    renderer.AppendText(template[pos..], false);
    assert spans[k..] == [];
    LastPiece(f, template, pos);
    PiecesExpand(f, template, 0, 0);
    assert template[0..0] + Expand(f, template[0..]) == Expand(f, template);
    text, entities := renderer.out, renderer.entities;
    Rendered(renderer);
  }

  lemma Rendered(r: Renderer)
    requires r.Valid()
    ensures r.out == Cut(Flat(r.pieces)) && r.entities == EntitiesOf(r.pieces)
  {
  }

  lemma {:induction false} SpansAscend(t: string, from: nat, k: nat)
    requires from <= |t| && k < |Spans(t, from)|
    ensures k + 1 < |Spans(t, from)| ==> Spans(t, from)[k].1 <= Spans(t, from)[k + 1].0
    decreases |t| - from
  {
    hide KeyAt;
    if from < |t| {
      var n := |KeyAt(t[from..])|;
      if n == 0 {
        SpansAscend(t, from + 1, k);
      } else if k > 0 {
        SpansAscend(t, from + n, k - 1);
      }
    }
  }
}
