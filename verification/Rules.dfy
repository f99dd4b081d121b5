/** Rule evaluation: a message and its quoted contexts are scored part by part in
    source order; the result is proved to depend only on the set of matched rules. */
module Rules {
  import opened Domain

  // ---------------------------------------------------------------- settings

  /** Names in the order they are tried. Presets are the built-in rules with a pattern. */
  datatype RuleName =
    | Preset(i: nat)
    | Url | TelegramLink | Contact | Mention | Advertising | Gambling | Porn | Crypto
    | ManyLinks | Caps | Emoji
    | NewMember | FirstLink | FirstContact
    | AdRule(i: nat)

  datatype RuleSetting = RuleSetting(enabled: bool, score: int, action: Option<Action>)

  datatype Mode = Containing | Exactly | Regex

  datatype LocalRule = LocalRule(pattern: string, mode: Mode, action: Option<Action>, enabled: bool)

  datatype Settings = Settings(rules: map<RuleName, RuleSetting>, adRules: seq<LocalRule>, newMemberProtection: bool)

  /** The built-in rules with a pattern, the cleaning of text and the regular expressions
      are parameters. */
  datatype Catalog = Catalog(presets: seq<RuleSetting>, clean: string -> string, regex: (string, string) -> bool)

  /** A normalized part of a message; the fields after `text` are what the detectors find. */
  datatype Part = Part(text: string, presetHits: set<nat>, urls: nat, telegram: bool, contact: bool,
                       mentions: nat, mentionWord: bool, adWord: bool, gamblingWord: bool, pornWord: bool,
                       walletOrCoin: bool, mostlyUpper: bool, emoji: nat)

  datatype Sender = Sender(isNew: bool, first: bool)

  predicate ValidAction(a: Option<Action>) {
    a == None || a == Some(Delete) || a == Some(Mute) || a == Some(Ban)
  }

  predicate BuiltinName(n: RuleName) {
    !n.NewMember? && !n.FirstLink? && !n.FirstContact? && !n.AdRule?
  }

  predicate ValidSetting(o: RuleSetting) {
    0 <= o.score <= 100 && ValidAction(o.action)
  }

  /** Settings.Validate, as far as rules go, and the shape of the built-in table. */
  predicate Valid(c: Catalog, s: Settings) {
    && (forall n | n in s.rules :: BuiltinName(n) && ValidSetting(s.rules[n]))
    && (forall i | 0 <= i < |s.adRules| :: s.adRules[i].action.Some? && ValidAction(s.adRules[i].action))
    && (forall i | 0 <= i < |c.presets| :: ValidSetting(c.presets[i]) && c.presets[i].enabled)
  }

  // ---------------------------------------------------------------- strength of actions

  function Rank(a: Option<Action>): nat {
    match a
    case Some(Delete) => 1
    case Some(Mute) => 2
    case Some(Ban) => 3
    case _ => 0
  }

  function Stronger(a: Option<Action>, b: Option<Action>): Option<Action> {
    if Rank(b) > Rank(a) then b else a
  }

  // ---------------------------------------------------------------- one rule at a time

  function BuiltinScore(c: Catalog, n: RuleName): int {
    match n
    case Preset(i) => if i < |c.presets| then c.presets[i].score else 0
    case Url => 20
    case TelegramLink => 40
    case Contact => 25
    case Mention => 20
    case Advertising => 25
    case Gambling => 35
    case Porn => 35
    case Crypto => 20
    case ManyLinks => 25
    case Caps => 15
    case Emoji => 15
    case _ => 0
  }

  /** FindBuiltinRule: the plain detectors carry no action of their own. */
  function Builtin(c: Catalog, n: RuleName): RuleSetting {
    if n.Preset? && n.i < |c.presets| then c.presets[n.i] else RuleSetting(true, BuiltinScore(c, n), None)
  }

  function EffectiveRule(c: Catalog, s: Settings, n: RuleName): RuleSetting {
    if n in s.rules then s.rules[n] else Builtin(c, n)
  }

  predicate Detected(c: Catalog, p: Part, n: RuleName) {
    match n
    case Preset(i) => i < |c.presets| && i in p.presetHits
    case Url => p.urls > 0
    case TelegramLink => p.telegram
    case Contact => p.contact
    case Mention => p.mentions > 0 && p.mentionWord
    case Advertising => p.adWord
    case Gambling => p.gamblingWord
    case Porn => p.pornWord
    case Crypto => p.adWord && p.walletOrCoin
    case ManyLinks => p.urls >= 3
    case Caps => p.mostlyUpper
    case Emoji => p.emoji >= 15
    case _ => false
  }

  predicate Occurs(word: string, text: string) {
    exists i :: 0 <= i <= |text| && word <= text[i..]
  }

  predicate LocalHit(c: Catalog, r: LocalRule, text: string) {
    r.enabled && match r.mode
      case Containing => c.clean(r.pattern) != "" && Occurs(c.clean(r.pattern), text)
      case Exactly => c.clean(r.pattern) != "" && text == c.clean(r.pattern)
      case Regex => c.regex(r.pattern, text)
  }

  // ---------------------------------------------------------------- the order-free specification

  /** A built-in rule that is switched on and found in the part. */
  predicate Fires(c: Catalog, s: Settings, p: Part, n: RuleName) {
    Detected(c, p, n) && EffectiveRule(c, s, n).enabled
  }

  /** Some evidence of its own: the bonuses for new members never stand alone. */
  ghost predicate Suspicious(c: Catalog, s: Settings, p: Part) {
    exists n :: Fires(c, s, p, n) && EffectiveRule(c, s, n).score > 0
  }

  ghost predicate Matches(c: Catalog, s: Settings, from: Sender, p: Part, n: RuleName) {
    match n
    case NewMember => s.newMemberProtection && from.isNew && Suspicious(c, s, p)
    case FirstLink => s.newMemberProtection && from.first && p.urls > 0 && Suspicious(c, s, p)
    case FirstContact => s.newMemberProtection && from.first && p.contact && Suspicious(c, s, p)
    case AdRule(i) => i < |s.adRules| && LocalHit(c, s.adRules[i], p.text)
    case _ => Fires(c, s, p, n)
  }

  function Weight(c: Catalog, s: Settings, n: RuleName): int {
    match n
    case NewMember => 10
    case FirstLink => 30
    case FirstContact => 30
    case AdRule(_) => 100
    case _ => EffectiveRule(c, s, n).score
  }

  function ActionOf(c: Catalog, s: Settings, n: RuleName): Option<Action> {
    match n
    case NewMember => None
    case FirstLink => None
    case FirstContact => None
    case AdRule(i) => if i < |s.adRules| then s.adRules[i].action else None
    case _ => EffectiveRule(c, s, n).action
  }

  ghost function Total(c: Catalog, s: Settings, names: set<RuleName>): int {
    if names == {} then 0
    else
      var n :| n in names;
      Weight(c, s, n) + Total(c, s, names - {n})
  }

  /** a is the strongest action of the rules in `names`, if any has one. */
  ghost predicate Strongest(c: Catalog, s: Settings, names: set<RuleName>, a: Option<Action>) {
    && (forall n :: n in names ==> Rank(ActionOf(c, s, n)) <= Rank(a))
    && (a == None || exists n :: n in names && ActionOf(c, s, n) == a)
  }

  lemma {:induction false} TotalTakes(c: Catalog, s: Settings, names: set<RuleName>, n: RuleName)
    requires n in names
    ensures Total(c, s, names) == Weight(c, s, n) + Total(c, s, names - {n})
    decreases names
  {
    var m :| m in names && Total(c, s, names) == Weight(c, s, m) + Total(c, s, names - {m});
    if m != n {
      TotalTakes(c, s, names - {m}, n);
      TotalTakes(c, s, names - {n}, m);
      assert names - {m} - {n} == names - {n} - {m};
    }
  }

  lemma TotalAdds(c: Catalog, s: Settings, names: set<RuleName>, n: RuleName)
    requires n !in names
    ensures Total(c, s, names + {n}) == Total(c, s, names) + Weight(c, s, n)
  {
    TotalTakes(c, s, names + {n}, n);
    assert names + {n} - {n} == names;
  }

  lemma {:induction false} TotalGrows(c: Catalog, s: Settings, names: set<RuleName>, more: set<RuleName>)
    requires Valid(c, s) && names <= more
    ensures 0 <= Total(c, s, names) <= Total(c, s, more)
    decreases |more|
  {
    if more != {} {
      var n :| n in more;
      WeightIsNatural(c, s, n);
      TotalTakes(c, s, more, n);
      TotalGrows(c, s, names - {n}, more - {n});
      if n in names {
        TotalTakes(c, s, names, n);
      } else {
        assert names - {n} == names;
      }
    }
  }

  lemma WeightIsNatural(c: Catalog, s: Settings, n: RuleName)
    requires Valid(c, s)
    ensures Weight(c, s, n) >= 0
  {
  }

  // ---------------------------------------------------------------- evaluatePart

  /** `part` is 0 for the message itself and counts its contexts from 1. */
  datatype Match = Match(rule: RuleName, score: int, part: nat)

  datatype Risk = Risk(localAction: Option<Action>, score: int, matches: seq<Match>)

  ghost function Names(ms: seq<Match>): set<RuleName> {
    set m | m in ms :: m.rule
  }

  /** Each rule once, with its weight. */
  ghost predicate Listed(c: Catalog, s: Settings, ms: seq<Match>) {
    && (forall i, j :: 0 <= i < j < |ms| ==> ms[i].rule != ms[j].rule)
    && (forall i :: 0 <= i < |ms| ==> ms[i].score == Weight(c, s, ms[i].rule))
  }

  ghost predicate Sound(c: Catalog, s: Settings, r: Risk) {
    Listed(c, s, r.matches) && Strongest(c, s, Names(r.matches), r.localAction)
  }

  lemma NamesAdd(ms: seq<Match>, m: Match)
    ensures Names(ms + [m]) == Names(ms) + {m.rule}
  {
    var ms' := ms + [m];
    forall n | n in Names(ms) + {m.rule} ensures n in Names(ms') {
      if n == m.rule {
        assert ms'[|ms|] == m;
      } else {
        var x :| x in ms && x.rule == n;
        assert x in ms';
      }
    }
  }

  lemma NamesOf(ms: seq<Match>, ns: seq<Match>)
    ensures Names(ns[..0]) == {}
    ensures forall m :: m in ms ==> m.rule in Names(ms)
    ensures forall m :: m in ns ==> m.rule in Names(ns)
  {
  }

  lemma ListedAdds(c: Catalog, s: Settings, ms: seq<Match>, m: Match)
    requires Listed(c, s, ms) && m.rule !in Names(ms) && m.score == Weight(c, s, m.rule)
    ensures Listed(c, s, ms + [m]) && Names(ms + [m]) == Names(ms) + {m.rule}
    ensures Total(c, s, Names(ms + [m])) == Total(c, s, Names(ms)) + m.score
  {
    NamesAdd(ms, m);
    forall i | 0 <= i < |ms| ensures ms[i].rule != m.rule {
      assert ms[i] in ms;
    }
    TotalAdds(c, s, Names(ms), m.rule);
  }

  lemma StrongestOfUnion(c: Catalog, s: Settings, a: set<RuleName>, b: set<RuleName>, x: Option<Action>, y: Option<Action>)
    requires Strongest(c, s, a, x) && Strongest(c, s, b, y)
    ensures Strongest(c, s, a + b, Stronger(x, y))
  {
  }

  lemma Extended(c: Catalog, s: Settings, r: Risk, m: Match)
    requires Sound(c, s, r) && m.rule !in Names(r.matches) && m.score == Weight(c, s, m.rule)
    requires ValidAction(ActionOf(c, s, m.rule))
    ensures var r' := Risk(Stronger(r.localAction, ActionOf(c, s, m.rule)), r.score + m.score, r.matches + [m]);
      Sound(c, s, r') && Names(r'.matches) == Names(r.matches) + {m.rule}
      && Total(c, s, Names(r'.matches)) == Total(c, s, Names(r.matches)) + m.score
  {
    ListedAdds(c, s, r.matches, m);
    StrongestOfUnion(c, s, Names(r.matches), {m.rule}, r.localAction, ActionOf(c, s, m.rule));
  }

  method Empty(c: Catalog, s: Settings) returns (r: Risk)
    ensures r == Risk(None, 0, []) && Sound(c, s, r) && Names(r.matches) == {} && Total(c, s, {}) == 0
  {
    r := Risk(None, 0, []);
  }

  /** The position of a built-in rule in evaluatePart. */
  function Order(c: Catalog, n: RuleName): nat {
    match n
    case Preset(i) => i
    case Url => |c.presets|
    case TelegramLink => |c.presets| + 1
    case Contact => |c.presets| + 2
    case Mention => |c.presets| + 3
    case Advertising => |c.presets| + 4
    case Gambling => |c.presets| + 5
    case Porn => |c.presets| + 6
    case Crypto => |c.presets| + 7
    case ManyLinks => |c.presets| + 8
    case Caps => |c.presets| + 9
    case Emoji => |c.presets| + 10
    case _ => |c.presets| + 11
  }

  /** The rules before position k have been tried. */
  ghost predicate Tried(c: Catalog, s: Settings, p: Part, k: nat, r: Risk) {
    && Sound(c, s, r) && r.score == Total(c, s, Names(r.matches))
    && (forall n :: n in Names(r.matches) <==> Fires(c, s, p, n) && Order(c, n) < k)
    && (forall m :: m in r.matches ==> m.part == 0)
  }

  /** The closure `add` of evaluatePart: the score written at the call is the one of the
      built-in table. */
  method Add(c: Catalog, s: Settings, p: Part, r: Risk, n: RuleName, found: bool, builtin: int) returns (r': Risk)
    requires Valid(c, s) && Tried(c, s, p, Order(c, n), r)
    requires BuiltinName(n) && (n.Preset? ==> n.i < |c.presets|)
    requires builtin == Builtin(c, n).score && found == Detected(c, p, n)
    ensures Tried(c, s, p, Order(c, n) + 1, r')
  {
    hide Tried, Detected, Weight, ActionOf;
    r' := r;
    ghost var fires := Fires(c, s, p, n);
    if fires {
      TriedFound(c, s, p, r, n);
    } else {
      TriedMissed(c, s, p, r, n);
    }
    var matched, score := found, builtin;
    if n in s.rules {
      matched := matched && s.rules[n].enabled;
      score := s.rules[n].score;
    }
    if matched {
      r' := Risk(Stronger(r.localAction, EffectiveRule(c, s, n).action), r.score + score, r.matches + [Match(n, score, 0)]);
    }
  }

  lemma OrderIsInjective(c: Catalog, s: Settings, p: Part, n: RuleName)
    requires BuiltinName(n) && (n.Preset? ==> n.i < |c.presets|)
    ensures forall m :: Fires(c, s, p, m) && Order(c, m) == Order(c, n) ==> m == n
  {
  }

  lemma TriedMissed(c: Catalog, s: Settings, p: Part, r: Risk, n: RuleName)
    requires Tried(c, s, p, Order(c, n), r) && !Fires(c, s, p, n)
    requires BuiltinName(n) && (n.Preset? ==> n.i < |c.presets|)
    ensures Tried(c, s, p, Order(c, n) + 1, r)
  {
    hide Sound, Total, EffectiveRule, Names, Fires, Order;
    OrderIsInjective(c, s, p, n);
  }

  lemma TriedFound(c: Catalog, s: Settings, p: Part, r: Risk, n: RuleName)
    requires Valid(c, s) && Tried(c, s, p, Order(c, n), r) && Fires(c, s, p, n)
    requires BuiltinName(n) && (n.Preset? ==> n.i < |c.presets|)
    ensures var score := EffectiveRule(c, s, n).score;
      Tried(c, s, p, Order(c, n) + 1,
            Risk(Stronger(r.localAction, EffectiveRule(c, s, n).action), r.score + score, r.matches + [Match(n, score, 0)]))
  {
    hide Sound, Total, EffectiveRule, Names, Fires, Order;
    OrderIsInjective(c, s, p, n);
    assert EffectiveRule(c, s, n).score == Weight(c, s, n) && EffectiveRule(c, s, n).action == ActionOf(c, s, n);
    ValidActions(c, s);
    Extended(c, s, r, Match(n, EffectiveRule(c, s, n).score, 0));
  }

  /** The rules with a pattern, in the order of the built-in table. */
  method EvaluatePresets(c: Catalog, s: Settings, p: Part) returns (r: Risk)
    requires Valid(c, s)
    ensures Tried(c, s, p, |c.presets|, r)
  {
    hide Tried, EffectiveRule, Valid, Sound, Total, Names, Fires;
    r := Risk(None, 0, []);
    NoneTried(c, s, p);
    var i := 0;
    while i < |c.presets|
      invariant i <= |c.presets| && Tried(c, s, p, i, r)
    {
      r := Add(c, s, p, r, Preset(i), i in p.presetHits, c.presets[i].score);
      i := i + 1;
    }
  }

  /** Then the detectors written out one by one. */
  method EvaluateBuiltins(c: Catalog, s: Settings, p: Part) returns (r: Risk)
    requires Valid(c, s)
    ensures Tried(c, s, p, |c.presets| + 11, r)
  {
    hide *;
    Positions(c);
    Detections(c, p);
    BuiltinScores(c);
    PlainNames();
    r := EvaluatePresets(c, s, p);
    r := Add(c, s, p, r, Url, p.urls > 0, 20);
    r := Add(c, s, p, r, TelegramLink, p.telegram, 40);
    r := Add(c, s, p, r, Contact, p.contact, 25);
    r := Add(c, s, p, r, Mention, p.mentions > 0 && p.mentionWord, 20);
    r := Add(c, s, p, r, Advertising, p.adWord, 25);
    r := Add(c, s, p, r, Gambling, p.gamblingWord, 35);
    r := Add(c, s, p, r, Porn, p.pornWord, 35);
    r := Add(c, s, p, r, Crypto, p.adWord && p.walletOrCoin, 20);
    r := Add(c, s, p, r, ManyLinks, p.urls >= 3, 25);
    r := Add(c, s, p, r, Caps, p.mostlyUpper, 15);
    r := Add(c, s, p, r, Emoji, p.emoji >= 15, 15);
  }

  lemma PlainNames()
    ensures forall n :: n in PLAIN ==> BuiltinName(n) && !n.Preset?
    ensures Url in PLAIN && TelegramLink in PLAIN && Contact in PLAIN && Mention in PLAIN && Advertising in PLAIN
    ensures Gambling in PLAIN && Porn in PLAIN && Crypto in PLAIN && ManyLinks in PLAIN && Caps in PLAIN && Emoji in PLAIN
  {
  }

  const PLAIN: set<RuleName> :=
    {Url, TelegramLink, Contact, Mention, Advertising, Gambling, Porn, Crypto, ManyLinks, Caps, Emoji}

  lemma Positions(c: Catalog)
    ensures var k := |c.presets|;
      && Order(c, Url) == k && Order(c, TelegramLink) == k + 1 && Order(c, Contact) == k + 2
      && Order(c, Mention) == k + 3 && Order(c, Advertising) == k + 4 && Order(c, Gambling) == k + 5
      && Order(c, Porn) == k + 6 && Order(c, Crypto) == k + 7 && Order(c, ManyLinks) == k + 8
      && Order(c, Caps) == k + 9 && Order(c, Emoji) == k + 10
  {
  }

  lemma Detections(c: Catalog, p: Part)
    ensures Detected(c, p, Url) == (p.urls > 0) && Detected(c, p, TelegramLink) == p.telegram
    ensures Detected(c, p, Contact) == p.contact && Detected(c, p, Mention) == (p.mentions > 0 && p.mentionWord)
    ensures Detected(c, p, Advertising) == p.adWord && Detected(c, p, Gambling) == p.gamblingWord
    ensures Detected(c, p, Porn) == p.pornWord && Detected(c, p, Crypto) == (p.adWord && p.walletOrCoin)
    ensures Detected(c, p, ManyLinks) == (p.urls >= 3) && Detected(c, p, Caps) == p.mostlyUpper
    ensures Detected(c, p, Emoji) == (p.emoji >= 15)
  {
  }

  lemma BuiltinScores(c: Catalog)
    ensures Builtin(c, Url).score == 20 && Builtin(c, TelegramLink).score == 40 && Builtin(c, Contact).score == 25
    ensures Builtin(c, Mention).score == 20 && Builtin(c, Advertising).score == 25 && Builtin(c, Gambling).score == 35
    ensures Builtin(c, Porn).score == 35 && Builtin(c, Crypto).score == 20 && Builtin(c, ManyLinks).score == 25
    ensures Builtin(c, Caps).score == 15 && Builtin(c, Emoji).score == 15
  {
  }

  lemma NoneTried(c: Catalog, s: Settings, p: Part)
    ensures Tried(c, s, p, 0, Risk(None, 0, []))
  {
  }

  lemma AllTried(c: Catalog, s: Settings, p: Part, r: Risk)
    requires Tried(c, s, p, |c.presets| + 11, r)
    ensures Sound(c, s, r) && r.score == Total(c, s, Names(r.matches))
    ensures forall n :: n in Names(r.matches) <==> Fires(c, s, p, n)
    ensures forall m :: m in r.matches ==> m.part == 0
  {
    hide Sound, Total, EffectiveRule, Names;
  }

  /** A bonus that needs other evidence. */
  method AddBonus(c: Catalog, s: Settings, r: Risk, n: RuleName, holds: bool, bonus: int) returns (r': Risk)
    requires Sound(c, s, r) && n !in Names(r.matches) && (n.NewMember? || n.FirstLink? || n.FirstContact?)
    requires bonus == Weight(c, s, n)
    ensures Sound(c, s, r')
    ensures Names(r'.matches) == Names(r.matches) + if holds && r.score > 0 then {n} else {}
    ensures r'.score - r.score == Total(c, s, Names(r'.matches)) - Total(c, s, Names(r.matches)) >= 0
    ensures forall m :: m in r'.matches && m !in r.matches ==> m.part == 0
  {
    r' := r;
    if holds && r.score > 0 {
      Extended(c, s, r, Match(n, bonus, 0));
      r' := Risk(r.localAction, r.score + bonus, r.matches + [Match(n, bonus, 0)]);
    }
  }

  /** A score above zero is evidence: some matched rule has a positive weight. */
  lemma {:induction false} PositiveTotal(c: Catalog, s: Settings, names: set<RuleName>)
    requires Valid(c, s)
    ensures Total(c, s, names) > 0 <==> exists n :: n in names && Weight(c, s, n) > 0
    decreases names
  {
    if names != {} {
      var m :| m in names && Total(c, s, names) == Weight(c, s, m) + Total(c, s, names - {m});
      PositiveTotal(c, s, names - {m});
      TotalGrows(c, s, {}, names - {m});
    }
  }

  lemma SuspicionIsScore(c: Catalog, s: Settings, p: Part, r: Risk)
    requires Valid(c, s) && r.score == Total(c, s, Names(r.matches))
    requires forall n :: n in Names(r.matches) <==> Fires(c, s, p, n)
    ensures r.score > 0 <==> Suspicious(c, s, p)
  {
    PositiveTotal(c, s, Names(r.matches));
    assert forall n :: Fires(c, s, p, n) ==> Weight(c, s, n) == EffectiveRule(c, s, n).score;
  }

  ghost predicate Covers(c: Catalog, s: Settings, from: Sender, p: Part, local: nat, names: set<RuleName>) {
    forall n :: n in names <==> Matches(c, s, from, p, n) && (n.AdRule? ==> n.i < local)
  }

  /** The rules of the chat's own list, in order. */
  method EvaluateLocal(c: Catalog, s: Settings, from: Sender, p: Part, r: Risk) returns (r': Risk)
    requires Valid(c, s) && Sound(c, s, r) && Covers(c, s, from, p, 0, Names(r.matches))
    requires forall m :: m in r.matches ==> m.part == 0
    ensures Sound(c, s, r') && r'.score == r.score && Covers(c, s, from, p, |s.adRules|, Names(r'.matches))
    ensures r'.localAction == None ==> r' == r
    ensures forall m :: m in r'.matches ==> m.part == 0
  {
    hide Sound, Total, EffectiveRule, Names, Strongest, Listed, LocalHit, Fires;
    r' := r;
    var i := 0;
    while i < |s.adRules|
      invariant i <= |s.adRules| && Sound(c, s, r') && Covers(c, s, from, p, i, Names(r'.matches))
      invariant r'.score == r.score
      invariant r'.localAction == None ==> r' == r
      invariant forall m :: m in r'.matches ==> m.part == 0
    {
      if LocalHit(c, s.adRules[i], p.text) {
        Extended(c, s, r', Match(AdRule(i), 100, 0));
        r' := Risk(Stronger(r'.localAction, s.adRules[i].action), r'.score, r'.matches + [Match(AdRule(i), 100, 0)]);
        SoundIgnoresScore(c, s, r');
      }
      i := i + 1;
    }
  }

  lemma SoundIgnoresScore(c: Catalog, s: Settings, r: Risk)
    ensures forall x :: Sound(c, s, r.(score := x)) == Sound(c, s, r)
  {
  }

  method EvaluatePart(c: Catalog, s: Settings, from: Sender, p: Part) returns (r: Risk)
    requires Valid(c, s)
    ensures Sound(c, s, r) && forall n :: n in Names(r.matches) <==> Matches(c, s, from, p, n)
    ensures r.score == Score(c, s, Names(r.matches), r.localAction)
    ensures forall m :: m in r.matches ==> m.part == 0
  {
    hide Sound, Total, EffectiveRule, Names, Strongest, Listed, LocalHit, Fires, Suspicious, Valid, Tried;
    r := EvaluateBuiltins(c, s, p);
    AllTried(c, s, p, r);
    SuspicionIsScore(c, s, p, r);
    BuiltinsAreNoBonus(c, s, p);
    ghost var found, risky := Names(r.matches), r.score > 0;
    r := AddBonus(c, s, r, NewMember, s.newMemberProtection && from.isNew, 10);
    r := AddBonus(c, s, r, FirstLink, s.newMemberProtection && from.first && p.urls > 0, 30);
    r := AddBonus(c, s, r, FirstContact, s.newMemberProtection && from.first && p.contact, 30);
    BonusesCover(c, s, from, p, found, Names(r.matches), risky);
    r := EvaluateLocal(c, s, from, p, r);
    ghost var sound := r;
    if r.localAction != None {
      r := r.(score := 100);
    }
    if r.score > 100 {
      r := r.(score := 100);
    }
    SoundIgnoresScore(c, s, sound);
  }

  lemma BonusesCover(c: Catalog, s: Settings, from: Sender, p: Part, found: set<RuleName>, names: set<RuleName>, risky: bool)
    requires forall n :: n in found <==> Fires(c, s, p, n)
    requires risky <==> Suspicious(c, s, p)
    requires names == found
      + (if s.newMemberProtection && from.isNew && risky then {NewMember} else {})
      + (if s.newMemberProtection && from.first && p.urls > 0 && risky then {FirstLink} else {})
      + (if s.newMemberProtection && from.first && p.contact && risky then {FirstContact} else {})
    ensures Covers(c, s, from, p, 0, names)
  {
    hide Suspicious;
    BuiltinsAreNoBonus(c, s, p);
  }

  lemma BuiltinsAreNoBonus(c: Catalog, s: Settings, p: Part)
    ensures forall n :: Fires(c, s, p, n) ==> BuiltinName(n)
  {
  }

  // ---------------------------------------------------------------- Evaluate

  ghost function Score(c: Catalog, s: Settings, names: set<RuleName>, action: Option<Action>): int {
    if action != None || Total(c, s, names) > 100 then 100 else Total(c, s, names)
  }

  ghost predicate MatchesIn(c: Catalog, s: Settings, from: Sender, parts: seq<Part>, n: RuleName) {
    exists i :: 0 <= i < |parts| && Matches(c, s, from, parts[i], n)
  }

  /** Evaluate refines its order-free specification: with W the rules matched in the message
      or any context, each rule of W is reported once, for the first part it matched in, the
      action is the strongest of W and the score is 100 if there is one and the capped sum
      of W's weights otherwise. */
  ghost predicate Meets(c: Catalog, s: Settings, from: Sender, parts: seq<Part>, r: Risk) {
    && (forall n :: n in Names(r.matches) <==> MatchesIn(c, s, from, parts, n))
    && (forall i, j :: 0 <= i < j < |r.matches| ==> r.matches[i].rule != r.matches[j].rule)
    && (forall m :: m in r.matches ==>
          m.part < |parts| && Matches(c, s, from, parts[m.part], m.rule)
          && forall i :: 0 <= i < m.part ==> !Matches(c, s, from, parts[i], m.rule))
    && Strongest(c, s, Names(r.matches), r.localAction)
    && r.score == Score(c, s, Names(r.matches), r.localAction)
  }

  /** One more part: its matches join those of the parts before it. */
  method EvaluateNext(c: Catalog, s: Settings, from: Sender, parts: seq<Part>, i: nat, out: Risk, seen: set<RuleName>)
    returns (out': Risk, seen': set<RuleName>)
    requires Valid(c, s) && i < |parts| && seen == Names(out.matches)
    requires Sound(c, s, out) && out.score == Total(c, s, seen)
    requires forall n :: n in seen <==> MatchesIn(c, s, from, parts[..i], n)
    requires Located(c, s, from, parts, out.matches)
    ensures seen' == Names(out'.matches)
    ensures Sound(c, s, out') && out'.score == Total(c, s, seen')
    ensures forall n :: n in seen' <==> MatchesIn(c, s, from, parts[..i + 1], n)
    ensures Located(c, s, from, parts, out'.matches)
  {
    hide Sound, Total, EffectiveRule, Names, Strongest, Listed, Matches, Valid, MatchesIn;
    var r := EvaluatePart(c, s, from, parts[i]);
    out', seen' := Merge(c, s, out, seen, r, i);
    MatchesInMore(c, s, from, parts, i);
    LocatedMore(c, s, from, parts, i, out, r, out');
  }

  lemma LocatedMore(c: Catalog, s: Settings, from: Sender, parts: seq<Part>, i: nat, out: Risk, r: Risk, out': Risk)
    requires i < |parts| && Located(c, s, from, parts, out.matches)
    requires forall n :: n in Names(out.matches) <==> MatchesIn(c, s, from, parts[..i], n)
    requires forall n :: n in Names(r.matches) <==> Matches(c, s, from, parts[i], n)
    requires forall m :: m in out'.matches && m !in out.matches ==>
      m.part == i && m.rule !in Names(out.matches) && m.rule in Names(r.matches)
    ensures Located(c, s, from, parts, out'.matches)
  {
    hide Matches, Names, MatchesIn;
    MatchesInMore(c, s, from, parts, i);
  }

  method Evaluate(c: Catalog, s: Settings, from: Sender, body: Part, contexts: seq<Part>) returns (out: Risk)
    requires Valid(c, s)
    ensures Meets(c, s, from, [body] + contexts, out)
  {
    if |contexts| == 0 {
      out := EvaluatePart(c, s, from, body);
      OnePart(c, s, from, [body] + contexts, out);
      return;
    }
    hide Sound, Total, EffectiveRule, Names, Strongest, Listed, Matches, Valid, MatchesIn, Meets;
    var parts := [body] + contexts;
    out := Empty(c, s);
    NothingYet(c, s, from, parts);
    var seen: set<RuleName> := {};
    var i := 0;
    while i < |parts|
      invariant i <= |parts| && seen == Names(out.matches)
      invariant Sound(c, s, out) && out.score == Total(c, s, seen)
      invariant forall n :: n in seen <==> MatchesIn(c, s, from, parts[..i], n)
      invariant Located(c, s, from, parts, out.matches)
    {
      out, seen := EvaluateNext(c, s, from, parts, i, out, seen);
      i := i + 1;
    }
    assert parts[..|parts|] == parts;
    ghost var sum := out;
    if out.localAction != None || out.score > 100 {
      out := out.(score := 100);
    }
    Concludes(c, s, from, parts, sum, out);
  }

  lemma NothingYet(c: Catalog, s: Settings, from: Sender, parts: seq<Part>)
    ensures forall n :: !MatchesIn(c, s, from, parts[..0], n)
  {
  }

  lemma Concludes(c: Catalog, s: Settings, from: Sender, parts: seq<Part>, sum: Risk, out: Risk)
    requires Sound(c, s, sum) && Located(c, s, from, parts, sum.matches) && sum.score == Total(c, s, Names(sum.matches))
    requires forall n :: n in Names(sum.matches) <==> MatchesIn(c, s, from, parts, n)
    requires out == sum.(score := if sum.localAction != None || sum.score > 100 then 100 else sum.score)
    ensures Meets(c, s, from, parts, out)
  {
  }

  /** Each match names the first part its rule matched in. */
  ghost predicate Located(c: Catalog, s: Settings, from: Sender, parts: seq<Part>, ms: seq<Match>) {
    forall m :: m in ms ==>
      m.part < |parts| && Matches(c, s, from, parts[m.part], m.rule)
      && forall i :: 0 <= i < m.part ==> !Matches(c, s, from, parts[i], m.rule)
  }

  lemma MatchesInMore(c: Catalog, s: Settings, from: Sender, parts: seq<Part>, i: nat)
    requires i < |parts|
    ensures forall n :: MatchesIn(c, s, from, parts[..i + 1], n) <==>
                        MatchesIn(c, s, from, parts[..i], n) || Matches(c, s, from, parts[i], n)
    ensures forall n, k :: 0 <= k < i && Matches(c, s, from, parts[k], n) ==> MatchesIn(c, s, from, parts[..i], n)
  {
    forall n
      ensures MatchesIn(c, s, from, parts[..i + 1], n) <==>
              MatchesIn(c, s, from, parts[..i], n) || Matches(c, s, from, parts[i], n)
    {
      if MatchesIn(c, s, from, parts[..i], n) {
        var k :| 0 <= k < |parts[..i]| && Matches(c, s, from, parts[..i][k], n);
        assert parts[..i + 1][k] == parts[k];
      }
      if Matches(c, s, from, parts[i], n) {
        assert parts[..i + 1][i] == parts[i];
      }
    }
    forall n, k | 0 <= k < i && Matches(c, s, from, parts[k], n) ensures MatchesIn(c, s, from, parts[..i], n) {
      assert parts[..i][k] == parts[k];
    }
  }

  lemma OnePart(c: Catalog, s: Settings, from: Sender, parts: seq<Part>, r: Risk)
    requires |parts| == 1 && Sound(c, s, r)
    requires forall n :: n in Names(r.matches) <==> Matches(c, s, from, parts[0], n)
    requires r.score == Score(c, s, Names(r.matches), r.localAction)
    requires forall m :: m in r.matches ==> m.part == 0
    ensures Meets(c, s, from, parts, r)
  {
    forall n ensures n in Names(r.matches) <==> MatchesIn(c, s, from, parts, n) {
    }
    forall m | m in r.matches ensures Matches(c, s, from, parts[m.part], m.rule) {
      assert m.rule in Names(r.matches);
    }
  }

  /** One part's matches, without those already seen. The part's own action is merged as a
      whole: every rule behind it is or becomes one of the seen ones. */
  method Merge(c: Catalog, s: Settings, out: Risk, seen: set<RuleName>, r: Risk, part: nat)
    returns (out': Risk, seen': set<RuleName>)
    requires Valid(c, s) && Sound(c, s, out) && Sound(c, s, r)
    requires seen == Names(out.matches) && out.score == Total(c, s, seen)
    ensures Sound(c, s, out') && seen' == Names(out'.matches) == seen + Names(r.matches)
    ensures out'.score == Total(c, s, seen')
    ensures out.matches <= out'.matches
    ensures forall m :: m in out'.matches && m !in out.matches ==> m.part == part && m.rule !in seen && m.rule in Names(r.matches)
  {
    hide Total, Weight, Strongest, ActionOf, Names, Valid;
    out', seen' := out, seen;
    NamesOf(out.matches, r.matches);
    var k := 0;
    while k < |r.matches|
      invariant k <= |r.matches| && seen' == Names(out'.matches) == seen + Names(r.matches[..k])
      invariant Listed(c, s, out'.matches) && out'.score == Total(c, s, seen')
      invariant out'.localAction == out.localAction
      invariant out.matches <= out'.matches
      invariant forall m :: m in out'.matches && m !in out.matches ==>
                  m.part == part && m.rule !in seen && m.rule in Names(r.matches)
    {
      var m := r.matches[k];
      assert r.matches[..k + 1] == r.matches[..k] + [m];
      NamesAdd(r.matches[..k], m);
      assert m.rule in Names(r.matches);
      if m.rule !in seen' {
        ListedAdds(c, s, out'.matches, m.(part := part));
        out' := Risk(out'.localAction, out'.score + m.score, out'.matches + [m.(part := part)]);
        seen' := seen' + {m.rule};
      }
      k := k + 1;
    }
    assert r.matches[..|r.matches|] == r.matches;
    StrongestOfUnion(c, s, Names(out.matches), Names(r.matches), out.localAction, r.localAction);
    out' := out'.(localAction := Stronger(out.localAction, r.localAction));
  }

  // ---------------------------------------------------------------- consequences of the specification

  /** The result is a function of the set of matched rules: whatever else two evaluations
      differ in (order, repetition, which part matched), score and action agree. */
  lemma OrderDoesNotMatter(c: Catalog, s: Settings, from: Sender, ps: seq<Part>, qs: seq<Part>, r: Risk, q: Risk)
    requires Valid(c, s) && Meets(c, s, from, ps, r) && Meets(c, s, from, qs, q)
    requires forall n :: MatchesIn(c, s, from, ps, n) <==> MatchesIn(c, s, from, qs, n)
    ensures r.score == q.score && r.localAction == q.localAction
  {
    hide Matches, Total, Names, ActionOf, Valid, MatchesIn;
    assert Names(r.matches) == Names(q.matches);
    ValidActions(c, s);
  }

  lemma ValidActions(c: Catalog, s: Settings)
    requires Valid(c, s)
    ensures forall n :: ValidAction(ActionOf(c, s, n))
  {
  }

  /** The strongest action wins: a ban over a mute over a delete. */
  lemma StrongestWins(c: Catalog, s: Settings, from: Sender, ps: seq<Part>, r: Risk)
    requires Valid(c, s) && Meets(c, s, from, ps, r)
    ensures r.localAction == Some(Ban) <==> Asked(c, s, from, ps, Ban)
    ensures r.localAction == Some(Mute) <==> Asked(c, s, from, ps, Mute) && !Asked(c, s, from, ps, Ban)
    ensures r.localAction == Some(Delete) <==>
      Asked(c, s, from, ps, Delete) && !Asked(c, s, from, ps, Mute) && !Asked(c, s, from, ps, Ban)
    ensures r.localAction == None || r.localAction == Some(Ban) || r.localAction == Some(Mute) || r.localAction == Some(Delete)
  {
    hide Matches, Total, ActionOf, Valid, MatchesIn, Names, Score;
    ValidActions(c, s);
    forall n ensures MatchesIn(c, s, from, ps, n) <==> n in Names(r.matches) {
    }
  }

  /** Some rule that matched asks for this action. */
  ghost predicate Asked(c: Catalog, s: Settings, from: Sender, ps: seq<Part>, a: Action) {
    exists n :: MatchesIn(c, s, from, ps, n) && ActionOf(c, s, n) == Some(a)
  }

  /** A rule of the chat's own list is reported exactly if it is switched on and finds its
      pattern, which is not blank, within some part or as the whole of it, or is a regular
      expression that accepts the part. */
  lemma WhatLocalRulesFind(c: Catalog, s: Settings, from: Sender, ps: seq<Part>, r: Risk, i: nat)
    requires Valid(c, s) && Meets(c, s, from, ps, r)
    ensures AdRule(i) in Names(r.matches) <==>
      i < |s.adRules| && s.adRules[i].enabled && exists k :: 0 <= k < |ps| && Finds(c, s.adRules[i], ps[k].text)
  {
    hide Total, ActionOf, Valid, Names, Score, Strongest, Suspicious, Fires, Occurs;
    if i < |s.adRules| {
      var word := c.clean(s.adRules[i].pattern);
      forall k | 0 <= k < |ps| ensures Occurs(word, ps[k].text) <==> Within(word, ps[k].text) {
        OccursWithin(word, ps[k].text);
      }
      assert AdRule(i) in Names(r.matches) <==> MatchesIn(c, s, from, ps, AdRule(i));
    }
  }

  ghost predicate Finds(c: Catalog, rule: LocalRule, text: string) {
    var word := c.clean(rule.pattern);
    match rule.mode
    case Containing => word != [] && Within(word, text)
    case Exactly => word != [] && text == word
    case Regex => c.regex(rule.pattern, text)
  }

  ghost predicate Within(word: string, text: string) {
    exists a: string, b: string :: text == a + word + b
  }

  lemma OccursWithin(word: string, text: string)
    ensures Occurs(word, text) <==> Within(word, text)
  {
    if Occurs(word, text) {
      var i :| 0 <= i <= |text| && word <= text[i..];
      assert text == text[..i] + word + text[i..][|word|..];
    }
    if Within(word, text) {
      var a: string, b: string :| text == a + word + b;
      assert text[|a|..] == word + b;
    }
  }

  /** Adding contexts never lowers the score or the action. */
  lemma ContextsOnlyAdd(c: Catalog, s: Settings, from: Sender, ps: seq<Part>, more: seq<Part>, r: Risk, q: Risk)
    requires Valid(c, s) && Meets(c, s, from, ps, r) && Meets(c, s, from, ps + more, q)
    ensures r.score <= q.score && Rank(r.localAction) <= Rank(q.localAction)
  {
    hide Matches, Total, Names, ActionOf, Valid;
    ValidActions(c, s);
    forall n | n in Names(r.matches) ensures n in Names(q.matches) {
      var i :| 0 <= i < |ps| && Matches(c, s, from, ps[i], n);
      assert (ps + more)[i] == ps[i];
    }
    TotalGrows(c, s, Names(r.matches), Names(q.matches));
  }

  /** The score is a percentage, and 100 whenever a local action applies. */
  lemma ScoreIsPercentage(c: Catalog, s: Settings, from: Sender, ps: seq<Part>, r: Risk)
    requires Valid(c, s) && Meets(c, s, from, ps, r)
    ensures 0 <= r.score <= 100 && (r.localAction.Some? ==> r.score == 100) && ValidAction(r.localAction)
  {
    ValidActions(c, s);
    TotalGrows(c, s, {}, Names(r.matches));
  }
}
