/** From a risk and the AI's opinion to a decision, and back from a stored decision
    to the local action behind it. */
module Decide {
  import opened Domain

  /** Confidences are reals: only their order matters. */
  datatype Settings = Settings(
    directThreshold: int, warnConfidence: real, deleteConfidence: real, muteConfidence: real,
    autoDelete: bool, autoWarn: bool, autoMute: bool, autoBan: bool,
    muteSeconds: int, muteAfter: int, banAfter: int)

  datatype Opinion = Opinion(isAd: bool, confidence: real, severe: bool, reason: string)

  datatype Risk = Risk(localAction: Option<Action>, score: int, spam: bool)

  datatype Verdict = Verdict(action: Action, delete: bool, duration: int, reason: string)

  predicate Valid(s: Settings) {
    s.warnConfidence <= s.deleteConfidence <= s.muteConfidence && 1 <= s.muteAfter <= s.banAfter
  }

  predicate ValidRisk(r: Risk) {
    r.localAction == None || r.localAction == Some(Delete) || r.localAction == Some(Mute) || r.localAction == Some(Ban)
  }

  const LOCAL_RULE := "local_ad_rule"
  const LOCAL_REVIEW := "local_ad_review"
  const OTHER_REASONS :=
    ["low_risk", "protected_user", "advertising", "spam", "moderation_disabled", "blacklist", "repeated_ad", "sender_chat",
     "manual_review", "manual_ai_ad"]

  // ---------------------------------------------------------------- the decision

  /** A local rule has matched. */
  function DecideLocal(a: Action, s: Settings, violations: int, protected: bool): Verdict {
    if protected then Verdict(ShadowLog, false, 0, "protected_user")
    else if a == Delete then
      if violations >= 3 then Verdict(Mute, true, 0, LOCAL_REVIEW) else Verdict(Warn, true, 0, LOCAL_RULE)
    else Verdict(a, true, if a == Mute then s.muteSeconds else 0, LOCAL_RULE)
  }

  /** The AI is heard only where the rules alone do not decide. */
  predicate Heard(r: Risk, ai: Option<Opinion>, s: Settings) {
    ai.Some? && ai.value.isAd && r.score < s.directThreshold && !r.spam
  }

  predicate AIViolation(r: Risk, ai: Option<Opinion>, s: Settings) {
    Heard(r, ai, s) && ai.value.confidence >= s.deleteConfidence
  }

  predicate AIMutes(r: Risk, ai: Option<Opinion>, s: Settings) {
    AIViolation(r, ai, s) && ai.value.confidence >= s.muteConfidence && ai.value.severe
  }

  predicate Violation(r: Risk, ai: Option<Opinion>, s: Settings) {
    r.spam || r.score >= s.directThreshold || AIViolation(r, ai, s)
  }

  predicate AIWarns(r: Risk, ai: Option<Opinion>, s: Settings) {
    Heard(r, ai, s) && ai.value.confidence >= s.warnConfidence && !Violation(r, ai, s) && s.autoWarn
  }

  function Punish(r: Risk, s: Settings, violations: int, mute: bool): Verdict {
    var d := Verdict(if s.autoDelete then Delete else ShadowLog, s.autoDelete, 0, if r.spam then "spam" else "advertising");
    var warned := if s.autoWarn then d.(action := Warn) else d;
    var muted := if s.autoMute && (mute || violations + 1 >= s.muteAfter)
                 then warned.(action := Mute, duration := s.muteSeconds) else warned;
    if s.autoBan && violations + 1 >= s.banAfter then muted.(action := Ban) else muted
  }

  function Decide(r: Risk, ai: Option<Opinion>, s: Settings, violations: int, protected: bool): Verdict {
    if r.localAction.Some? then DecideLocal(r.localAction.value, s, violations, protected)
    else
      var d := if Violation(r, ai, s) then Punish(r, s, violations, AIMutes(r, ai, s))
               else if AIWarns(r, ai, s) then Verdict(Warn, false, 0, ai.value.reason)
               else Verdict(Allow, false, 0, "low_risk");
      if protected && (d.action != Allow || d.delete)
      then d.(action := ShadowLog, delete := false, reason := "protected_user") else d
  }

  /** When each action comes out, for a sender who is not protected. Without a local match, a
      violation is spam, a score at the direct threshold, or an AI that is sure enough. */
  lemma WhenEachAction(r: Risk, ai: Option<Opinion>, s: Settings, v: int)
    requires Valid(s) && r.localAction == None
    ensures var d := Decide(r, ai, s, v, false);
      var ad := ai.Some? && ai.value.isAd && r.score < s.directThreshold && !r.spam;
      var violation := r.spam || r.score >= s.directThreshold || (ad && ai.value.confidence >= s.deleteConfidence);
      var severe := ad && ai.value.confidence >= s.muteConfidence && ai.value.severe;
      var ban := violation && s.autoBan && v + 1 >= s.banAfter;
      var mute := violation && s.autoMute && (severe || v + 1 >= s.muteAfter);
      && (d.action == Ban <==> ban)
      && (d.action == Mute <==> mute && !ban)
      && (d.action == Mute ==> d.duration == s.muteSeconds)
      && (d.action == Warn <==>
            s.autoWarn && !ban && !mute && (violation || (ad && ai.value.confidence >= s.warnConfidence)))
      && (d.action == Delete <==> violation && !ban && !mute && !s.autoWarn && s.autoDelete)
      && (d.action == ShadowLog <==> violation && !ban && !mute && !s.autoWarn && !s.autoDelete)
      && (d.delete <==> violation && s.autoDelete)
  {
  }

  /** And with a local match: a third violation of a delete rule is muted until an administrator
      has looked at it. */
  lemma WhenLocal(r: Risk, ai: Option<Opinion>, s: Settings, v: int)
    ensures r.localAction == Some(Ban) ==> Decide(r, ai, s, v, false) == Verdict(Ban, true, 0, "local_ad_rule")
    ensures r.localAction == Some(Mute) ==> Decide(r, ai, s, v, false) == Verdict(Mute, true, s.muteSeconds, "local_ad_rule")
    ensures r.localAction == Some(Delete) && v < 3 ==> Decide(r, ai, s, v, false) == Verdict(Warn, true, 0, "local_ad_rule")
    ensures r.localAction == Some(Delete) && v >= 3 ==> Decide(r, ai, s, v, false) == Verdict(Mute, true, 0, "local_ad_review")
  {
  }

  // ---------------------------------------------------------------- severity

  function Severity(d: Verdict): nat {
    match d.action
    case Allow => 0
    case ShadowLog => 1
    case Delete => 2
    case Warn => 3
    case Mute => 4
    case Ban => 5
    case _ => 6
  }

  /** More violations never soften the decision. */
  lemma MoreViolations(r: Risk, ai: Option<Opinion>, s: Settings, v: int, v': int, protected: bool)
    requires Valid(s) && ValidRisk(r) && v <= v'
    ensures Severity(Decide(r, ai, s, v, protected)) <= Severity(Decide(r, ai, s, v', protected)) <= 5
  {
  }

  /** A more confident AI never softens it, and never turns a deletion off. */
  lemma MoreConfidence(r: Risk, o: Opinion, confidence: real, s: Settings, v: int, protected: bool)
    requires Valid(s) && ValidRisk(r) && o.confidence <= confidence
    ensures var (d, d') := (Decide(r, Some(o), s, v, protected), Decide(r, Some(o.(confidence := confidence)), s, v, protected));
      Severity(d) <= Severity(d') && (d.delete ==> d'.delete)
  {
  }

  /** The AI's opinion matters exactly when no local rule matched, the message is no spam,
      stays below the direct threshold and the AI takes it for an advertisement with at
      least one of the two confidences that have an effect, for a protected sender too. */
  lemma OpinionMatters(r: Risk, o: Opinion, s: Settings, v: int, protected: bool)
    requires Valid(s) && ValidRisk(r)
    ensures Decide(r, Some(o), s, v, protected) != Decide(r, None, s, v, protected) <==>
            r.localAction == None && !r.spam && r.score < s.directThreshold && o.isAd
            && (o.confidence >= s.deleteConfidence
                || (o.confidence >= s.warnConfidence && s.autoWarn))
  {
  }

  /** A higher score can soften the decision, exactly when it crosses the direct threshold
      and so silences an AI that asks for a mute nobody else would give. */
  lemma HigherScoreSoftens(r: Risk, score: int, ai: Option<Opinion>, s: Settings, v: int, protected: bool)
    requires Valid(s) && ValidRisk(r) && r.score <= score
    ensures Severity(Decide(r.(score := score), ai, s, v, protected)) < Severity(Decide(r, ai, s, v, protected)) <==>
            r.localAction == None && !protected && r.score < s.directThreshold <= score
            && AIMutes(r, ai, s) && s.autoMute && v + 1 < s.muteAfter
  {
  }

  /** With the default thresholds: 79 points and a sure AI mean a mute, 80 points a warning. */
  lemma HigherScoreSoftensAtDefaults()
    ensures var s := Settings(80, 0.6, 0.8, 0.95, true, true, true, false, 3600, 2, 3);
            var ai := Some(Opinion(true, 0.96, true, "scam"));
      Valid(s) && Decide(Risk(None, 79, false), ai, s, 0, false).action == Mute
               && Decide(Risk(None, 80, false), ai, s, 0, false).action == Warn
  {
  }

  /** A protected sender is at most logged. */
  lemma ProtectedIsSpared(r: Risk, ai: Option<Opinion>, s: Settings, v: int)
    requires ValidRisk(r)
    ensures var d := Decide(r, ai, s, v, true);
      (d.action == Allow || d.action == ShadowLog) && !d.delete
      && (d.action == Allow <==> Decide(r, ai, s, v, false).action == Allow)
  {
  }

  // ---------------------------------------------------------------- reading a stored decision

  /** scanLog: the local action as far as the stored decision tells. */
  function Rebuilt(d: Verdict): Option<Action> {
    if d.reason == LOCAL_RULE then
      if d.action == Warn && d.delete then Some(Delete) else Some(d.action)
    else if d.reason == LOCAL_REVIEW then Some(Delete)
    else None
  }

  /** What the bare decision tells: everything, except for a protected sender's match and for
      an AI warning whose reason is one of the two reserved words. */
  lemma BareDecisionTells(r: Risk, ai: Option<Opinion>, s: Settings, v: int, protected: bool)
    requires ValidRisk(r)
    ensures Rebuilt(Decide(r, ai, s, v, protected)) == r.localAction <==>
            !(protected && r.localAction.Some?) && !(!protected && Invents(r, ai, s))
  {
    DistinctReasons();
  }

  /** An AI warning in the words of a local rule. */
  predicate Invents(r: Risk, ai: Option<Opinion>, s: Settings) {
    r.localAction == None && AIWarns(r, ai, s) && (ai.value.reason == LOCAL_RULE || ai.value.reason == LOCAL_REVIEW)
  }

  lemma DistinctReasons()
    ensures LOCAL_RULE != LOCAL_REVIEW
    ensures forall i :: 0 <= i < |OTHER_REASONS| ==> OTHER_REASONS[i] != LOCAL_RULE && OTHER_REASONS[i] != LOCAL_REVIEW
  {
    assert |LOCAL_RULE| == 13 && |LOCAL_REVIEW| == 15;
  }

  // ---------------------------------------------------------------- the decision as it is saved

  datatype Listing = Unlisted | Blacklisted | Whitelisted | Trusted

  /** Where a log comes from: a member's message, a channel's message, a review on request. */
  datatype Origin =
    | Automatic(listing: Listing, protected: bool, violations: int, repeated: bool)
    | Channel
    | Review(isAd: bool)

  datatype Policy = Policy(moderation: bool, adminBypass: bool, settings: Settings)

  datatype Log = Log(risk: Risk, decision: Verdict)

  /** repeatAdDecision. */
  function Repeat(d: Verdict, repeated: bool, s: Settings): Verdict {
    if !repeated || d.action == Ban || d.reason == LOCAL_REVIEW then d
    else Verdict(Mute, true, s.muteSeconds, "repeated_ad")
  }

  /** The message is evaluated at all. */
  predicate Moderated(listing: Listing, protected: bool, p: Policy) {
    p.moderation && !(protected && (p.adminBypass || listing == Whitelisted || listing == Trusted))
  }

  function AutomaticDecision(r: Risk, ai: Option<Opinion>, p: Policy, o: Origin): Verdict
    requires o.Automatic?
  {
    var first := if Moderated(o.listing, o.protected, p) then Decide(r, ai, p.settings, o.violations, o.protected)
                 else Verdict(Allow, false, 0, "moderation_disabled");
    var listed := if o.listing == Blacklisted && !o.protected
                  then Verdict(Ban, p.settings.autoDelete, 0, "blacklist") else first;
    if p.moderation && !o.protected then Repeat(listed, o.repeated, p.settings) else listed
  }

  /** A channel identity is never muted or banned. */
  function ChannelDecision(r: Risk, ai: Option<Opinion>, s: Settings): Verdict {
    var d := Decide(r, ai, s, 0, false);
    if d.action == Allow || d.action == ShadowLog then d
    else Verdict(if d.action == Mute || d.action == Ban || d.action == Kick then Warn else d.action, d.delete, 0, "sender_chat")
  }

  /** The log as it is first saved; a channel's message in a chat without moderation has none. */
  function Saved(r: Risk, ai: Option<Opinion>, p: Policy, o: Origin): Option<Log> {
    match o
    case Automatic(listing, protected, _, _) =>
      Some(Log(if Moderated(listing, protected, p) then r else Risk(None, 0, false), AutomaticDecision(r, ai, p, o)))
    case Channel => if p.moderation then Some(Log(r, ChannelDecision(r, ai, p.settings))) else None
    case Review(isAd) =>
      Some(Log(r, if isAd then Verdict(Warn, true, 0, "manual_ai_ad") else Verdict(ShadowLog, false, 0, "manual_review")))
  }

  /** punishLocked writes its own decision back to the log: a ban of a known message deletes
      it, and the message may have been repeated meanwhile. */
  function Revised(d: Verdict, o: Origin, message: bool, repeated: bool, s: Settings): Verdict {
    if d.action == Allow || d.action == ShadowLog then d
    else
      var whole := if d.action == Ban && message then d.(delete := true) else d;
      if !o.Channel? && whole.delete && whole.action != Ban then Repeat(whole, repeated, s) else whole
  }

  /** A local match that ends in a ban, or in a mute that waits for review, is told even of a
      repeated message. */
  predicate Survives(a: Action, violations: int) {
    a == Ban || (a == Delete && violations >= 3)
  }

  /** The local action that the message had is not what the log tells, because ... */
  predicate Hidden(l: Option<Action>, p: Policy, o: Origin, repeatedLater: bool) {
    l.Some? && match o
      case Automatic(listing, protected, v, repeated) =>
        protected || listing == Blacklisted || ((repeated || repeatedLater) && !Survives(l.value, v))
      case Channel => true
      case Review(_) => true
  }

  /** ... or the log tells one that there was not. */
  predicate Spurious(r: Risk, ai: Option<Opinion>, p: Policy, o: Origin) {
    o.Automatic? && Moderated(o.listing, o.protected, p) && !o.protected && o.listing != Blacklisted
    && Invents(r, ai, p.settings) && (o.repeated ==> ai.value.reason == LOCAL_REVIEW)
  }

  /** scanLog rebuilds the local action of a saved log, at first and after the punishment has
      written to it, exactly unless the sender was protected, blacklisted or a channel, the
      message was repeated (and not banned or muted for review all the same) or was reviewed
      on request; or an AI warning that was saved had one of the two reserved words as its
      reason. */
  lemma RebuiltIff(r: Risk, ai: Option<Opinion>, p: Policy, o: Origin, message: bool, repeatedLater: bool)
    requires ValidRisk(r)
    ensures Saved(r, ai, p, o).Some? ==>
      var l := Saved(r, ai, p, o).value;
      && (Rebuilt(l.decision) == l.risk.localAction <==>
            !Hidden(l.risk.localAction, p, o, false) && !Spurious(r, ai, p, o))
      && (Rebuilt(Revised(l.decision, o, message, repeatedLater, p.settings)) == l.risk.localAction <==>
            !Hidden(l.risk.localAction, p, o, repeatedLater) && !Spurious(r, ai, p, o))
  {
    DistinctReasons();
  }
}
