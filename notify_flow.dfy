/** The session router of `/notify`: a map from (user, channel) to the last
    exchange, a five-minute expiry, and the merging of a follow-up with an
    earlier text the classifier could not place. */
module NotifyFlow {
  import opened Wrappers
  import Routing
  import Text

  /** (user, channel). */
  type SessionKey = (string, string)

  datatype SessionState = UnknownSession | PendingNotification

  datatype PendingSession = PendingSession(state: SessionState, originalText: string, lastPromptAt: int)

  datatype NotifyDecision = EmitNotify(normalizedText: string) | NeedClarification

  const SESSION_TTL: int := 5 * MINUTE

  /** A session is expired only when strictly more than five minutes passed. */
  predicate Expired(session: PendingSession, now: int) {
    now - session.lastPromptAt > SESSION_TTL
  }

  /** The text handed to the router: the follow-up alone, or appended to the
      earlier text while that session is live and still undecided. */
  function CombinedText(sessions: map<SessionKey, PendingSession>, key: SessionKey, text: string, now: int): (c: string)
    ensures key !in sessions ==> c == text
    ensures key in sessions && Expired(sessions[key], now) ==> c == text
    ensures key in sessions && !Expired(sessions[key], now) && sessions[key].state == PendingNotification ==> c == text
    ensures key in sessions && !Expired(sessions[key], now) && sessions[key].state == UnknownSession
            ==> c == sessions[key].originalText + " " + text
  {
    if key in sessions && !Expired(sessions[key], now) && sessions[key].state == UnknownSession
    then sessions[key].originalText + " " + text
    else text
  }

  /** The session stored after routing, and the decision returned. */
  function SessionFor(routed: Routing.IntentResult, combined: string, now: int): (s: PendingSession)
    ensures s.originalText == combined && s.lastPromptAt == now
    ensures s.state == PendingNotification <==> routed.intent == Routing.Notification
  {
    match routed.intent
    case Notification => PendingSession(PendingNotification, combined, now)
    case Unknown => PendingSession(UnknownSession, combined, now)
  }

  function DecisionFor(routed: Routing.IntentResult): (d: NotifyDecision)
    ensures d.EmitNotify? <==> routed.intent == Routing.Notification
    ensures d.EmitNotify? ==> d.normalizedText == routed.normalizedText
  {
    match routed.intent
    case Notification => EmitNotify(routed.normalizedText)
    case Unknown => NeedClarification
  }

  /** The whole effect of one call: the new session map and the decision. */
  function Route(router: string -> Routing.IntentResult, sessions: map<SessionKey, PendingSession>,
                 key: SessionKey, text: string, now: int): (r: (map<SessionKey, PendingSession>, NotifyDecision))
    ensures key in r.0 && r.0[key].lastPromptAt == now
    ensures r.0[key].originalText == CombinedText(sessions, key, text, now)
    ensures forall k :: k != key ==> (k in r.0 <==> k in sessions)
    ensures forall k :: k != key && k in sessions ==> r.0[k] == sessions[k]
    ensures r.1 == DecisionFor(router(CombinedText(sessions, key, text, now)))
    ensures r.0[key].state == PendingNotification <==> r.1.EmitNotify?
  {
    var combined := CombinedText(sessions, key, text, now);
    var routed := router(combined);
    (sessions[key := SessionFor(routed, combined, now)], DecisionFor(routed))
  }

  /** The per-(user, channel) sessions, updated in place by `route_notify`. */
  class SessionStore {
    var sessions: map<SessionKey, PendingSession>

    constructor ()
      ensures sessions == map[]
    {
      sessions := map[];
    }

    /** `route_notify`: drops an expired session, merges into a live undecided
        one, routes, and records the outcome under the key. */
    method RouteNotify(router: string -> Routing.IntentResult, key: SessionKey, text: string, now: int)
      returns (decision: NotifyDecision)
      modifies this
      ensures (sessions, decision) == Route(router, old(sessions), key, text, now)
    {
      var combined := text;
      if key in sessions {
        var session := sessions[key];
        if now - session.lastPromptAt > SESSION_TTL {
          sessions := sessions - {key};
        } else if session.state == UnknownSession {
          combined := session.originalText + " " + combined;
        }
      }
      var routing := router(combined);
      match routing.intent {
        case Notification =>
          sessions := sessions[key := PendingSession(PendingNotification, combined, now)];
          decision := EmitNotify(routing.normalizedText);
        case Unknown =>
          sessions := sessions[key := PendingSession(UnknownSession, combined, now)];
          decision := NeedClarification;
      }
      assert combined == CombinedText(old(sessions), key, text, now);
      assert sessions == old(sessions)[key := SessionFor(routing, combined, now)];
    }
  }

  // ------------------------------------------------------------- properties

  /** Exactly five minutes is still live; one second more is expired. */
  lemma {:induction false} ExpiryBoundary(sessions: map<SessionKey, PendingSession>, key: SessionKey, text: string, now: int)
    requires key in sessions && sessions[key].state == UnknownSession
    ensures sessions[key].lastPromptAt == now - SESSION_TTL
            ==> CombinedText(sessions, key, text, now) == sessions[key].originalText + " " + text
    ensures sessions[key].lastPromptAt == now - SESSION_TTL - 1
            ==> CombinedText(sessions, key, text, now) == text
  {
  }

  /** A call that emits notifies with the router's normalized text, which need
      not be the merged text the session keeps. */
  lemma {:induction false} EmitUsesRouterText(router: string -> Routing.IntentResult, sessions: map<SessionKey, PendingSession>,
                                              key: SessionKey, text: string, now: int)
    requires Route(router, sessions, key, text, now).1.EmitNotify?
    ensures Route(router, sessions, key, text, now).1.normalizedText
            == router(Route(router, sessions, key, text, now).0[key].originalText).normalizedText
  {
  }

  /** With the keyword heuristic as router, a follow-up carrying a time word
      turns a live undecided session into a notification. */
  lemma {:induction false} FollowUpCompletesUnknownSession(sessions: map<SessionKey, PendingSession>, key: SessionKey,
                                                           text: string, now: int, w: string)
    requires key in sessions && sessions[key].state == UnknownSession && !Expired(sessions[key], now)
    requires w in Routing.TimeTokens || w in Routing.Weekdays || w in Routing.Months
    requires Text.Contains(Text.LowerAscii(Text.Trim(text)), w)
    ensures Route(Routing.RouteIntent, sessions, key, text, now).1.EmitNotify?
    ensures Route(Routing.RouteIntent, sessions, key, text, now).0[key].state == PendingNotification
  {
    Routing.KeywordInFollowUpRoutes(sessions[key].originalText, text, w);
  }

  /** The repository's scenario: "call mom" is undecided, and the follow-up
      "tomorrow at 5" a moment later is emitted as a notification. */
  method UnknownThenFollowUp(key: SessionKey, now: int) returns (first: NotifyDecision, second: NotifyDecision)
    ensures first == NeedClarification
    ensures second.EmitNotify?
  {
    var store := new SessionStore();
    var router := (t: string) =>
      if t == "call mom" then Routing.IntentResult(Routing.Unknown, "call mom")
      else Routing.IntentResult(Routing.Notification, "notify me tomorrow at 5 to call mom");
    first := store.RouteNotify(router, key, "call mom", now);
    second := store.RouteNotify(router, key, "tomorrow at 5", now);
    assert "call mom tomorrow at 5" != "call mom" by {
      assert |"call mom tomorrow at 5"| != |"call mom"|;
    }
  }
}
