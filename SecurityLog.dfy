/**
 * The client's security manager (client/src/lib/security.ts): a bounded,
 * newest-first event log, the status derived from the last day of events,
 * input validation and the emergency wipe. Event ids, clocks and the
 * browser environment are parameters; times are milliseconds.
 */
module SecurityLog {
  import opened Common

  const MaxEvents: nat := 1000
  const SessionTimeout: int := 30 * 60 * 1000
  const Day: int := 24 * 60 * 60 * 1000

  datatype Severity = Low | Medium | High

  datatype SecurityEvent = SecurityEvent(
    id: string, timestamp: int, eventType: string, details: string, severity: Severity)

  datatype UserSession = UserSession(id: string, startTime: int, lastActivity: int, valid: bool)

  datatype SecurityLevel = LevelHigh | LevelMedium | LevelLow
  datatype ThreatLevel = Minimal | Moderate | ThreatHigh | Critical

  datatype SecurityStatus = SecurityStatus(
    securityLevel: SecurityLevel, sessionValid: bool, biometricSupported: bool,
    lastActivity: Option<int>, implementedFeatures: nat, threatLevel: ThreatLevel,
    activeThreats: nat)

  const ImplementedFeatureCount: nat := 12

  // ---------------------------------------------------------------------
  // The log.

  /** The log after unshifting `e` and keeping the first MaxEvents. */
  function Logged(events: seq<SecurityEvent>, e: SecurityEvent): (r: seq<SecurityEvent>)
    ensures |events| <= MaxEvents ==> |r| <= MaxEvents
  {
    PrependCapped(e, events, MaxEvents)
  }

  /** Below the cap, logging is a plain prepend. */
  lemma LoggedBelowCap(events: seq<SecurityEvent>, e: SecurityEvent)
    requires |events| < MaxEvents
    ensures Logged(events, e) == [e] + events
  {
  }

  // ---------------------------------------------------------------------
  // Status classification (client/src/lib/security.ts:232-269).

  predicate IsRecent(now: int, e: SecurityEvent) { e.timestamp > now - Day }

  function RecentEvents(events: seq<SecurityEvent>, now: int): seq<SecurityEvent>
  {
    Filter(events, (e: SecurityEvent) => IsRecent(now, e))
  }

  function CountSeverity(events: seq<SecurityEvent>, s: Severity): nat
  {
    Count(events, (e: SecurityEvent) => e.severity == s)
  }

  function SecurityLevelOf(high: nat, medium: nat): SecurityLevel
  {
    if high > 3 then LevelLow
    else if high > 1 || medium > 5 then LevelMedium
    else LevelHigh
  }

  function ThreatLevelOf(high: nat): ThreatLevel
  {
    if high > 5 then Critical
    else if high > 3 then ThreatHigh
    else if high > 1 then Moderate
    else Minimal
  }

  function Rank(l: SecurityLevel): nat
  {
    match l
    case LevelHigh => 0
    case LevelMedium => 1
    case LevelLow => 2
  }

  /** More high- or medium-severity events never raise the security level,
      and the security level is low exactly when the threat level is high
      or critical. */
  lemma ClassificationSpec(high: nat, medium: nat, high': nat, medium': nat)
    requires high <= high' && medium <= medium'
    ensures Rank(SecurityLevelOf(high, medium)) <= Rank(SecurityLevelOf(high', medium'))
    ensures SecurityLevelOf(high, medium) == LevelLow <==> ThreatLevelOf(high) in {ThreatHigh, Critical}
    ensures SecurityLevelOf(high, medium) == LevelHigh <==> ThreatLevelOf(high) == Minimal && medium <= 5
  {
  }

  /** Recent events are the events of the last day, in log order, and the
      two severity counts never exceed the number of recent events. */
  lemma RecentCountsSpec(events: seq<SecurityEvent>, now: int)
    ensures IsSubsequence(RecentEvents(events, now), events)
    ensures forall i :: 0 <= i < |RecentEvents(events, now)| ==> RecentEvents(events, now)[i].timestamp > now - Day
    ensures CountSeverity(RecentEvents(events, now), High) + CountSeverity(RecentEvents(events, now), Medium)
            <= |RecentEvents(events, now)|
  {
    FilterIsSubsequence(events, (e: SecurityEvent) => IsRecent(now, e));
    SeverityCountsBounded(RecentEvents(events, now));
  }

  lemma {:induction false} SeverityCountsBounded(events: seq<SecurityEvent>)
    ensures CountSeverity(events, High) + CountSeverity(events, Medium) <= |events|
  {
    if events != [] {
      SeverityCountsBounded(events[1..]);
    }
  }

  // ---------------------------------------------------------------------
  // Input validation (client/src/lib/security.ts:135-180).

  datatype InputKind = Text | Email | Number | Icao | Time

  datatype Validation = Validation(isValid: bool, sanitized: string, errors: seq<string>)

  /** /^[^\s@]+@[^\s@]+\.[^\s@]+$/: one '@' after a non-empty local part,
      a '.' with text on both sides after it, no whitespace anywhere. */
  predicate EmailMatches(s: string)
  {
    (forall k :: 0 <= k < |s| ==> s[k] != ' ' && !IsRegexSpace(s[k]))
    && exists i :: 0 < i < |s| && s[i] == '@' && EmailAt(s, i)
  }

  predicate EmailAt(s: string, at: int)
    requires 0 <= at < |s|
  {
    (forall k :: 0 <= k < |s| && k != at ==> s[k] != '@')
    && exists j :: at + 1 < j < |s| - 1 && s[j] == '.'
  }

  /** `\s` in a JavaScript regular expression. */
  predicate IsRegexSpace(c: char) { IsJsWhitespace(c) }

  predicate IsMinuteTens(c: char) { '0' <= c <= '5' }

  /** /^([0-1]?[0-9]|2[0-3]):[0-5][0-9]$/ */
  predicate TimeMatches(s: string)
  {
    (|s| == 4 && IsDigit(s[0]) && s[1] == ':' && IsMinuteTens(s[2]) && IsDigit(s[3]))
    || (|s| == 5 && s[2] == ':' && IsMinuteTens(s[3]) && IsDigit(s[4])
        && (('0' <= s[0] <= '1' && IsDigit(s[1])) || (s[0] == '2' && '0' <= s[1] <= '3')))
  }

  /** /^[A-Z]{4}$/ */
  predicate IcaoMatches(s: string)
  {
    |s| == 4 && forall i :: 0 <= i < 4 ==> IsUpperLetter(s[i])
  }

  function ErrorFor(kind: InputKind): string
  {
    match kind
    case Email => "Invalid email format"
    case Icao => "ICAO code must be 4 uppercase letters"
    case Number => "Must be a valid number"
    case Time => "Time must be in HH:MM format"
    case Text => ""
  }

  /** What each kind accepts, on the sanitised (and, for ICAO, uppercased)
      text. `parses` stands for `!isNaN(parseFloat(s))`. */
  predicate Accepts(kind: InputKind, s: string, parses: string -> bool)
  {
    match kind
    case Text => true
    case Email => EmailMatches(s)
    case Icao => IcaoMatches(s)
    case Number => parses(s)
    case Time => TimeMatches(s)
  }

  /** validateInput. `sanitize` is the script / `javascript:` / `on…=`
      stripping. */
  method ValidateInput(input: string, kind: InputKind, sanitize: string -> string,
                       parses: string -> bool) returns (r: Validation)
    ensures r.sanitized == (if kind == Icao then Upper(sanitize(Trim(input))) else sanitize(Trim(input)))
    ensures r.isValid <==> Accepts(kind, r.sanitized, parses)
    ensures r.isValid <==> r.errors == []
    ensures !r.isValid ==> r.errors == [ErrorFor(kind)]
  {
    var errors: seq<string> := [];
    var sanitized := Trim(input);
    sanitized := sanitize(sanitized);
    match kind {
      case Email =>
        if !EmailMatches(sanitized) { errors := errors + ["Invalid email format"]; }
      case Icao =>
        sanitized := Upper(sanitized);
        if !IcaoMatches(sanitized) { errors := errors + ["ICAO code must be 4 uppercase letters"]; }
      case Number =>
        if !parses(sanitized) { errors := errors + ["Must be a valid number"]; }
      case Time =>
        if !TimeMatches(sanitized) { errors := errors + ["Time must be in HH:MM format"]; }
      case Text =>
    }
    r := Validation(|errors| == 0, sanitized, errors);
  }

  /** The hour and minute a matching time string denotes. */
  function TimeValue(s: string): (int, int)
    requires TimeMatches(s)
  {
    if |s| == 4 then (DigitValue(s[0]), 10 * DigitValue(s[2]) + DigitValue(s[3]))
    else (10 * DigitValue(s[0]) + DigitValue(s[1]), 10 * DigitValue(s[3]) + DigitValue(s[4]))
  }

  /** Every accepted time is a clock time, and every clock time written
      as HH:MM or H:MM is accepted. */
  lemma TimeMatchesSpec(s: string)
    ensures TimeMatches(s) ==> 0 <= TimeValue(s).0 < 24 && 0 <= TimeValue(s).1 < 60
  {
  }

  lemma TimeAcceptsClockTimes(h: nat, m: nat)
    requires h < 24 && m < 60
    ensures TimeMatches(Pad2(NatToString(h)) + ":" + Pad2(NatToString(m)))
    ensures h < 10 ==> TimeMatches(NatToString(h) + ":" + Pad2(NatToString(m)))
  {
    PaddedDigits(h);
    PaddedDigits(m);
    var hh := Pad2(NatToString(h));
    var mm := Pad2(NatToString(m));
    var t := hh + ":" + mm;
    assert t[0] == hh[0] && t[1] == hh[1] && t[2] == ':' && t[3] == mm[0] && t[4] == mm[1];
    if h < 10 {
      var u := NatToString(h) + ":" + mm;
      assert u[0] == DigitChar(h) && u[1] == ':' && u[2] == mm[0] && u[3] == mm[1];
    }
  }

  /** A number below 100 padded to two places is its tens digit then its
      units digit. */
  lemma PaddedDigits(n: nat)
    requires n < 100
    ensures n < 10 ==> NatToString(n) == [DigitChar(n)]
    ensures var p := Pad2(NatToString(n));
            |p| == 2 && p[0] == DigitChar(n / 10) && p[1] == DigitChar(n % 10)
  {
    if n >= 10 {
      assert NatToString(n) == NatToString(n / 10) + [DigitChar(n % 10)];
    }
  }

  lemma TimeExamples()
    ensures TimeMatches("23:59") && TimeMatches("9:05") && TimeMatches("00:00")
    ensures !TimeMatches("24:00") && !TimeMatches("9:5") && !TimeMatches("12:60")
  {
  }

  // ---------------------------------------------------------------------
  // The manager.

  class SecurityManager {
    var securityEvents: seq<SecurityEvent>
    var currentSession: Option<UserSession>

    ghost predicate Valid()
      reads this
    {
      |securityEvents| <= MaxEvents
    }

    /** initialize: the biometric probe, the monitoring start and the new
        session each log a low-severity SESSION_START event, and a fourth
        one announces the framework once the session is open. */
    constructor(now: int, hasWebAuthn: bool, ids: (string, string, string, string), sessionId: string)
      ensures Valid()
      ensures currentSession == Some(UserSession(sessionId, now, now, true))
      ensures securityEvents == [
        SecurityEvent(ids.3, now, "SESSION_START", "Security framework initialized with full feature set", Low),
        SecurityEvent(ids.2, now, "SESSION_START", "New session initialized", Low),
        SecurityEvent(ids.1, now, "SESSION_START", "Network request validation initialized", Low),
        SecurityEvent(ids.0, now, "SESSION_START",
                      if hasWebAuthn then "Biometric authentication available and initialized"
                      else "Biometric authentication not available", Low)]
    {
      securityEvents := [];
      currentSession := None;
      new;
      var biometric := SecurityEvent(ids.0, now, "SESSION_START",
                                     if hasWebAuthn then "Biometric authentication available and initialized"
                                     else "Biometric authentication not available", Low);
      var network := SecurityEvent(ids.1, now, "SESSION_START", "Network request validation initialized", Low);
      var session := SecurityEvent(ids.2, now, "SESSION_START", "New session initialized", Low);
      var framework := SecurityEvent(ids.3, now, "SESSION_START", "Security framework initialized with full feature set", Low);
      LoggedBelowCap([], biometric);
      LogSecurityEvent(biometric.id, now, biometric.eventType, biometric.details, Low);
      LoggedBelowCap([biometric], network);
      LogSecurityEvent(network.id, now, network.eventType, network.details, Low);
      currentSession := Some(UserSession(sessionId, now, now, true));
      LoggedBelowCap([network, biometric], session);
      LogSecurityEvent(session.id, now, session.eventType, session.details, Low);
      LoggedBelowCap([session, network, biometric], framework);
      LogSecurityEvent(framework.id, now, framework.eventType, framework.details, Low);
    }

    method LogSecurityEvent(id: string, now: int, eventType: string, details: string, severity: Severity)
      requires Valid()
      modifies this
      ensures Valid()
      ensures securityEvents == Logged(old(securityEvents), SecurityEvent(id, now, eventType, details, severity))
      ensures currentSession == old(currentSession)
    {
      securityEvents := [SecurityEvent(id, now, eventType, details, severity)] + securityEvents;
      if |securityEvents| > MaxEvents {
        securityEvents := securityEvents[..MaxEvents];
      }
    }

    /** validateSession: more than 30 minutes without activity invalidates
        the session and logs a medium SESSION_TIMEOUT event. */
    method ValidateSession(now: int, id: string) returns (ok: bool)
      requires Valid()
      modifies this
      ensures Valid()
      ensures ok <==> old(currentSession).Some? && now - old(currentSession).value.lastActivity <= SessionTimeout
      ensures old(currentSession).Some? && !ok ==>
                && currentSession == Some(old(currentSession).value.(valid := false))
                && securityEvents == Logged(old(securityEvents),
                     SecurityEvent(id, now, "SESSION_TIMEOUT", "Session expired due to inactivity", Medium))
      ensures old(currentSession).None? || ok ==> unchanged(this)
    {
      if currentSession.None? {
        return false;
      }
      if now - currentSession.value.lastActivity > SessionTimeout {
        currentSession := Some(currentSession.value.(valid := false));
        LogSecurityEvent(id, now, "SESSION_TIMEOUT", "Session expired due to inactivity", Medium);
        return false;
      }
      return true;
    }

    /** getSecurityStatus. The counts are taken before validateSession
        runs, so a timeout event it logs is not counted; the session and
        the log change exactly as validateSession changes them. */
    method GetSecurityStatus(now: int, id: string, biometric: bool) returns (st: SecurityStatus)
      requires Valid()
      modifies this
      ensures Valid()
      ensures var recent := RecentEvents(old(securityEvents), now);
              var high := CountSeverity(recent, High);
              var medium := CountSeverity(recent, Medium);
              && st.securityLevel == SecurityLevelOf(high, medium)
              && st.threatLevel == ThreatLevelOf(high)
              && st.activeThreats == high + medium
      ensures st.sessionValid <==> old(currentSession).Some? && now - old(currentSession).value.lastActivity <= SessionTimeout
      ensures st.biometricSupported == biometric && st.implementedFeatures == ImplementedFeatureCount
      ensures st.lastActivity == if currentSession.Some? then Some(currentSession.value.lastActivity) else None
      ensures old(currentSession).Some? && !st.sessionValid ==>
                && currentSession == Some(old(currentSession).value.(valid := false))
                && securityEvents == Logged(old(securityEvents),
                     SecurityEvent(id, now, "SESSION_TIMEOUT", "Session expired due to inactivity", Medium))
      ensures old(currentSession).None? || st.sessionValid ==> unchanged(this)
    {
      var recent := RecentEvents(securityEvents, now);
      var high := CountSeverity(recent, High);
      var medium := CountSeverity(recent, Medium);
      var level := SecurityLevelOf(high, medium);
      var valid := ValidateSession(now, id);
      var last := if currentSession.Some? then Some(currentSession.value.lastActivity) else None;
      st := SecurityStatus(level, valid, biometric, last, ImplementedFeatureCount,
                           ThreatLevelOf(high), high + medium);
    }

    /** getAuditLog hands out a copy: a fresh array the caller may change
        without touching the log. */
    method GetAuditLog() returns (log: array<SecurityEvent>)
      ensures fresh(log)
      ensures log[..] == securityEvents
    {
      log := new SecurityEvent[|securityEvents|](i requires 0 <= i < |securityEvents| reads this => securityEvents[i]);
    }

    method UpdateActivity(now: int)
      modifies this
      ensures securityEvents == old(securityEvents)
      ensures currentSession == if old(currentSession).Some? then Some(old(currentSession).value.(lastActivity := now))
                                else None
    {
      if currentSession.Some? {
        currentSession := Some(currentSession.value.(lastActivity := now));
      }
    }

    /** triggerEmergencyWipe, with the browser stores out of the model: the
        session is dropped and the log holds only the wipe event. */
    method TriggerEmergencyWipe(id: string, now: int) returns (ok: bool)
      requires Valid()
      modifies this
      ensures Valid()
      ensures ok
      ensures currentSession == None
      ensures securityEvents == [SecurityEvent(id, now, "EMERGENCY_WIPE",
                                               "Emergency data wipe completed successfully", High)]
    {
      currentSession := None;
      securityEvents := [];
      LogSecurityEvent(id, now, "EMERGENCY_WIPE", "Emergency data wipe completed successfully", High);
      return true;
    }
  }

  /** After a wipe the status counts exactly one high-severity event while
      it is recent: security level high, threat level minimal. */
  lemma WipedStatus(id: string, at: int, now: int)
    requires at > now - Day
    ensures var log := [SecurityEvent(id, at, "EMERGENCY_WIPE", "Emergency data wipe completed successfully", High)];
            var recent := RecentEvents(log, now);
            && CountSeverity(recent, High) == 1
            && SecurityLevelOf(CountSeverity(recent, High), CountSeverity(recent, Medium)) == LevelHigh
            && ThreatLevelOf(CountSeverity(recent, High)) == Minimal
  {
    var log := [SecurityEvent(id, at, "EMERGENCY_WIPE", "Emergency data wipe completed successfully", High)];
    assert IsRecent(now, log[0]);
    FilterAll(log, (e: SecurityEvent) => IsRecent(now, e));
    assert log[1..] == [];
    assert CountSeverity(log, Medium) == 0;
  }
}
