/** The defense agent: carries out a decision symbolically and keeps an
    append-only log with one entry per action taken.

    The wall-clock timestamp and the source address are parameters; the log
    line's text is abstracted to its timestamp, kind and source. */
module DefenseAgent {
  import opened DecisionAgent

  datatype Status = LightsOn | RestrictedTwoFactor | HoneypotActivated

  datatype LogKind = AuthenticAllowed | SuspiciousRestricted | DeepfakeHoneypot

  datatype LogEntry = LogEntry(timestamp: string, kind: LogKind, source: string)

  datatype DefenseOutcome = DefenseOutcome(status: Status, honeypot: bool, log: LogEntry)

  /** The agent's state: its log, oldest entry first. */
  datatype Defender = Defender(logs: seq<LogEntry>)

  const NewDefender: Defender := Defender([])

  /** The source address used when the caller gives none. */
  const DefaultSource: string := "192.168.1.100"

  /** One call of `act`: its outcome and the agent afterwards. */
  datatype Acted = Acted(outcome: DefenseOutcome, agent: Defender)

  /** The log after `act` is the log before with one entry appended. */
  predicate AppendsOne(before: Defender, after: Defender, entry: LogEntry)
  {
    && |after.logs| == |before.logs| + 1
    && after.logs[..|before.logs|] == before.logs
    && after.logs[|before.logs|] == entry
  }

  /** Allow turns the lights on, Restrict demands a second factor, anything
      else engages the honeypot; whichever branch runs, exactly one entry
      describing it is appended to the log. */
  function Act(agent: Defender, d: Decision, source: string, timestamp: string): (r: Acted)
    ensures AppendsOne(agent, r.agent, r.outcome.log)
    ensures r.outcome.log.source == source && r.outcome.log.timestamp == timestamp
    ensures r.outcome.honeypot <==> d.action == Deceive
    ensures r.outcome.status == LightsOn <==> d.action == Allow
    ensures r.outcome.status == RestrictedTwoFactor <==> d.action == Restrict
    ensures r.outcome.log.kind == AuthenticAllowed <==> d.action == Allow
    ensures r.outcome.log.kind == SuspiciousRestricted <==> d.action == Restrict
    ensures r.outcome.log.kind == DeepfakeHoneypot <==> r.outcome.honeypot
  {
    var outcome :=
      match d.action
      case Allow =>
        DefenseOutcome(LightsOn, false, LogEntry(timestamp, AuthenticAllowed, source))
      case Restrict =>
        DefenseOutcome(RestrictedTwoFactor, false, LogEntry(timestamp, SuspiciousRestricted, source))
      case Deceive =>
        DefenseOutcome(HoneypotActivated, true, LogEntry(timestamp, DeepfakeHoneypot, source));
    Acted(outcome, Defender(agent.logs + [outcome.log]))
  }

  /** One request to the same agent: a decision, where it came from, and the
      time it is handled. */
  datatype Request = Request(decision: Decision, source: string, timestamp: string)

  /** Repeated calls of `act` on one agent: the log grows by exactly one
      entry per call, earlier entries never change, and the new entries
      appear in call order. */
  method ActAll(agent: Defender, requests: seq<Request>) returns (outcomes: seq<DefenseOutcome>, after: Defender)
    ensures |outcomes| == |requests|
    ensures |after.logs| == |agent.logs| + |requests|
    ensures after.logs[..|agent.logs|] == agent.logs
    ensures forall i :: 0 <= i < |requests| ==>
              && after.logs[|agent.logs| + i] == outcomes[i].log
              && outcomes[i].log.source == requests[i].source
              && outcomes[i].log.timestamp == requests[i].timestamp
              && (outcomes[i].honeypot <==> requests[i].decision.action == Deceive)
              && outcomes[i] == Act(agent, requests[i].decision, requests[i].source, requests[i].timestamp).outcome
  {
    outcomes := [];
    after := agent;
    var n := |agent.logs|;
    for i := 0 to |requests|
      invariant |outcomes| == i
      invariant |after.logs| == n + i
      invariant after.logs[..n] == agent.logs
      invariant forall k :: 0 <= k < i ==>
                  && after.logs[n + k] == outcomes[k].log
                  && outcomes[k].log.source == requests[k].source
                  && outcomes[k].log.timestamp == requests[k].timestamp
                  && (outcomes[k].honeypot <==> requests[k].decision.action == Deceive)
                  && outcomes[k] == Act(agent, requests[k].decision, requests[k].source, requests[k].timestamp).outcome
    {
      var req := requests[i];
      var acted := Act(after, req.decision, req.source, req.timestamp);
      assert acted.agent.logs[..n + i] == after.logs;
      assert acted.agent.logs[..n] == after.logs[..n];
      outcomes := outcomes + [acted.outcome];
      after := acted.agent;
    }
  }
}
