/**
 * The routing decision of src/services/agent-router.ts: the lower-cased local part of
 * the recipient is looked up in a fixed registry, and unknown names go to the Info agent.
 */
module AgentRouter {
  import opened Wrappers
  import opened Text
  import opened EmailTypes
  import opened Personas
  import EmailParser

  /** `AGENT_REGISTRY`, in insertion order. */
  const AgentRegistry: seq<(string, AgentKind)> := [("echo", Echo), ("info", Info)]

  /** `Map.get` on a registry whose keys are distinct: the entry with that key, if any. */
  function Lookup(registry: seq<(string, AgentKind)>, key: string): (r: Option<AgentKind>)
    ensures r.Some? <==> exists i :: 0 <= i < |registry| && registry[i].0 == key
    ensures r.Some? ==> exists i :: 0 <= i < |registry| && registry[i] == (key, r.value)
  {
    if |registry| == 0 then None
    else if registry[0].0 == key then Some(registry[0].1)
    else
      var r := Lookup(registry[1..], key);
      assert forall i :: 0 < i < |registry| ==> registry[i] == registry[1..][i - 1];
      r
  }

  /** `routeToAgent`: the registered agent for the local part of `to`, else the Info agent. */
  function RouteToAgent(email: ParsedEmail): (r: AgentKind)
    ensures r == Echo <==> EmailParser.ExtractAgentName(email.to) == "echo"
    ensures r == Info <==> EmailParser.ExtractAgentName(email.to) != "echo"
  {
    match Lookup(AgentRegistry, EmailParser.ExtractAgentName(email.to))
    case Some(kind) => kind
    case None => Info
  }

  /** `isBuiltInAgent`: a registry key, compared after lower-casing. */
  function IsBuiltInAgent(agentName: string): (r: bool)
    ensures r <==> Lower(agentName) == "echo" || Lower(agentName) == "info"
  {
    Lookup(AgentRegistry, Lower(agentName)).Some?
  }

  /** `getBuiltInAgentNames`: the registry's keys in insertion order. */
  function BuiltInAgentNames(): (r: seq<string>)
    ensures |r| == |AgentRegistry|
    ensures forall i :: 0 <= i < |r| ==> r[i] == AgentRegistry[i].0
  {
    seq(|AgentRegistry|, i requires 0 <= i < |AgentRegistry| => AgentRegistry[i].0)
  }

  /** The built-in names are exactly the two registered agents, echo first. */
  lemma BuiltInNamesAreEchoAndInfo()
    ensures BuiltInAgentNames() == ["echo", "info"]
    ensures forall name :: name in BuiltInAgentNames() ==> IsBuiltInAgent(name)
  {
    assert BuiltInAgentNames()[0] == "echo" && BuiltInAgentNames()[1] == "info";
  }

  /** Only the local part decides: two recipients with the same local part route alike. */
  lemma RouteIgnoresDomain(email: ParsedEmail, local: string, domain1: string, domain2: string)
    requires '@' !in local
    ensures RouteToAgent(email.(to := local + "@" + domain1)) == RouteToAgent(email.(to := local + "@" + domain2))
  {
    EmailParser.LocalPartOfAddress(local, domain1);
    EmailParser.LocalPartOfAddress(local, domain2);
  }

  /** `Echo@…`, `ECHO@…`: the case of the local part does not matter. */
  lemma RouteIgnoresCase(email: ParsedEmail, local: string, domain: string)
    requires '@' !in local
    ensures RouteToAgent(email.(to := local + "@" + domain)) == RouteToAgent(email.(to := Lower(local) + "@" + domain))
  {
    EmailParser.LocalPartOfAddress(local, domain);
    EmailParser.LocalPartOfAddress(Lower(local), domain);
    LowerIdempotent(local);
  }

  /**
   * An email sent to a fixed agent's own address reaches that agent for Echo and Info; the
   * Research and Summarize addresses are not registered and reach the Info agent.
   */
  lemma {:induction false} RouteOfAgentAddress(email: ParsedEmail, kind: AgentKind, domain: string)
    ensures RouteToAgent(email.(to := AgentAddress(kind, domain))) == if kind == Echo then Echo else Info
  {
    EmailParser.LocalPartOfAddress(LocalName(kind), domain);
    assert AgentAddress(kind, domain) == LocalName(kind) + "@" + domain;
    if kind != Echo {
      assert LocalName(kind) != "echo" by {
        assert LocalName(kind)[0] != 'e' || |LocalName(kind)| != 4;
      }
    }
  }
}
