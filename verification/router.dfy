/** The first step of `ask_agent`: the router model's reply is upper-cased and
    searched for the agent labels in a fixed order; the first label found
    picks the agent, and a reply with none of them falls back to general
    conversation. */
module Router {
  import opened Results
  import opened Text

  /** The three specialised agents, in the order their labels are tried. */
  datatype Agent = WeatherAgent | DomoAgent | PersonalAgent

  /** The label the router is told to answer with. */
  function Label(a: Agent): string
  {
    match a
    case WeatherAgent => "WEATHER_AGENT"
    case DomoAgent => "DOMO_AGENT"
    case PersonalAgent => "PERSONAL_AGENT"
  }

  /** Position of the agent's label in the order of the checks. */
  function Rank(a: Agent): nat
  {
    match a
    case WeatherAgent => 0
    case DomoAgent => 1
    case PersonalAgent => 2
  }

  /** The agent's technical name, as reported in "Handled by ...". The
      personal-data agent is the one built as the news analyst. */
  function AgentName(a: Agent): string
  {
    match a
    case WeatherAgent => "WeatherExpert"
    case DomoAgent => "HomeAutomation"
    case PersonalAgent => "NewsAnalyst"
  }

  /** The upper-cased reply contains the agent's label. */
  predicate Mentions(reply: string, a: Agent)
  {
    Contains(Upper(reply), Label(a))
  }

  /** The routing decision: the mentioned agent that comes first in the
      order of the checks, or none when no label is mentioned. */
  function Route(reply: string): (r: Option<Agent>)
    ensures r.None? <==> forall a :: !Mentions(reply, a)
    ensures r.Some? ==> Mentions(reply, r.value)
    ensures r.Some? ==> forall a :: Mentions(reply, a) ==> Rank(r.value) <= Rank(a)
  {
    if Mentions(reply, WeatherAgent) then Some(WeatherAgent)
    else if Mentions(reply, DomoAgent) then Some(DomoAgent)
    else if Mentions(reply, PersonalAgent) then Some(PersonalAgent)
    else None
  }

  lemma LabelNoLower(a: Agent)
    ensures NoLower(Label(a))
  {
  }

  /** Routing ignores case: an agent is mentioned exactly when its label
      occurs somewhere in the raw reply with letters in either case, so the
      router picks an agent exactly when some label occurs that way. */
  lemma RouteIgnoresCase(reply: string)
    ensures forall a :: Mentions(reply, a) <==> exists i :: OccursIgnoringCaseAt(reply, Label(a), i)
    ensures Route(reply).Some? <==> exists a, i :: OccursIgnoringCaseAt(reply, Label(a), i)
  {
    forall a
      ensures Mentions(reply, a) <==> exists i :: OccursIgnoringCaseAt(reply, Label(a), i)
    {
      LabelNoLower(a);
      UpperContainsIff(reply, Label(a));
    }
  }

  /** A reply naming several agents goes to the first one checked: weather
      before home automation before personal data. */
  lemma WeatherWinsOverDomo(reply: string)
    requires Mentions(reply, WeatherAgent)
    ensures Route(reply) == Some(WeatherAgent)
  {
  }

  /** A reply shorter than every label, such as "GENERAL", which the router
      is told to answer for anything else, routes to no agent. */
  lemma {:induction false} ShortRepliesRouteNowhere(reply: string)
    requires |reply| < 10
    ensures Route(reply).None?
  {
    forall a
      ensures !Mentions(reply, a)
    {
      ContainsIff(Upper(reply), Label(a));
      assert |Upper(reply)| < |Label(a)|;
    }
  }
}
