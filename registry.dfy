/** The static service table `SERVICE_CONFIGS` (router_profiles_enhanced.py,
    lines 33-150): one entry per commerce service, in registry order
    dominos, opentable, uber. The order is observable: the intent classifier
    scans the entries in this order and the first match wins. */
module Registry {
  import opened Wrappers

  /** The tag the classifier returns when no service keyword matches. */
  const General := "general"

  /** The tool server ("mcp_config") attached to a completion call. Only its
      kind and name are kept; the endpoint URL is not part of this model. */
  datatype ToolServer = ToolServer(kind: string, name: string)

  /** One service entry. `toolServer` is `None` for an entry without an
      "mcp_config" key; every registered entry has one. */
  datatype ServiceConfig = ServiceConfig(
    tag: string,
    keywords: seq<string>,
    toolServer: Option<ToolServer>,
    description: string,
    systemPrompt: string)

  const DominosPrompt := "You are a helpful Domino's Pizza assistant. Help users find stores, browse menus, create orders, and complete purchases. Always ask for required information like address, contact details, and payment when needed."
  const OpenTablePrompt := "You are a helpful OpenTable restaurant reservation assistant. Help users find restaurants, check availability, and make reservations. Always ask for required information like location, date, time, party size, and special requests when needed. You can search restaurants, check availability, book reservations, and manage existing reservations."
  const UberPrompt := "You are a helpful Uber ride booking assistant. Help users book rides, get estimates, and manage transportation needs. Always collect required information like pickup/dropoff addresses, rider name, and phone number."

  const Dominos := ServiceConfig(
    "dominos",
    ["pizza", "dominos", "domino's", "order food", "hungry", "pepperoni", "cheese", "delivery"],
    Some(ToolServer("url", "dominos-mcp")),
    "Domino's Pizza ordering service",
    DominosPrompt)

  const OpenTable := ServiceConfig(
    "opentable",
    ["restaurant", "reservation", "book table", "dinner", "lunch", "opentable", "reserve", "table for", "dining", "eat out"],
    Some(ToolServer("url", "opentable-mcp")),
    "OpenTable restaurant reservation service",
    OpenTablePrompt)

  const Uber := ServiceConfig(
    "uber",
    ["uber", "ride", "taxi", "car", "transport", "pickup", "drop off", "book ride", "schedule ride", "transportation", "driver", "trip", "travel", "airport", "commute"],
    Some(ToolServer("url", "uber-central-mcp")),
    "Uber ride booking and management service",
    UberPrompt)

  /** The registry in insertion order. */
  function Services(): seq<ServiceConfig> {
    [Dominos, OpenTable, Uber]
  }

  /** `SERVICE_CONFIGS.keys()`, in order. */
  function Tags(): seq<string> {
    ["dominos", "opentable", "uber"]
  }

  /** `tag in SERVICE_CONFIGS`. */
  predicate IsRegistered(tag: string) {
    tag in Tags()
  }

  /** `SERVICE_CONFIGS[tag]`: the entry registered under `tag`. */
  function Lookup(tag: string): (c: ServiceConfig)
    requires IsRegistered(tag)
    ensures c in Services() && c.tag == tag
    ensures c.toolServer.Some?
  {
    if tag == "dominos" then Dominos else if tag == "opentable" then OpenTable else Uber
  }

  /** The registry's shape: its tags are `Tags()` in order, pairwise
      distinct, none of them is "general", and every entry carries a tool
      server. */
  lemma RegistryShape()
    ensures |Services()| == |Tags()| == 3
    ensures forall i :: 0 <= i < |Services()| ==> Services()[i].tag == Tags()[i]
    ensures forall i, j :: 0 <= i < j < |Tags()| ==> Tags()[i] != Tags()[j]
    ensures !IsRegistered(General)
    ensures forall c :: c in Services() ==> c.toolServer.Some?
  {
  }
}
