/**
  What the three locked registry operations of the gateway do to the agents map
  (internal/gateway/proxy/proxy.go), for any type of connection.
 */
module Registry {
  import opened Types

  function Registered<C>(registry: map<AgentId, C>, id: AgentId, c: C): map<AgentId, C> {
    registry[id := c]
  }

  /** The connection that registering c under id replaces, and therefore closes. */
  function Displaced<C(==)>(registry: map<AgentId, C>, id: AgentId, c: C): Option<C> {
    if id in registry && registry[id] != c then Some(registry[id]) else None
  }

  function Unregistered<C>(registry: map<AgentId, C>, id: AgentId): map<AgentId, C> {
    registry - {id}
  }

  function Lookup<C>(registry: map<AgentId, C>, id: AgentId): Option<C> {
    if id in registry then Some(registry[id]) else None
  }
}
