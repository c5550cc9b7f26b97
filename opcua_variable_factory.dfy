/** The process-wide registry of OPC UA variables, keyed by client and node.
    The static `cache` of the source is the state of one `OpcUaVariableFactory`
    object. */
module OpcUaVariableFactories {
  import opened Values
  import opened OpcUaVariables

  type Registry = map<OpcUaClient, map<NodeId, OpcUaVariable>>

  /** `(client, nodeId)` has been registered. */
  predicate Registered(cache: Registry, client: OpcUaClient, nodeId: NodeId) {
    client in cache && nodeId in cache[client]
  }

  /** Every registration of `before` is still in `after`, to the same variable. */
  predicate Extends(before: Registry, after: Registry) {
    forall client, nodeId | client in before && nodeId in before[client] ::
      Registered(after, client, nodeId) && after[client][nodeId] == before[client][nodeId]
  }

  /** The node map of one client, empty when the client is unknown
      (`computeIfAbsent(client, k -> new HashMap<>())`). */
  function NodesOf(cache: Registry, client: OpcUaClient): map<NodeId, OpcUaVariable> {
    if client in cache then cache[client] else map[]
  }

  class OpcUaVariableFactory {
    var cache: Registry

    constructor ()
      ensures cache == map[]
    {
      cache := map[];
    }

    /** `createIfNonexistent`: the first registration of `(client, nodeId)` wins;
        the data type and duration of later calls are ignored. */
    method CreateIfNonexistent(client: OpcUaClient, nodeId: NodeId, dataType: JavaClass, cacheDuration: nat)
      returns (v: OpcUaVariable)
      modifies this
      ensures Registered(cache, client, nodeId) && cache[client][nodeId] == v
      ensures Registered(old(cache), client, nodeId) ==> v == old(cache)[client][nodeId] && cache == old(cache)
      ensures !Registered(old(cache), client, nodeId) ==>
        && fresh(v)
        && v.client == client && v.nodeId == nodeId
        && v.dataType == dataType && v.cacheDuration == cacheDuration
        && v.cacheTimestamp == Min && v.cachedValue == Null
        && cache == old(cache)[client := NodesOf(old(cache), client)[nodeId := v]]
      ensures Extends(old(cache), cache)
      ensures forall c, n :: Registered(cache, c, n) && (c != client || n != nodeId) ==>
        Registered(old(cache), c, n)
    {
      var nodes := NodesOf(cache, client);
      if nodeId in nodes {
        v := nodes[nodeId];
      } else {
        v := Create(client, nodeId, dataType, cacheDuration);
        cache := cache[client := nodes[nodeId := v]];
      }
    }

    /** `create`: always a new, never-fetched variable; the registry is neither
        read nor changed. */
    static method Create(client: OpcUaClient, nodeId: NodeId, dataType: JavaClass, cacheDuration: nat)
      returns (v: OpcUaVariable)
      ensures fresh(v)
      ensures v.client == client && v.nodeId == nodeId
      ensures v.dataType == dataType && v.cacheDuration == cacheDuration
      ensures v.cacheTimestamp == Min && v.cachedValue == Null
    {
      v := new OpcUaVariable(client, nodeId, dataType, cacheDuration);
    }
  }

  /** Entries are never removed: a registry reached by any sequence of calls
      extends every earlier one. */
  lemma ExtendsTransitive(a: Registry, b: Registry, c: Registry)
    requires Extends(a, b) && Extends(b, c)
    ensures Extends(a, c)
  {
  }

  /** A second registration of the same node with another type and duration
      yields the first variable, still configured as the first call asked. */
  method FirstRegistrationWins(node: NodeId, firstType: JavaClass, firstTtl: nat, laterType: JavaClass, laterTtl: nat)
    returns (same: bool, dataType: JavaClass, ttl: nat, fresher: bool)
    ensures same && dataType == firstType && ttl == firstTtl
    ensures !fresher
  {
    var client := new OpcUaClient("opc.tcp://localhost:4840");
    var factory := new OpcUaVariableFactory();
    var v1 := factory.CreateIfNonexistent(client, node, firstType, firstTtl);
    var v2 := factory.CreateIfNonexistent(client, node, laterType, laterTtl);
    var v3 := OpcUaVariableFactory.Create(client, node, laterType, laterTtl);
    same := v1 == v2;
    dataType, ttl := v2.dataType, v2.cacheDuration;
    fresher := v3 == v1;
  }
}
