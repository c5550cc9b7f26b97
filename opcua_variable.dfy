/** A single remote OPC UA variable read and written through a client, with a
    time-to-live cache for reads and a type check on both directions. */
module OpcUaVariables {
  import opened Lang
  import opened Values

  /** java.time.Instant on an integer clock. `Min` is Instant.MIN, the stamp of a
      variable that has never been fetched: it is older than any cache window. */
  datatype Instant = Min | At(ticks: int)

  /** The cache rule `cacheTimestamp.plus(cacheDuration).isAfter(now)`. */
  function CacheValid(timestamp: Instant, cacheDuration: nat, now: int): (valid: bool)
    // a variable that was never fetched is always stale
    ensures timestamp.Min? ==> !valid
    // valid exactly while the clock is before the end of the window, which
    // includes a clock that is behind the stamp
    ensures valid <==> timestamp.At? && now < timestamp.ticks + cacheDuration
    // ... and expired exactly at its end
    ensures timestamp.At? && now == timestamp.ticks + cacheDuration ==> !valid
    // valid during the whole window that starts at the stamp
    ensures timestamp.At? && timestamp.ticks <= now < timestamp.ticks + cacheDuration ==> valid
    // a zero duration never caches, unless the clock goes backwards
    ensures cacheDuration == 0 && timestamp.At? && timestamp.ticks <= now ==> !valid
  {
    match timestamp
    case Min => false
    case At(t) => t + cacheDuration > now
  }

  /** `value.getClass() == dataType`, which throws on a null value. */
  function IsCorrectType(dataType: JavaClass, value: Value): (r: Result<bool>)
    ensures r.Err? <==> value.Null?
    ensures r.Err? ==> r.error == NullPointerException
    ensures r.Ok? ==> (r.value <==> ClassOf(value) == Some(dataType))
  {
    match ClassOf(value)
    case None => Err(NullPointerException)
    case Some(c) => Ok(c == dataType)
  }

  predicate IsUnsignedClass(c: JavaClass) {
    c.UnsignedByteClass? || c.UnsignedShortClass? || c.UnsignedIntegerClass? || c.UnsignedLongClass?
  }

  /** The widening table of `mapUnsignedToBaSyx`: each unsigned wrapper goes to
      the next wider signed JVM type, the widest one to BigInteger; every other
      class stays. */
  function WidenedClass(c: JavaClass): JavaClass {
    match c
    case UnsignedByteClass => ShortClass
    case UnsignedShortClass => IntegerClass
    case UnsignedIntegerClass => LongClass
    case UnsignedLongClass => BigIntegerClass
    case _ => c
  }

  /** `mapUnsignedToBaSyx`: converts a value read from the server. The casts in
      the source succeed because the caller has checked the value's class. */
  function MapUnsignedToBaSyx(dataType: JavaClass, value: Value): (r: Value)
    requires ClassOf(value) == Some(dataType)
    ensures ClassOf(r) == Some(WidenedClass(dataType))
    ensures NumericValue(r) == NumericValue(value)
    ensures WellFormed(value) ==> WellFormed(r)
    ensures !IsUnsignedClass(dataType) ==> r == value
  {
    if dataType == UnsignedByteClass then Short(value.n)
    else if dataType == UnsignedShortClass then Integer(value.n)
    else if dataType == UnsignedIntegerClass then Long(value.n)
    else if dataType == UnsignedLongClass then BigInteger(value.n)
    else value
  }

  /** `mapBaSyxToUnsigned`: meant to undo the conversion before a write, but its
      code is the same table as `MapUnsignedToBaSyx`, so it widens again. */
  function MapBaSyxToUnsigned(dataType: JavaClass, value: Value): (r: Value)
    requires ClassOf(value) == Some(dataType)
    ensures ClassOf(r) == Some(WidenedClass(dataType))
    ensures NumericValue(r) == NumericValue(value)
    ensures !IsUnsignedClass(dataType) ==> r == value
  {
    if dataType == UnsignedByteClass then Short(value.n)
    else if dataType == UnsignedShortClass then Integer(value.n)
    else if dataType == UnsignedIntegerClass then Long(value.n)
    else if dataType == UnsignedLongClass then BigInteger(value.n)
    else value
  }

  /** The value handed to the client on a write of a correctly typed unsigned
      value does not have the class the variable declares. */
  lemma WrittenUnsignedValueChangesClass(dataType: JavaClass, value: Value)
    requires ClassOf(value) == Some(dataType) && IsUnsignedClass(dataType)
    ensures MapBaSyxToUnsigned(dataType, value) == MapUnsignedToBaSyx(dataType, value)
    ensures IsCorrectType(dataType, MapBaSyxToUnsigned(dataType, value)) == Ok(false)
  {
  }

  /** What `fetchValue` makes of the server's answer: the converted value, or the
      exception it throws (the client's own, a NullPointerException for a null
      answer, a ProviderException for an answer of the wrong class). */
  function Received(dataType: JavaClass, response: Result<Value>): (r: Result<Value>)
    ensures response.Err? ==> r == response
    ensures response.Ok? && response.value.Null? ==> r == Err(NullPointerException)
    ensures response.Ok? && !response.value.Null? && ClassOf(response.value) != Some(dataType)
            ==> r == Err(ProviderException)
    ensures r.Ok? <==> response.Ok? && ClassOf(response.value) == Some(dataType)
    ensures r.Ok? ==> r.value == MapUnsignedToBaSyx(dataType, response.value)
  {
    match response
    case Err(e) => Err(e)
    case Ok(v) =>
      match IsCorrectType(dataType, v)
      case Err(e) => Err(e)
      case Ok(correct) =>
        if correct then Ok(MapUnsignedToBaSyx(dataType, v)) else Err(ProviderException)
  }

  /** The OPC UA client as this core sees it: `readValue` and `writeValue` on a
      node, each answered by the server. The answer is a parameter; every call
      is recorded, in order, so that callers can tell which calls were made. */
  class OpcUaClient {
    const endpoint: string
    var readCalls: seq<NodeId>
    var writeCalls: seq<(NodeId, Value)>

    constructor (endpoint: string)
      ensures this.endpoint == endpoint && readCalls == [] && writeCalls == []
    {
      this.endpoint := endpoint;
      readCalls, writeCalls := [], [];
    }

    method ReadValue(nodeId: NodeId, response: Result<Value>) returns (r: Result<Value>)
      modifies this
      ensures r == response
      ensures readCalls == old(readCalls) + [nodeId] && writeCalls == old(writeCalls)
    {
      readCalls := readCalls + [nodeId];
      r := response;
    }

    method WriteValue(nodeId: NodeId, value: Value, response: Outcome) returns (o: Outcome)
      modifies this
      ensures o == response
      ensures writeCalls == old(writeCalls) + [(nodeId, value)] && readCalls == old(readCalls)
    {
      writeCalls := writeCalls + [(nodeId, value)];
      o := response;
    }
  }

  class OpcUaVariable {
    const client: OpcUaClient
    const nodeId: NodeId
    const dataType: JavaClass
    const cacheDuration: nat
    var cacheTimestamp: Instant
    var cachedValue: Value

    /** The four-argument constructor. */
    constructor (client: OpcUaClient, nodeId: NodeId, dataType: JavaClass, cacheDuration: nat)
      ensures this.client == client && this.nodeId == nodeId
      ensures this.dataType == dataType && this.cacheDuration == cacheDuration
      ensures cacheTimestamp == Min && cachedValue == Null
    {
      this.client := client;
      this.nodeId := nodeId;
      this.dataType := dataType;
      this.cacheDuration := cacheDuration;
      cacheTimestamp := Min;
      cachedValue := Null;
    }

    /** The three-argument constructor: `Duration.ZERO`, caching disabled. */
    constructor Uncached(client: OpcUaClient, nodeId: NodeId, dataType: JavaClass)
      ensures this.client == client && this.nodeId == nodeId && this.dataType == dataType
      ensures cacheDuration == 0 && cacheTimestamp == Min && cachedValue == Null
    {
      this.client := client;
      this.nodeId := nodeId;
      this.dataType := dataType;
      this.cacheDuration := 0;
      cacheTimestamp := Min;
      cachedValue := Null;
    }

    function GetNodeId(): NodeId {
      nodeId
    }

    /** `getValue`: the cached value while the cache is valid at `now`, otherwise
        a fresh read whose `response` the server gives. */
    method GetValue(now: int, response: Result<Value>) returns (r: Result<Value>)
      modifies this, client
      ensures client.writeCalls == old(client.writeCalls)
      ensures CacheValid(old(cacheTimestamp), cacheDuration, now) ==>
        && r == Ok(old(cachedValue))
        && client.readCalls == old(client.readCalls)
        && cacheTimestamp == old(cacheTimestamp) && cachedValue == old(cachedValue)
      ensures !CacheValid(old(cacheTimestamp), cacheDuration, now) ==>
        && client.readCalls == old(client.readCalls) + [nodeId]
        && r == Received(dataType, response)
        && (r.Ok? ==> cachedValue == r.value && cacheTimestamp == At(now))
        && (r.Err? ==> cachedValue == old(cachedValue) && cacheTimestamp == old(cacheTimestamp))
    {
      if !CacheValid(cacheTimestamp, cacheDuration, now) {
        var fetched := FetchValue(now, response);
        if fetched.Fail? {
          return Err(fetched.error);
        }
      }
      r := Ok(cachedValue);
    }

    /** `fetchValue`: one read; the cache changes only when the answer has the
        declared class. */
    method FetchValue(now: int, response: Result<Value>) returns (o: Outcome)
      modifies this, client
      ensures client.readCalls == old(client.readCalls) + [nodeId] && client.writeCalls == old(client.writeCalls)
      ensures o.Pass? <==> Received(dataType, response).Ok?
      ensures o.Fail? ==> Received(dataType, response) == Err(o.error)
      ensures o.Pass? ==> cachedValue == Received(dataType, response).value && cacheTimestamp == At(now)
      ensures o.Fail? ==> cachedValue == old(cachedValue) && cacheTimestamp == old(cacheTimestamp)
    {
      var read := client.ReadValue(nodeId, response);
      if read.Err? {
        return Fail(read.error);
      }
      var value := read.value;
      var correct := IsCorrectType(dataType, value);
      if correct.Err? {
        return Fail(correct.error);
      }
      if !correct.value {
        return Fail(ProviderException);
      }
      cachedValue := MapUnsignedToBaSyx(dataType, value);
      cacheTimestamp := At(now);
      o := Pass;
    }

    /** `applyValue`: type check, conversion, write. A successful write refreshes
        the timestamp only; `cachedValue` keeps whatever it held. */
    method ApplyValue(value: Value, now: int, response: Outcome) returns (o: Outcome)
      modifies this, client
      ensures cachedValue == old(cachedValue) && client.readCalls == old(client.readCalls)
      ensures ClassOf(value) != Some(dataType) ==>
        && o == Fail(if value.Null? then NullPointerException else IllegalArgumentException)
        && client.writeCalls == old(client.writeCalls)
        && cacheTimestamp == old(cacheTimestamp)
      ensures ClassOf(value) == Some(dataType) ==>
        && client.writeCalls == old(client.writeCalls) + [(nodeId, MapBaSyxToUnsigned(dataType, value))]
        && o == response
        && cacheTimestamp == (if response.Pass? then At(now) else old(cacheTimestamp))
    {
      var correct := IsCorrectType(dataType, value);
      if correct.Err? {
        return Fail(correct.error);
      }
      if !correct.value {
        return Fail(IllegalArgumentException);
      }
      var mapped := MapBaSyxToUnsigned(dataType, value);
      o := client.WriteValue(nodeId, mapped, response);
      if o.Pass? {
        cacheTimestamp := At(now);
      }
    }
  }

  /** Two reads inside the cache window reach the server once and return the
      same value; a read at the end of the window reaches it again. */
  method ReadTwiceWithinWindow(node: NodeId, first: int, second: int, ttl: nat, later: int)
    returns (r1: Result<Value>, r2: Result<Value>, r3: Result<Value>, readsInWindow: nat, readsAfter: nat)
    requires ttl > 0 && first <= second < first + ttl
    requires INT32_MIN <= later <= INT32_MAX
    ensures r1 == r2 == Ok(Integer(first))
    ensures readsInWindow == 1
    ensures r3 == Ok(Integer(later)) && readsAfter == 2
  {
    var client := new OpcUaClient("opc.tcp://localhost:4840");
    var variable := new OpcUaVariable(client, node, IntegerClass, ttl);
    r1 := variable.GetValue(first, Ok(Integer(first)));
    r2 := variable.GetValue(second, Ok(Integer(second)));
    readsInWindow := |client.readCalls|;
    r3 := variable.GetValue(first + ttl, Ok(Integer(later)));
    readsAfter := |client.readCalls|;
  }

  /** A write of a wrongly typed value reaches neither the server nor the cache. */
  method MismatchedWriteContactsNoServer(node: NodeId, value: Value, now: int)
    returns (o: Outcome, writeCount: nat, stamp: Instant)
    requires ClassOf(value) != Some(IntegerClass)
    ensures o.Fail? && (o.error == NullPointerException || o.error == IllegalArgumentException)
    ensures writeCount == 0 && stamp == Min
  {
    var client := new OpcUaClient("opc.tcp://localhost:4840");
    var variable := new OpcUaVariable(client, node, IntegerClass, 10);
    o := variable.ApplyValue(value, now, Pass);
    writeCount := |client.writeCalls|;
    stamp := variable.cacheTimestamp;
  }

  /** With the three-argument constructor, a write followed by a read against a
      server that echoes the last write returns the written value. */
  method UncachedWriteThenRead(node: NodeId, n: int, t1: int, t2: int)
    returns (written: Outcome, r: Result<Value>)
    requires t1 <= t2
    ensures written == Pass && r == Ok(Integer(n))
  {
    var client := new OpcUaClient("opc.tcp://localhost:4840");
    var variable := new OpcUaVariable.Uncached(client, node, IntegerClass);
    written := variable.ApplyValue(Integer(n), t1, Pass);
    var echoed := client.writeCalls[|client.writeCalls| - 1].1;
    r := variable.GetValue(t2, Ok(echoed));
  }

  /** With a cache window, a read right after a successful write does not return
      the written value: it returns the never-fetched `null`, from the cache. */
  method CachedWriteThenRead(node: NodeId, n: int, t: int, ttl: nat)
    returns (r: Result<Value>, readCount: nat)
    requires ttl > 0
    ensures r == Ok(Null) && readCount == 0
  {
    var client := new OpcUaClient("opc.tcp://localhost:4840");
    var variable := new OpcUaVariable(client, node, IntegerClass, ttl);
    var written := variable.ApplyValue(Integer(n), t, Pass);
    r := variable.GetValue(t, Ok(Integer(n)));
    readCount := |client.readCalls|;
  }

  /** A protocol UnsignedByte 7 is read as the JVM Short 7. */
  method UnsignedByteIsWidened(node: NodeId, n: int, now: int) returns (r: Result<Value>)
    requires 0 <= n < UINT8_LIMIT
    ensures r == Ok(Short(n)) && WellFormed(r.value)
  {
    var client := new OpcUaClient("opc.tcp://localhost:4840");
    var variable := new OpcUaVariable(client, node, UnsignedByteClass, 5);
    r := variable.GetValue(now, Ok(UnsignedByte(n)));
  }
}
