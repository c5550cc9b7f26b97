/** A property whose value is computed from named asset connections on read
    and pushed to named asset connections on write. */
module ConnectedProperties {
  import opened Lang
  import opened Values

  /** `PropertyValueSupplier.getValue()`: yields the asset value or throws. */
  type Supplier = () -> Result<Value>
  /** `PropertyValueConsumer.applyValue(value)`. */
  type Consumer = Value -> Outcome
  /** `SupplyFilter.filter(values)`: the supplier values by name to one value. */
  type SupplyFilter = map<string, Value> -> Result<Value>
  /** `ConsumeFilter.filter(value, valuesByConsumer)`: the map the filter fills,
      starting from an empty one, or the exception it throws. */
  type ConsumeFilter = Value -> Result<map<string, Value>>

  /** No supplier throws. */
  predicate AllSupply(suppliers: map<string, Supplier>) {
    forall n :: n in suppliers ==> suppliers[n]().Ok?
  }

  /** The values of all suppliers, keyed by supplier name. */
  function Collected(suppliers: map<string, Supplier>): map<string, Value>
    requires AllSupply(suppliers)
  {
    map n | n in suppliers :: suppliers[n]().value
  }

  /** Every entry a consume filter produced names a registered consumer that
      accepts its value. */
  predicate Deliverable(consumers: map<string, Consumer>, m: map<string, Value>) {
    forall n :: n in m ==> n in consumers && consumers[n](m[n]).Pass?
  }

  /** `after` is `before` plus exactly one call for each member of `calls`. */
  ghost predicate CalledOnce<T(!new)>(before: multiset<T>, after: multiset<T>, calls: set<T>) {
    forall c :: after[c] == before[c] + (if c in calls then 1 else 0)
  }

  /** A one-element set has only one member. */
  lemma SingletonMembers<T>(s: set<T>, a: T, b: T)
    requires |s| == 1 && a in s && b in s
    ensures a == b
  {
    if a != b {
      assert {a, b} <= s;
      assert |{a, b}| == 2;
      SubsetCardinality({a, b}, s);
    }
  }

  lemma {:induction false} SubsetCardinality<T>(a: set<T>, b: set<T>)
    requires a <= b
    ensures |a| <= |b|
  {
    if a != {} {
      var x :| x in a;
      SubsetCardinality(a - {x}, b - {x});
    }
  }

  /** The entries of `m` as pairs: the calls delivering `m` makes. */
  function Entries(m: map<string, Value>): set<(string, Value)> {
    set n | n in m :: (n, m[n])
  }

  /** Adding a fresh key adds exactly its entry. */
  lemma EntriesUpdate(m: map<string, Value>, k: string, v: Value)
    requires k !in m
    ensures Entries(m[k := v]) == Entries(m) + {(k, v)}
  {
    forall e | e in Entries(m[k := v]) ensures e in Entries(m) + {(k, v)} {
      var n :| n in m[k := v] && e == (n, m[k := v][n]);
      if n != k {
        assert (n, m[n]) in Entries(m);
      }
    }
    forall e | e in Entries(m) + {(k, v)} ensures e in Entries(m[k := v]) {
      if e != (k, v) {
        var n :| n in m && e == (n, m[n]);
        assert (n, m[k := v][n]) in Entries(m[k := v]);
      } else {
        assert (k, m[k := v][k]) in Entries(m[k := v]);
      }
    }
  }

  /** A log that started empty holds exactly the calls made. */
  lemma CalledOnceFromEmpty<T(!new)>(after: multiset<T>, calls: set<T>)
    requires CalledOnce(multiset{}, after, calls)
    ensures after == multiset(calls)
  {
    assert forall c :: after[c] == multiset(calls)[c];
  }

  class ConnectedProperty {
    var suppliers: map<string, Supplier>
    var consumers: map<string, Consumer>
    var supplyFilter: Option<SupplyFilter>
    var consumeFilter: Option<ConsumeFilter>
    /** The names of the suppliers called so far, with repetition. */
    ghost var supplierCalls: multiset<string>
    /** The consumer calls made so far: consumer name and value. */
    ghost var consumerCalls: multiset<(string, Value)>

    /** `ConnectedProperty()`: no connections, no filters. */
    constructor ()
      ensures suppliers == map[] && consumers == map[]
      ensures supplyFilter == None && consumeFilter == None
      ensures supplierCalls == multiset{} && consumerCalls == multiset{}
    {
      suppliers, consumers := map[], map[];
      supplyFilter, consumeFilter := None, None;
      supplierCalls, consumerCalls := multiset{}, multiset{};
    }

    /** `fetchConnectedValues`: calls every supplier once, in some order, and
        collects the values by name; the first exception ends the loop.
        `called` names the suppliers that were called. */
    method FetchConnectedValues() returns (r: Result<map<string, Value>>, ghost called: set<string>)
      modifies this
      ensures suppliers == old(suppliers) && consumers == old(consumers)
      ensures supplyFilter == old(supplyFilter) && consumeFilter == old(consumeFilter)
      ensures consumerCalls == old(consumerCalls)
      ensures called <= suppliers.Keys
      ensures CalledOnce(old(supplierCalls), supplierCalls, called)
      ensures r.Ok? ==> called == suppliers.Keys && AllSupply(suppliers) && r.value == Collected(suppliers)
      ensures r.Err? ==> exists n :: n in called && suppliers[n]() == Err(r.error)
    {
      var values: map<string, Value> := map[];
      var remaining := suppliers.Keys;
      while remaining != {}
        invariant remaining <= suppliers.Keys
        invariant values.Keys == suppliers.Keys - remaining
        invariant forall n :: n in values ==> suppliers[n]() == Ok(values[n])
        invariant CalledOnce(old(supplierCalls), supplierCalls, values.Keys)
        invariant consumerCalls == old(consumerCalls)
        invariant suppliers == old(suppliers) && consumers == old(consumers)
        invariant supplyFilter == old(supplyFilter) && consumeFilter == old(consumeFilter)
        decreases remaining
      {
        var name :| name in remaining;
        var v := suppliers[name]();
        supplierCalls := supplierCalls + multiset{name};
        if v.Err? {
          return Err(v.error), values.Keys + {name};
        }
        values := values[name := v.value];
        remaining := remaining - {name};
      }
      return Ok(values), values.Keys;
    }

    /** `getValue`: a configuration error without contacting any supplier, the
        single supplier's value when there is no filter, otherwise the filter
        applied to all supplier values. */
    method GetValue() returns (r: Result<Value>)
      modifies this
      ensures suppliers == old(suppliers) && consumers == old(consumers)
      ensures supplyFilter == old(supplyFilter) && consumeFilter == old(consumeFilter)
      ensures consumerCalls == old(consumerCalls)
      ensures |suppliers| == 0 ==> r == Err(IllegalStateException) && supplierCalls == old(supplierCalls)
      ensures |suppliers| > 1 && supplyFilter.None? ==>
        r == Err(IllegalStateException) && supplierCalls == old(supplierCalls)
      ensures |suppliers| == 1 && supplyFilter.None? ==>
        && (forall n :: n in suppliers ==> r == suppliers[n]())
        && CalledOnce(old(supplierCalls), supplierCalls, suppliers.Keys)
      ensures |suppliers| >= 1 && supplyFilter.Some? && AllSupply(suppliers) ==>
        && r == supplyFilter.value(Collected(suppliers))
        && CalledOnce(old(supplierCalls), supplierCalls, suppliers.Keys)
      ensures |suppliers| >= 1 && supplyFilter.Some? && !AllSupply(suppliers) ==>
        r.Err? && exists n :: n in suppliers && suppliers[n]() == Err(r.error)
    {
      if |suppliers| == 0 {
        return Err(IllegalStateException);
      }
      if |suppliers| > 1 && supplyFilter.None? {
        return Err(IllegalStateException);
      }
      var fetched, called := FetchConnectedValues();
      if fetched.Err? {
        if supplyFilter.None? {
          ghost var m :| m in called && suppliers[m]() == Err(fetched.error);
          forall n | n in suppliers ensures n == m {
            SingletonMembers(suppliers.Keys, n, m);
          }
          assert called == suppliers.Keys;
        }
        return Err(fetched.error);
      }
      var values := fetched.value;
      if supplyFilter.None? {
        assert values.Keys == suppliers.Keys;
        var name :| name in values;
        forall n | n in suppliers ensures n == name {
          SingletonMembers(suppliers.Keys, n, name);
        }
        r := Ok(values[name]);
      } else {
        r := supplyFilter.value(values);
      }
    }

    /** `applyValueToConsumer`: an unknown name throws before any call. */
    method ApplyValueToConsumer(name: string, value: Value) returns (o: Outcome)
      modifies this
      ensures suppliers == old(suppliers) && consumers == old(consumers)
      ensures supplyFilter == old(supplyFilter) && consumeFilter == old(consumeFilter)
      ensures supplierCalls == old(supplierCalls)
      ensures name !in consumers ==> o == Fail(IllegalArgumentException) && consumerCalls == old(consumerCalls)
      ensures name in consumers ==>
        o == consumers[name](value) && CalledOnce(old(consumerCalls), consumerCalls, {(name, value)})
    {
      if name !in consumers {
        return Fail(IllegalArgumentException);
      }
      o := consumers[name](value);
      consumerCalls := consumerCalls + multiset{(name, value)};
    }

    /** `valuesByConsumer.forEach(applyValueToConsumer)`: each entry goes to the
        consumer of that name, in some order, until one throws. `sent` holds the
        entries that were delivered. */
    method Dispatch(m: map<string, Value>) returns (o: Outcome, ghost sent: map<string, Value>)
      modifies this
      ensures suppliers == old(suppliers) && consumers == old(consumers)
      ensures supplyFilter == old(supplyFilter) && consumeFilter == old(consumeFilter)
      ensures supplierCalls == old(supplierCalls)
      ensures sent.Keys <= m.Keys && forall n :: n in sent ==> sent[n] == m[n]
      ensures CalledOnce(old(consumerCalls), consumerCalls, Entries(sent))
      ensures o.Pass? <==> Deliverable(consumers, m)
      ensures o.Pass? ==> sent == m
      ensures o.Fail? ==>
        exists n :: n in m && (if n in consumers then consumers[n](m[n]) == o else o == Fail(IllegalArgumentException))
    {
      sent := map[];
      var remaining := m.Keys;
      while remaining != {}
        invariant remaining <= m.Keys
        invariant sent.Keys == m.Keys - remaining
        invariant forall n :: n in sent ==> sent[n] == m[n] && n in consumers && consumers[n](m[n]).Pass?
        invariant CalledOnce(old(consumerCalls), consumerCalls, Entries(sent))
        invariant supplierCalls == old(supplierCalls)
        invariant suppliers == old(suppliers) && consumers == old(consumers)
        invariant supplyFilter == old(supplyFilter) && consumeFilter == old(consumeFilter)
        decreases remaining
      {
        var name :| name in remaining;
        o := ApplyValueToConsumer(name, m[name]);
        if name !in consumers {
          return;
        }
        EntriesUpdate(sent, name, m[name]);
        sent := sent[name := m[name]];
        if o.Fail? {
          return;
        }
        remaining := remaining - {name};
      }
      return Pass, sent;
    }

    /** `setValue`: a configuration error without contacting any consumer, the
        single consumer when there is no filter, otherwise every entry of the
        filter's map to the consumer of that name. */
    method SetValue(value: Value) returns (o: Outcome)
      modifies this
      ensures suppliers == old(suppliers) && consumers == old(consumers)
      ensures supplyFilter == old(supplyFilter) && consumeFilter == old(consumeFilter)
      ensures supplierCalls == old(supplierCalls)
      ensures |consumers| == 0 ==> o == Fail(IllegalStateException) && consumerCalls == old(consumerCalls)
      ensures |consumers| > 1 && consumeFilter.None? ==>
        o == Fail(IllegalStateException) && consumerCalls == old(consumerCalls)
      ensures |consumers| == 1 && consumeFilter.None? ==> forall n :: n in consumers ==>
        o == consumers[n](value) && CalledOnce(old(consumerCalls), consumerCalls, {(n, value)})
      ensures |consumers| >= 1 && consumeFilter.Some? && consumeFilter.value(value).Err? ==>
        o == Fail(consumeFilter.value(value).error) && consumerCalls == old(consumerCalls)
      ensures |consumers| >= 1 && consumeFilter.Some? && consumeFilter.value(value).Ok? ==>
        var m := consumeFilter.value(value).value;
        && (o.Pass? <==> Deliverable(consumers, m))
        && (o.Pass? ==> CalledOnce(old(consumerCalls), consumerCalls, Entries(m)))
        && (o.Fail? ==>
              exists n :: n in m && (if n in consumers then consumers[n](m[n]) == o else o == Fail(IllegalArgumentException)))
        && (forall c :: old(consumerCalls)[c] <= consumerCalls[c] <= old(consumerCalls)[c] + (if c in Entries(m) then 1 else 0))
    {
      if |consumers| == 0 {
        return Fail(IllegalStateException);
      }
      if |consumers| > 1 && consumeFilter.None? {
        return Fail(IllegalStateException);
      }
      if consumeFilter.None? {
        assert consumers.Keys != {};
        var name :| name in consumers;
        o := consumers[name](value);
        consumerCalls := consumerCalls + multiset{(name, value)};
        forall n | n in consumers ensures n == name {
          SingletonMembers(consumers.Keys, n, name);
        }
      } else {
        var filtered := consumeFilter.value(value);
        if filtered.Err? {
          return Fail(filtered.error);
        }
        ghost var sent;
        o, sent := Dispatch(filtered.value);
      }
    }

    /** `addPropertyValueSupplier`: a null name throws NullPointerException, a
        name already registered IllegalArgumentException; either leaves the
        suppliers as they were. */
    method AddPropertyValueSupplier(name: Option<string>, supplier: Supplier) returns (o: Outcome)
      modifies this
      ensures consumers == old(consumers)
      ensures supplyFilter == old(supplyFilter) && consumeFilter == old(consumeFilter)
      ensures supplierCalls == old(supplierCalls) && consumerCalls == old(consumerCalls)
      ensures name.None? ==> o == Fail(NullPointerException) && suppliers == old(suppliers)
      ensures name.Some? && name.value in old(suppliers) ==>
        o == Fail(IllegalArgumentException) && suppliers == old(suppliers)
      ensures name.Some? && name.value !in old(suppliers) ==>
        o == Pass && suppliers == old(suppliers)[name.value := supplier]
    {
      if name.None? {
        return Fail(NullPointerException);
      }
      if name.value in suppliers {
        return Fail(IllegalArgumentException);
      }
      suppliers := suppliers[name.value := supplier];
      return Pass;
    }

    /** `addPropertyValueConsumer` as written: the duplicate check looks at the
        suppliers, so a consumer named like a supplier is rejected and a second
        consumer of the same name replaces the first. */
    method AddPropertyValueConsumer(name: Option<string>, consumer: Consumer) returns (o: Outcome)
      modifies this
      ensures suppliers == old(suppliers)
      ensures supplyFilter == old(supplyFilter) && consumeFilter == old(consumeFilter)
      ensures supplierCalls == old(supplierCalls) && consumerCalls == old(consumerCalls)
      ensures name.None? ==> o == Fail(NullPointerException) && consumers == old(consumers)
      ensures name.Some? && name.value in suppliers ==>
        o == Fail(IllegalArgumentException) && consumers == old(consumers)
      ensures name.Some? && name.value !in suppliers ==>
        o == Pass && consumers == old(consumers)[name.value := consumer]
    {
      if name.None? {
        return Fail(NullPointerException);
      }
      if name.value in suppliers {
        return Fail(IllegalArgumentException);
      }
      consumers := consumers[name.value := consumer];
      return Pass;
    }

    /** `addPropertyValueConsumer` as its documentation and message describe it:
        names are unique among the consumers, and suppliers play no part. */
    method AddPropertyValueConsumerCorrected(name: Option<string>, consumer: Consumer) returns (o: Outcome)
      modifies this
      ensures suppliers == old(suppliers)
      ensures supplyFilter == old(supplyFilter) && consumeFilter == old(consumeFilter)
      ensures supplierCalls == old(supplierCalls) && consumerCalls == old(consumerCalls)
      ensures name.None? ==> o == Fail(NullPointerException) && consumers == old(consumers)
      ensures name.Some? && name.value in old(consumers) ==>
        o == Fail(IllegalArgumentException) && consumers == old(consumers)
      ensures name.Some? && name.value !in old(consumers) ==>
        o == Pass && consumers == old(consumers)[name.value := consumer]
    {
      if name.None? {
        return Fail(NullPointerException);
      }
      if name.value in consumers {
        return Fail(IllegalArgumentException);
      }
      consumers := consumers[name.value := consumer];
      return Pass;
    }

    /** `setSupplyFilter`; `None` removes the filter. */
    method SetSupplyFilter(filter: Option<SupplyFilter>)
      modifies this
      ensures supplyFilter == filter
      ensures suppliers == old(suppliers) && consumers == old(consumers) && consumeFilter == old(consumeFilter)
      ensures supplierCalls == old(supplierCalls) && consumerCalls == old(consumerCalls)
    {
      supplyFilter := filter;
    }

    /** `setConsumeFilter`; `None` removes the filter. */
    method SetConsumeFilter(filter: Option<ConsumeFilter>)
      modifies this
      ensures consumeFilter == filter
      ensures suppliers == old(suppliers) && consumers == old(consumers) && supplyFilter == old(supplyFilter)
      ensures supplierCalls == old(supplierCalls) && consumerCalls == old(consumerCalls)
    {
      consumeFilter := filter;
    }
  }

  /** Adds two integer supplier values. */
  function SumFilter(values: map<string, Value>): Result<Value> {
    if "a" in values && "b" in values && values["a"].Integer? && values["b"].Integer?
    then Ok(Integer(values["a"].n + values["b"].n))
    else Err(IllegalArgumentException)
  }

  /** Splits an integer 40:60 between two consumers. */
  function SplitFilter(value: Value): Result<map<string, Value>> {
    if value.Integer?
    then Ok(map["left" := Integer(value.n * 2 / 5), "right" := Integer(value.n - value.n * 2 / 5)])
    else Err(ClassCastException)
  }

  /** A property connected to two integer suppliers, `a` and `b`, without filter. */
  method TwoSupplierProperty() returns (p: ConnectedProperty)
    ensures fresh(p)
    ensures p.suppliers.Keys == {"a", "b"}
    ensures p.suppliers["a"]() == Ok(Integer(10)) && p.suppliers["b"]() == Ok(Integer(20))
    ensures p.supplyFilter == None && p.supplierCalls == multiset{}
  {
    p := new ConnectedProperty();
    var o1 := p.AddPropertyValueSupplier(Some("a"), () => Ok(Integer(10)));
    var o2 := p.AddPropertyValueSupplier(Some("b"), () => Ok(Integer(20)));
  }

  /** Two suppliers need a filter; once one is set, each supplier is called
      exactly once and the filter sees both values. */
  method TwoSuppliersNeedAFilter() returns (unfiltered: Result<Value>, filtered: Result<Value>, p: ConnectedProperty)
    ensures unfiltered == Err(IllegalStateException)
    ensures filtered == Ok(Integer(30))
    ensures p.supplierCalls == multiset{"a", "b"}
  {
    p := TwoSupplierProperty();
    unfiltered := p.GetValue();
    p.SetSupplyFilter(Some(SumFilter));
    assert AllSupply(p.suppliers);
    assert Collected(p.suppliers) == map["a" := Integer(10), "b" := Integer(20)];
    filtered := p.GetValue();
    CalledOnceFromEmpty(p.supplierCalls, {"a", "b"});
  }

  /** A property connected to two consumers that accept every value, with the
      40:60 split filter. */
  method SplitProperty() returns (p: ConnectedProperty)
    ensures fresh(p)
    ensures p.consumers.Keys == {"left", "right"}
    ensures forall n, v :: n in p.consumers ==> p.consumers[n](v) == Pass
    ensures p.consumeFilter == Some(SplitFilter) && p.consumerCalls == multiset{}
  {
    p := new ConnectedProperty();
    var o1 := p.AddPropertyValueConsumer(Some("left"), v => Pass);
    var o2 := p.AddPropertyValueConsumer(Some("right"), v => Pass);
    p.SetConsumeFilter(Some(SplitFilter));
  }

  /** A consume filter's entries are delivered once each, to the consumer of the
      same name. */
  method SplitDeliversEachShare() returns (o: Outcome, p: ConnectedProperty)
    ensures o == Pass
    ensures p.consumerCalls == multiset{("left", Integer(40)), ("right", Integer(60))}
  {
    p := SplitProperty();
    var m := map["left" := Integer(40), "right" := Integer(60)];
    assert SplitFilter(Integer(100)) == Ok(m);
    assert Deliverable(p.consumers, m);
    o := p.SetValue(Integer(100));
    assert Entries(m) == {("left", Integer(40)), ("right", Integer(60))};
    CalledOnceFromEmpty(p.consumerCalls, Entries(m));
  }

  /** As written, a consumer may not share a name with a supplier, while a
      repeated consumer name is accepted and replaces the earlier consumer;
      the corrected method does the opposite. */
  method ConsumerNamesCheckedAgainstSuppliers()
    returns (clash: Outcome, repeat: Outcome, written: Outcome, clashCorrected: Outcome, repeatCorrected: Outcome)
    ensures clash == Fail(IllegalArgumentException)
    ensures repeat == Pass
    ensures written == Fail(ExternalException(2))
    ensures clashCorrected == Pass
    ensures repeatCorrected == Fail(IllegalArgumentException)
  {
    var first: Consumer := v => Fail(ExternalException(1));
    var second: Consumer := v => Fail(ExternalException(2));
    var p := new ConnectedProperty();
    var o := p.AddPropertyValueSupplier(Some("speed"), () => Ok(Integer(0)));
    clash := p.AddPropertyValueConsumer(Some("speed"), first);
    o := p.AddPropertyValueConsumer(Some("valve"), first);
    repeat := p.AddPropertyValueConsumer(Some("valve"), second);
    assert p.consumers.Keys == {"valve"};
    written := p.SetValue(Integer(1));

    var q := new ConnectedProperty();
    o := q.AddPropertyValueSupplier(Some("speed"), () => Ok(Integer(0)));
    clashCorrected := q.AddPropertyValueConsumerCorrected(Some("speed"), first);
    o := q.AddPropertyValueConsumerCorrected(Some("valve"), first);
    repeatCorrected := q.AddPropertyValueConsumerCorrected(Some("valve"), second);
  }
}
