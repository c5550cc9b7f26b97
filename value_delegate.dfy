/** Handler pairs installed into the value slot of a submodel element, so that
    reading or writing the element's value runs user code. */
module ValueDelegates {
  import opened Lang
  import opened Values

  /** `Property.VALUE`, BaSyx' key of an element's value slot. */
  const VALUE_KEY: string := "value"
  /** `VABLambdaHandler.VALUE_GET_SUFFIX` and `VALUE_SET_SUFFIX`, the keys BaSyx
      looks up in a lambda map. */
  const GET_KEY: string := "get"
  const SET_KEY: string := "set"

  /** A submodel element; `isCollection` tells a SubmodelElementCollection
      apart. BaSyx stores an element as a map from keys to entries. */
  class SubmodelElement {
    const idShort: string
    const isCollection: bool
    var fields: map<string, Slot>

    constructor (idShort: string, isCollection: bool)
      ensures this.idShort == idShort && this.isCollection == isCollection
      ensures fields == map[]
    {
      this.idShort := idShort;
      this.isCollection := isCollection;
      fields := map[];
    }
  }

  /** `map.values()` of an idShort-keyed map: a view of the map's values. */
  datatype ValuesView = ValuesView(backing: map<string, SubmodelElement>)

  /** The objects that pass through a lambda map's handlers. */
  datatype Object =
    | ValueObject(value: Value)
    | ElementMap(elements: map<string, SubmodelElement>)
    | ElementCollection(view: ValuesView)

  /** An entry of a lambda map: a `Supplier` or a `Consumer`. */
  datatype Handler = Getter(get: () -> Result<Object>) | Setter(accept: Object -> Outcome)

  /** An entry of an element: a stored object or an installed lambda map. */
  datatype Slot = Stored(object: Object) | Delegated(lambdas: LambdaMap)

  /** The `HashMap` a delegate shares with the element it is installed on. */
  class LambdaMap {
    var entries: map<string, Handler>

    constructor ()
      ensures entries == map[]
    {
      entries := map[];
    }
  }

  /** The default handlers both throw UnsupportedOperationException. */
  function DefaultGet(): Result<Object> {
    Err(UnsupportedOperationException)
  }

  function DefaultSet(o: Object): Outcome {
    Fail(UnsupportedOperationException)
  }

  /** `ValueDelegate<T>`, with `T` standing for any object. */
  class ValueDelegate {
    const lambdaMap: LambdaMap

    /** `ValueDelegate()`: a fresh lambda map holding the two default handlers. */
    constructor ()
      ensures fresh(lambdaMap)
      ensures lambdaMap.entries == map[GET_KEY := Getter(DefaultGet), SET_KEY := Setter(DefaultSet)]
    {
      lambdaMap := new LambdaMap();
      new;
      SetGetHandler(DefaultGet);
      SetSetHandler(DefaultSet);
    }

    /** `setGetHandler`: replaces the getter and nothing else. */
    method SetGetHandler(getHandler: () -> Result<Object>)
      modifies lambdaMap
      ensures lambdaMap.entries == old(lambdaMap.entries)[GET_KEY := Getter(getHandler)]
    {
      lambdaMap.entries := lambdaMap.entries[GET_KEY := Getter(getHandler)];
    }

    /** `setSetHandler`: replaces the setter and nothing else. */
    method SetSetHandler(setHandler: Object -> Outcome)
      modifies lambdaMap
      ensures lambdaMap.entries == old(lambdaMap.entries)[SET_KEY := Setter(setHandler)]
    {
      lambdaMap.entries := lambdaMap.entries[SET_KEY := Setter(setHandler)];
    }

    /** `installOn(SubmodelElement)`: the element's value slot becomes the new
        delegate's own lambda map, the same object and not a copy. */
    static method InstallOn(e: SubmodelElement) returns (d: ValueDelegate)
      modifies e
      ensures fresh(d) && fresh(d.lambdaMap)
      ensures d.lambdaMap.entries == map[GET_KEY := Getter(DefaultGet), SET_KEY := Setter(DefaultSet)]
      ensures e.fields == old(e.fields)[VALUE_KEY := Delegated(d.lambdaMap)]
    {
      d := new ValueDelegate();
      e.fields := e.fields[VALUE_KEY := Delegated(d.lambdaMap)];
    }
  }

  /** The idShorts of a list of elements. */
  function IdShorts(items: seq<SubmodelElement>): set<string> {
    set i | 0 <= i < |items| :: items[i].idShort
  }

  /** No two elements of the list share an idShort. */
  predicate DistinctIdShorts(items: seq<SubmodelElement>) {
    forall i, j :: 0 <= i < j < |items| ==> items[i].idShort != items[j].idShort
  }

  /** `collection.stream().collect(Collectors.toMap(idShort, identity))`: the
      elements keyed by idShort; a repeated idShort makes `toMap` throw
      IllegalStateException. */
  function ToIdShortMap(items: seq<SubmodelElement>): (r: Result<map<string, SubmodelElement>>)
    ensures r.Ok? <==> DistinctIdShorts(items)
    ensures r.Err? ==> r.error == IllegalStateException
    ensures r.Ok? ==> r.value.Keys == IdShorts(items)
    ensures r.Ok? ==> forall i :: 0 <= i < |items| ==> r.value[items[i].idShort] == items[i]
  {
    if |items| == 0 then Ok(map[])
    else
      var init := items[..|items| - 1];
      var last := items[|items| - 1];
      SnocIdShorts(items);
      match ToIdShortMap(init)
      case Err(e) => Err(e)
      case Ok(m) => if last.idShort in m then Err(IllegalStateException) else Ok(m[last.idShort := last])
  }

  /** How the idShorts of a list relate to those of the list without its last
      element. */
  lemma SnocIdShorts(items: seq<SubmodelElement>)
    requires |items| > 0
    ensures var init := items[..|items| - 1];
      && IdShorts(items) == IdShorts(init) + {items[|items| - 1].idShort}
      && (DistinctIdShorts(items) <==> DistinctIdShorts(init) && items[|items| - 1].idShort !in IdShorts(init))
      && forall i :: 0 <= i < |init| ==> init[i] == items[i]
  {
    var init := items[..|items| - 1];
    assert forall i :: 0 <= i < |init| ==> init[i] == items[i];
    assert forall i :: 0 <= i < |init| ==> items[i].idShort in IdShorts(init);
    if items[|items| - 1].idShort in IdShorts(init) {
      var i :| 0 <= i < |init| && init[i].idShort == items[|items| - 1].idShort;
      assert items[i].idShort == items[|items| - 1].idShort;
    }
  }

  /** The keys under which `m` holds `x`. */
  ghost function KeysHolding(m: map<string, SubmodelElement>, x: SubmodelElement): set<string> {
    set k | k in m && m[k] == x
  }

  /** How often `map.values()` contains `x`: once per key that maps to it. */
  ghost function ValueCount(m: map<string, SubmodelElement>, x: SubmodelElement): nat {
    |KeysHolding(m, x)|
  }

  /** A new key adds one occurrence of its value and changes no other count. */
  lemma ValueCountUpdate(m: map<string, SubmodelElement>, k: string, v: SubmodelElement, x: SubmodelElement)
    requires k !in m
    ensures ValueCount(m[k := v], x) == ValueCount(m, x) + (if v == x then 1 else 0)
  {
    if v == x {
      assert KeysHolding(m[k := v], x) == KeysHolding(m, x) + {k};
    } else {
      assert KeysHolding(m[k := v], x) == KeysHolding(m, x);
    }
  }

  /** With distinct idShorts, the values of the map `toMap` builds are the
      elements of the list: a get followed by a set hands every element back,
      once each. */
  lemma {:induction false} ToIdShortMapKeepsElements(items: seq<SubmodelElement>)
    requires DistinctIdShorts(items)
    ensures forall x :: ValueCount(ToIdShortMap(items).value, x) == multiset(items)[x]
  {
    if |items| == 0 {
      assert ToIdShortMap(items).value == map[];
      forall x ensures ValueCount(map[], x) == 0 {
        assert KeysHolding(map[], x) == {};
      }
    } else {
      var init := items[..|items| - 1];
      var last := items[|items| - 1];
      SnocIdShorts(items);
      ToIdShortMapKeepsElements(init);
      var m := ToIdShortMap(init).value;
      assert ToIdShortMap(items).value == m[last.idShort := last];
      assert items == init + [last];
      forall x ensures ValueCount(m[last.idShort := last], x) == multiset(items)[x] {
        ValueCountUpdate(m, last.idShort, last, x);
      }
    }
  }

  /** The getter `CollectionDelegate.setGetHandler` installs, applied to what
      the user's getter returned. */
  function CollectedById(supplied: Result<seq<SubmodelElement>>): (r: Result<Object>)
    ensures supplied.Err? ==> r == Err(supplied.error)
    ensures supplied.Ok? && !DistinctIdShorts(supplied.value) ==> r == Err(IllegalStateException)
    ensures supplied.Ok? && DistinctIdShorts(supplied.value) ==>
      r.Ok? && r.value.ElementMap? && r.value.elements.Keys == IdShorts(supplied.value)
      && (forall i | 0 <= i < |supplied.value| :: r.value.elements[supplied.value[i].idShort] == supplied.value[i])
      && (forall k | k in r.value.elements :: r.value.elements[k] in supplied.value)
      && (forall i | 0 <= i < |supplied.value| ::
            ValueCount(r.value.elements, supplied.value[i]) == multiset(supplied.value)[supplied.value[i]])
  {
    match supplied
    case Err(e) => Err(e)
    case Ok(items) =>
      match ToIdShortMap(items)
      case Err(e) => Err(e)
      case Ok(m) =>
        ToIdShortMapKeepsElements(items);
        Ok(ElementMap(m))
  }

  /** The setter `CollectionDelegate.setSetHandler` installs: the incoming map's
      values go to the user's setter. A null passes the cast, and `map.values()`
      then throws NullPointerException; any other object but a map fails the
      cast. */
  function ValuesToHandler(setHandler: ValuesView -> Outcome, o: Object): (r: Outcome)
    ensures o.ElementMap? ==> r == setHandler(ValuesView(o.elements))
    ensures o == ValueObject(Null) ==> r == Fail(NullPointerException)
    ensures !o.ElementMap? && o != ValueObject(Null) ==> r == Fail(ClassCastException)
  {
    if o.ElementMap? then setHandler(ValuesView(o.elements))
    else if o == ValueObject(Null) then Fail(NullPointerException)
    else Fail(ClassCastException)
  }

  /** The default collection handlers, as the base constructor passes them. */
  function DefaultCollectionGet(): Result<seq<SubmodelElement>> {
    Err(UnsupportedOperationException)
  }

  function DefaultCollectionSet(view: ValuesView): Outcome {
    Fail(UnsupportedOperationException)
  }

  /** `CollectionDelegate`: its setters wrap the user's handlers before they go into
      the lambda map. */
  class CollectionDelegate {
    const lambdaMap: LambdaMap

    /** `new CollectionDelegate()`: the base constructor's calls dispatch to the
        overriding setters, so even the defaults are wrapped. */
    constructor ()
      ensures fresh(lambdaMap)
      ensures lambdaMap.entries == map[
        GET_KEY := Getter(() => CollectedById(DefaultCollectionGet())),
        SET_KEY := Setter(o => ValuesToHandler(DefaultCollectionSet, o))]
    {
      lambdaMap := new LambdaMap();
      new;
      SetGetHandler(DefaultCollectionGet);
      SetSetHandler(DefaultCollectionSet);
    }

    /** The overriding `setGetHandler`: replaces the getter only. */
    method SetGetHandler(getHandler: () -> Result<seq<SubmodelElement>>)
      modifies lambdaMap
      ensures lambdaMap.entries == old(lambdaMap.entries)[GET_KEY := Getter(() => CollectedById(getHandler()))]
    {
      lambdaMap.entries := lambdaMap.entries[GET_KEY := Getter(() => CollectedById(getHandler()))];
    }

    /** The overriding `setSetHandler`: replaces the setter only. */
    method SetSetHandler(setHandler: ValuesView -> Outcome)
      modifies lambdaMap
      ensures lambdaMap.entries == old(lambdaMap.entries)[SET_KEY := Setter(o => ValuesToHandler(setHandler, o))]
    {
      lambdaMap.entries := lambdaMap.entries[SET_KEY := Setter(o => ValuesToHandler(setHandler, o))];
    }

    /** `installOn(SubmodelElementCollection)`: a CollectionDelegate goes into the
        collection's value slot. */
    static method InstallOn(c: SubmodelElement) returns (d: CollectionDelegate)
      requires c.isCollection
      modifies c
      ensures fresh(d) && fresh(d.lambdaMap)
      ensures d.lambdaMap.entries == map[
        GET_KEY := Getter(() => CollectedById(DefaultCollectionGet())),
        SET_KEY := Setter(o => ValuesToHandler(DefaultCollectionSet, o))]
      ensures c.fields == old(c.fields)[VALUE_KEY := Delegated(d.lambdaMap)]
    {
      d := new CollectionDelegate();
      c.fields := c.fields[VALUE_KEY := Delegated(d.lambdaMap)];
    }
  }

  /** The handler an element's value slot holds under `key`, if any. */
  function InstalledHandler(slot: Slot, key: string): Option<Handler>
    reads if slot.Delegated? then {slot.lambdas} else {}
  {
    if slot.Delegated? && key in slot.lambdas.entries then Some(slot.lambdas.entries[key]) else None
  }

  /** A handler set after installation is the one found through the element;
      the set handler is still the default. */
  method HandlerVisibleThroughElement() returns (read: Result<Object>, written: Outcome)
    ensures read == Ok(ValueObject(Integer(21)))
    ensures written == Fail(UnsupportedOperationException)
  {
    var e := new SubmodelElement("temperature", false);
    var d := ValueDelegate.InstallOn(e);
    d.SetGetHandler(() => Ok(ValueObject(Integer(21))));
    var slot := e.fields[VALUE_KEY];
    var getter := InstalledHandler(slot, GET_KEY);
    var setter := InstalledHandler(slot, SET_KEY);
    read := if getter.Some? && getter.value.Getter? then getter.value.get() else Err(NoSuchElementException);
    written := if setter.Some? && setter.value.Setter? then setter.value.accept(ValueObject(Integer(0))) else Pass;
  }

  /** Reading a collection through its delegate keys the user's elements by
      idShort; a repeated idShort fails. */
  method CollectionReadThroughElement() returns (left: SubmodelElement, right: SubmodelElement,
                                                 distinct: Result<Object>, clash: Result<Object>)
    ensures left.idShort == "left" && right.idShort == "right"
    ensures distinct == Ok(ElementMap(map["left" := left, "right" := right]))
    ensures clash == Err(IllegalStateException)
  {
    var c := new SubmodelElement("axes", true);
    left := new SubmodelElement("left", false);
    right := new SubmodelElement("right", false);
    var again := new SubmodelElement("left", false);
    var d := CollectionDelegate.InstallOn(c);
    d.SetGetHandler(() => Ok([left, right]));
    var getter := InstalledHandler(c.fields[VALUE_KEY], GET_KEY);
    distinct := if getter.Some? && getter.value.Getter? then getter.value.get() else Err(NoSuchElementException);
    assert IdShorts([left, right]) == {"left", "right"};
    assert [left, right][0] == left && [left, right][1] == right;
    assert distinct.value.elements == map["left" := left, "right" := right];
    d.SetGetHandler(() => Ok([left, right, again]));
    getter := InstalledHandler(c.fields[VALUE_KEY], GET_KEY);
    assert !DistinctIdShorts([left, right, again]) by {
      assert [left, right, again][0].idShort == [left, right, again][2].idShort;
    }
    clash := if getter.Some? && getter.value.Getter? then getter.value.get() else Err(NoSuchElementException);
  }

  /** Before the user sets handlers, a collection's value slot throws
      UnsupportedOperationException on both paths; a write of a non-null object
      other than a map fails the cast first, and a null write throws
      NullPointerException at `map.values()`. */
  method CollectionDefaultsThrow() returns (read: Result<Object>, written: Outcome, miscast: Outcome, nulled: Outcome)
    ensures read == Err(UnsupportedOperationException)
    ensures written == Fail(UnsupportedOperationException)
    ensures miscast == Fail(ClassCastException)
    ensures nulled == Fail(NullPointerException)
  {
    var c := new SubmodelElement("axes", true);
    var d := CollectionDelegate.InstallOn(c);
    var getter := InstalledHandler(c.fields[VALUE_KEY], GET_KEY);
    var setter := InstalledHandler(c.fields[VALUE_KEY], SET_KEY);
    read := if getter.Some? && getter.value.Getter? then getter.value.get() else Err(NoSuchElementException);
    written := if setter.Some? && setter.value.Setter? then setter.value.accept(ElementMap(map[])) else Pass;
    miscast := if setter.Some? && setter.value.Setter? then setter.value.accept(ValueObject(Integer(0))) else Pass;
    nulled := if setter.Some? && setter.value.Setter? then setter.value.accept(ValueObject(Null)) else Pass;
  }
}
