/** The path strings SubmodelWrapper hands to BaSyx: a prefix, the idShorts
    joined with "/", and a suffix. */
module SubmodelWrappers {
  import opened Lang

  const SEPARATOR: char := '/'
  const VALUE_PREFIX: string := "submodelElements/"
  const VALUE_SUFFIX: string := "/value"

  /** `String.join(delimiter, elements)`. */
  function Join(delimiter: string, elements: seq<string>): string {
    if |elements| == 0 then ""
    else if |elements| == 1 then elements[0]
    else elements[0] + delimiter + Join(delimiter, elements[1..])
  }

  /** The first position of `c` in `s`. */
  function IndexOf(s: string, c: char): (i: nat)
    requires c in s
    ensures i < |s| && s[i] == c && c !in s[..i]
  {
    if s[0] == c then 0
    else
      assert s == [s[0]] + s[1..];
      assert s[..1 + IndexOf(s[1..], c)] == [s[0]] + s[1..][..IndexOf(s[1..], c)];
      1 + IndexOf(s[1..], c)
  }

  /** Cuts `s` at every `sep`; the inverse of joining with `[sep]`. */
  function Split(s: string, sep: char): (parts: seq<string>)
    ensures |parts| >= 1
    decreases |s|
  {
    if sep in s then
      var i := IndexOf(s, sep);
      [s[..i]] + Split(s[i + 1..], sep)
    else [s]
  }

  /** No idShort contains the separator (idShorts are letters, digits and `_`). */
  predicate NoSeparator(ids: seq<string>) {
    forall i :: 0 <= i < |ids| ==> SEPARATOR !in ids[i]
  }

  /** The private `generatePath(prefix, suffix, idShorts)`. `new StringBuilder(prefix)`
      throws on a null prefix; a null suffix appends nothing. */
  function GeneratePath(prefix: Option<string>, suffix: Option<string>, ids: seq<string>): (r: Result<string>)
    ensures r.Err? <==> prefix.None?
    ensures r.Err? ==> r.error == NullPointerException
    ensures r.Ok? && suffix.None? ==> r.value == prefix.value + Join([SEPARATOR], ids)
    ensures r.Ok? && suffix.Some? ==> r.value == prefix.value + Join([SEPARATOR], ids) + suffix.value
  {
    match prefix
    case None => Err(NullPointerException)
    case Some(p) =>
      var path := p + Join([SEPARATOR], ids);
      Ok(if suffix.Some? then path + suffix.value else path)
  }

  /** The path `getValue` and `setValue` hand to the lambda provider. */
  function ValuePath(ids: seq<string>): string {
    GeneratePath(Some(VALUE_PREFIX), Some(VALUE_SUFFIX), ids).value
  }

  /** A call the wrapper makes on BaSyx' `VABLambdaProvider`. */
  datatype ProviderCall<T> = GetValueCall(path: string) | SetValueCall(path: string, value: T)

  /** `getValue(idShorts...)`: a read of the value path, from which the
      idShorts can be read back. */
  function GetValue<T>(ids: seq<string>): (r: ProviderCall<T>)
    ensures r.GetValueCall? && r.path == VALUE_PREFIX + Join([SEPARATOR], ids) + VALUE_SUFFIX
    ensures ids != [] && NoSeparator(ids) ==> ParseValuePath(r.path) == Some(ids)
  {
    if ids != [] && NoSeparator(ids) then
      ValuePathRoundTrip(ids);
      GetValueCall(ValuePath(ids))
    else GetValueCall(ValuePath(ids))
  }

  /** `setValue(value, idShorts...)`: a write of the unchanged value to the
      value path, from which the idShorts can be read back. */
  function SetValue<T>(value: T, ids: seq<string>): (r: ProviderCall<T>)
    ensures r.SetValueCall? && r.value == value
    ensures r.path == VALUE_PREFIX + Join([SEPARATOR], ids) + VALUE_SUFFIX
    ensures ids != [] && NoSeparator(ids) ==> ParseValuePath(r.path) == Some(ids)
  {
    if ids != [] && NoSeparator(ids) then
      ValuePathRoundTrip(ids);
      SetValueCall(ValuePath(ids), value)
    else SetValueCall(ValuePath(ids), value)
  }

  /** `setValue` forwards the value unchanged, to the path `getValue` reads. */
  lemma SetValueMatchesGetValue<T>(value: T, ids: seq<string>)
    ensures SetValue(value, ids).value == value
    ensures SetValue(value, ids).path == GetValue<T>(ids).path == VALUE_PREFIX + Join("/", ids) + VALUE_SUFFIX
  {
  }

  /** The value paths of one idShort and of none. */
  lemma ValuePathExamples(x: string)
    ensures ValuePath([x]) == "submodelElements/" + x + "/value"
    ensures ValuePath([]) == "submodelElements//value"
  {
  }

  /** The path `getSubmodelElement` uses, as written: the one-argument
      `generatePath` passes a null prefix, so building the path throws. */
  function ElementPath(ids: seq<string>): (r: Result<string>)
    ensures r == Err(NullPointerException)
  {
    GeneratePath(None, None, ids)
  }

  /** As written, `getSubmodelElement` throws for every path, including every
      one the intended join builds and reads back. */
  lemma ElementPathAlwaysThrows(ids: seq<string>)
    ensures ElementPath(ids).Err? && CorrectedElementPath(ids).Ok?
    ensures ids != [] && NoSeparator(ids) ==> Split(CorrectedElementPath(ids).value, SEPARATOR) == ids
  {
  }

  /** The evidently intended element path: the idShorts joined, with no prefix
      and no suffix; it names each idShort, in order. */
  function CorrectedElementPath(ids: seq<string>): (r: Result<string>)
    ensures r.Ok? && r.value == Join("/", ids)
    ensures ids != [] && NoSeparator(ids) ==> Split(r.value, SEPARATOR) == ids
  {
    if ids != [] && NoSeparator(ids) then
      SplitJoin(ids);
      GeneratePath(Some(""), None, ids)
    else GeneratePath(Some(""), None, ids)
  }

  /** A separator right after a separator-free `x` is the first one. */
  lemma {:induction false} IndexOfAfter(x: string, rest: string)
    requires SEPARATOR !in x
    ensures SEPARATOR in x + [SEPARATOR] + rest
    ensures IndexOf(x + [SEPARATOR] + rest, SEPARATOR) == |x|
  {
    var s := x + [SEPARATOR] + rest;
    assert s[|x|] == SEPARATOR;
  }

  /** Cutting `x/rest` gives `x` and then the pieces of `rest`. */
  lemma SplitAfterFirst(x: string, rest: string)
    requires SEPARATOR !in x
    ensures Split(x + [SEPARATOR] + rest, SEPARATOR) == [x] + Split(rest, SEPARATOR)
  {
    var s := x + [SEPARATOR] + rest;
    IndexOfAfter(x, rest);
    assert s[..|x|] == x;
    assert s[|x| + 1..] == rest;
  }

  /** The idShorts after the first are separator-free too. */
  lemma NoSeparatorTail(ids: seq<string>)
    requires ids != [] && NoSeparator(ids)
    ensures NoSeparator(ids[1..])
  {
    forall i | 0 <= i < |ids[1..]| ensures SEPARATOR !in ids[1..][i] {
      assert ids[1..][i] == ids[i + 1];
    }
  }

  /** Joining with "/" puts exactly one separator between neighbours and none at
      the ends: cutting the result at every "/" gives the idShorts back. */
  lemma {:induction false} SplitJoin(ids: seq<string>)
    requires ids != [] && NoSeparator(ids)
    ensures Split(Join([SEPARATOR], ids), SEPARATOR) == ids
  {
    if |ids| == 1 {
      assert Join([SEPARATOR], ids) == ids[0];
      assert SEPARATOR !in ids[0];
    } else {
      assert SEPARATOR !in ids[0];
      var rest := Join([SEPARATOR], ids[1..]);
      assert Join([SEPARATOR], ids) == ids[0] + [SEPARATOR] + rest;
      SplitAfterFirst(ids[0], rest);
      NoSeparatorTail(ids);
      SplitJoin(ids[1..]);
      assert ids == [ids[0]] + ids[1..];
    }
  }

  /** Reads the idShorts back out of a value path; `None` for any other string. */
  function ParseValuePath(path: string): Option<seq<string>> {
    if |path| >= |VALUE_PREFIX| + |VALUE_SUFFIX|
       && path[..|VALUE_PREFIX|] == VALUE_PREFIX
       && path[|path| - |VALUE_SUFFIX|..] == VALUE_SUFFIX
    then Some(Split(path[|VALUE_PREFIX|..|path| - |VALUE_SUFFIX|], SEPARATOR))
    else None
  }

  /** The value path determines the idShorts it was built from. */
  lemma ValuePathRoundTrip(ids: seq<string>)
    requires ids != [] && NoSeparator(ids)
    ensures ParseValuePath(ValuePath(ids)) == Some(ids)
  {
    var joined := Join([SEPARATOR], ids);
    var path := ValuePath(ids);
    assert path == VALUE_PREFIX + joined + VALUE_SUFFIX;
    assert path[..|VALUE_PREFIX|] == VALUE_PREFIX;
    assert path[|path| - |VALUE_SUFFIX|..] == VALUE_SUFFIX;
    assert path[|VALUE_PREFIX|..|path| - |VALUE_SUFFIX|] == joined;
    SplitJoin(ids);
  }
}
