/** Application settings read from a Java properties table: key lookup with
    defaults, the parsers behind each property kind, and the load/get state
    machine of a single setting. */
module AasConfiguration {
  import opened Lang
  import opened Values
  import opened Validators

  /** `new Properties(defaults)` after the user file was read: user entries
      shadow the defaults. */
  datatype PropertiesTable = PropertiesTable(user: map<string, string>, defaults: map<string, string>)

  /** `Properties.getProperty(key)`: `None` stands for `null`. */
  function GetProperty(t: PropertiesTable, key: string): (r: Option<string>)
    ensures r.Some? <==> key in t.user || key in t.defaults
    ensures key in t.user ==> r == Some(t.user[key])
    ensures key !in t.user && key in t.defaults ==> r == Some(t.defaults[key])
  {
    if key in t.user then Some(t.user[key])
    else if key in t.defaults then Some(t.defaults[key])
    else None
  }

  /** `getStringProperty`: a key set nowhere raises NoSuchElementException. */
  function GetStringProperty(t: PropertiesTable, key: string): (r: Result<string>)
    ensures r.Err? <==> key !in t.user && key !in t.defaults
    ensures r.Err? ==> r.error == NoSuchElementException
    ensures r.Ok? ==> r.value == (if key in t.user then t.user[key] else t.defaults[key])
  {
    match GetProperty(t, key)
    case None => Err(NoSuchElementException)
    case Some(v) => Ok(v)
  }

  predicate IsDigit(c: char) {
    '0' <= c <= '9'
  }

  predicate AllDigits(s: string) {
    forall i :: 0 <= i < |s| ==> IsDigit(s[i])
  }

  function DigitValue(c: char): nat
    requires IsDigit(c)
  {
    c as int - '0' as int
  }

  function DigitChar(d: nat): (c: char)
    requires d < 10
    ensures IsDigit(c) && DigitValue(c) == d
  {
    (d + '0' as int) as char
  }

  /** The number a string of decimal digits denotes, read from the left. */
  function DigitsValue(s: string): nat
    requires AllDigits(s)
  {
    if |s| == 0 then 0 else DigitsValue(s[..|s| - 1]) * 10 + DigitValue(s[|s| - 1])
  }

  /** The shortest decimal digits of `n`. */
  function NatToDigits(n: nat): (s: string)
    ensures |s| >= 1 && AllDigits(s)
  {
    if n < 10 then [DigitChar(n)] else NatToDigits(n / 10) + [DigitChar(n % 10)]
  }

  /** The digits of `s` after an optional leading sign. */
  function UnsignedPart(s: string): string
    requires |s| >= 1
  {
    if s[0] == '-' || s[0] == '+' then s[1..] else s
  }

  /** An optional sign followed by at least one digit and nothing else. */
  predicate WellFormedInt(s: string) {
    |s| >= 1 && |UnsignedPart(s)| >= 1 && AllDigits(UnsignedPart(s))
  }

  /** The number a well-formed string denotes, before any range check. */
  function SignedValue(s: string): int
    requires WellFormedInt(s)
  {
    if s[0] == '-' then -(DigitsValue(UnsignedPart(s)) as int) else DigitsValue(UnsignedPart(s))
  }

  /** `Integer.parseInt(s)` on ASCII digits: an optional sign, at least one
      digit, nothing else, and a result inside the `int` range; every other
      string raises NumberFormatException. */
  function ParseInt(s: string): (r: Result<Int32>)
    ensures r.Err? ==> r.error == NumberFormatException
    ensures r.Ok? ==> |s| >= 1
    ensures r.Ok? && IsDigit(s[0]) ==> AllDigits(s) && r.value == DigitsValue(s)
    ensures r.Ok? && s[0] == '-' ==> AllDigits(s[1..]) && r.value == -(DigitsValue(s[1..]) as int)
    ensures r.Ok? && s[0] == '+' ==> AllDigits(s[1..]) && r.value == DigitsValue(s[1..])
    ensures r.Ok? && !IsDigit(s[0]) ==> s[0] == '-' || s[0] == '+'
    ensures r.Ok? <==> WellFormedInt(s) && INT32_MIN <= SignedValue(s) <= INT32_MAX
    ensures r.Ok? ==> r.value == SignedValue(s)
  {
    if |s| == 0 then Err(NumberFormatException)
    else
      var signed := s[0] == '-' || s[0] == '+';
      var digits := if signed then s[1..] else s;
      if |digits| == 0 || !AllDigits(digits) then Err(NumberFormatException)
      else
        var v: int := if s[0] == '-' then -(DigitsValue(digits) as int) else DigitsValue(digits);
        if INT32_MIN <= v <= INT32_MAX then Ok(v) else Err(NumberFormatException)
  }

  /** `Integer.toString(n)`. */
  function FormatInt(n: int): string {
    if n < 0 then "-" + NatToDigits(-n) else NatToDigits(n)
  }

  /** Reading back the digits of `n` yields `n`. */
  lemma {:induction false} DigitsRoundTrip(n: nat)
    ensures DigitsValue(NatToDigits(n)) == n
  {
    if n >= 10 {
      var s := NatToDigits(n);
      assert s[..|s| - 1] == NatToDigits(n / 10);
      DigitsRoundTrip(n / 10);
    }
  }

  /** Every `int` survives printing and parsing. */
  lemma ParseFormatRoundTrip(n: Int32)
    ensures ParseInt(FormatInt(n)) == Ok(n)
  {
    if n < 0 {
      var m: nat := -(n as int);
      DigitsRoundTrip(m);
      assert FormatInt(n)[1..] == NatToDigits(m);
    } else {
      DigitsRoundTrip(n);
    }
  }

  /** Printing then parsing is the identity on every `int` at once. */
  lemma FormatIntInjective()
    ensures forall n: Int32 :: ParseInt(FormatInt(n)) == Ok(n)
  {
    forall n: Int32 ensures ParseInt(FormatInt(n)) == Ok(n) {
      ParseFormatRoundTrip(n);
    }
  }

  /** Typical inputs: a sign alone, a space, an explicit plus, and one past
      the largest `int`. */
  lemma ParseIntExamples()
    ensures ParseInt("") == Err(NumberFormatException)
    ensures ParseInt("-") == Err(NumberFormatException)
    ensures ParseInt(" 80") == Err(NumberFormatException)
    ensures ParseInt("+8080") == Ok(8080)
    ensures ParseInt(FormatInt(INT32_MAX + 1)) == Err(NumberFormatException)
  {
    assert DigitsValue("8080") == 8080 by {
      assert "8080"[..3] == "808" && "808"[..2] == "80" && "80"[..1] == "8";
    }
    assert "+8080"[1..] == "8080";
    DigitsRoundTrip(INT32_MAX + 1);
  }

  function ToLowerAscii(c: char): char {
    if 'A' <= c <= 'Z' then (c as int + 32) as char else c
  }

  /** `Boolean.parseBoolean(s)`: `"true"` in any letter case; the letters of
      "true" have no other case variants. */
  function ParseBoolean(s: string): (b: bool)
    ensures b <==> |s| == 4 && forall i :: 0 <= i < 4 ==> ToLowerAscii(s[i]) == "true"[i]
  {
    |s| == 4 && ToLowerAscii(s[0]) == 't' && ToLowerAscii(s[1]) == 'r'
    && ToLowerAscii(s[2]) == 'u' && ToLowerAscii(s[3]) == 'e'
  }

  /** `Boolean.toString(b)` parses back to `b`; nothing but a spelling of
      "true" is true. */
  lemma ParseBooleanExamples(b: bool)
    ensures ParseBoolean(if b then "true" else "false") == b
    ensures ParseBoolean("TRUE") && ParseBoolean("True")
    ensures !ParseBoolean("yes") && !ParseBoolean("1") && !ParseBoolean("")
  {
  }

  /** `getIntProperty`: a missing key or a malformed number; NumberFormatException
      is not translated. */
  function GetIntProperty(t: PropertiesTable, key: string): (r: Result<Int32>)
    ensures GetStringProperty(t, key).Err? ==> r == Err(NoSuchElementException)
    ensures GetStringProperty(t, key).Ok? ==> r == ParseInt(GetStringProperty(t, key).value)
  {
    match GetStringProperty(t, key)
    case Err(e) => Err(e)
    case Ok(s) => ParseInt(s)
  }

  /** `getBooleanProperty`: only a missing key fails. */
  function GetBooleanProperty(t: PropertiesTable, key: string): (r: Result<bool>)
    ensures r.Err? <==> key !in t.user && key !in t.defaults
    ensures r.Ok? ==> r.value == ParseBoolean(GetStringProperty(t, key).value)
  {
    match GetStringProperty(t, key)
    case Err(e) => Err(e)
    case Ok(s) => Ok(ParseBoolean(s))
  }

  /** The position of `name` among the enum's constant names. */
  function IndexOfName(names: seq<string>, name: string): (i: nat)
    requires name in names
    ensures i < |names| && names[i] == name
  {
    if names[0] == name then 0 else 1 + IndexOfName(names[1..], name)
  }

  /** `EnumProperty.loadFromProperties`: `Enum.valueOf` by constant name, given
      as its ordinal; an unknown name becomes InvalidPropertiesFormatException. */
  function LoadEnum(t: PropertiesTable, key: string, names: seq<string>): (r: Result<nat>)
    ensures GetStringProperty(t, key).Err? ==> r == Err(NoSuchElementException)
    ensures GetStringProperty(t, key).Ok? && GetStringProperty(t, key).value !in names ==>
      r == Err(InvalidPropertiesFormatException)
    ensures r.Ok? <==> GetStringProperty(t, key).Ok? && GetStringProperty(t, key).value in names
    ensures r.Ok? ==> r.value < |names| && names[r.value] == GetStringProperty(t, key).value
  {
    match GetStringProperty(t, key)
    case Err(e) => Err(e)
    case Ok(s) => if s in names then Ok(IndexOfName(names, s)) else Err(InvalidPropertiesFormatException)
  }

  /** `UriProperty.loadFromProperties`: `parse` is `new URI(s)`, `None` standing
      for URISyntaxException, which becomes InvalidPropertiesFormatException. */
  function LoadUri<U>(t: PropertiesTable, key: string, parse: string -> Option<U>): (r: Result<U>)
    ensures GetStringProperty(t, key).Err? ==> r == Err(NoSuchElementException)
    ensures GetStringProperty(t, key).Ok? && parse(GetStringProperty(t, key).value).None? ==>
      r == Err(InvalidPropertiesFormatException)
    ensures GetStringProperty(t, key).Ok? && parse(GetStringProperty(t, key).value).Some? ==>
      r == Ok(parse(GetStringProperty(t, key).value).value)
    ensures r.Ok? ==> Some(r.value) == parse(GetStringProperty(t, key).value)
  {
    match GetStringProperty(t, key)
    case Err(e) => Err(e)
    case Ok(s) => match parse(s) case None => Err(InvalidPropertiesFormatException) case Some(u) => Ok(u)
  }

  /** The state of one setting: its value (`None` until first assigned) and
      whether a load has succeeded. */
  datatype PropertyState<T> = PropertyState(value: Option<T>, loaded: bool)

  /** A missing validator accepts everything. */
  predicate Accepts<T>(validator: Option<T -> bool>, v: T) {
    validator.None? || validator.value(v)
  }

  /** `Property.load`: the read value is assigned before it is validated, so a
      rejected value stays in place while `loaded` keeps its old value. */
  function LoadStep<T>(s: PropertyState<T>, read: Result<T>, validator: Option<T -> bool>): (PropertyState<T>, Outcome) {
    match read
    case Err(e) => (s, Fail(e))
    case Ok(v) =>
      if Accepts(validator, v) then (PropertyState(Some(v), true), Pass)
      else (PropertyState(Some(v), s.loaded), Fail(InvalidPropertiesFormatException))
  }

  /** `Property.get`. */
  function GetStep<T>(s: PropertyState<T>): Result<T>
    requires s.loaded ==> s.value.Some?
  {
    if !s.loaded then Err(IllegalStateException) else Ok(s.value.value)
  }

  /** A load succeeds exactly when the value is read and accepted; then `get`
      returns that value. */
  lemma LoadThenGet<T>(s: PropertyState<T>, read: Result<T>, validator: Option<T -> bool>)
    requires s.loaded ==> s.value.Some?
    ensures LoadStep(s, read, validator).1.Pass? <==> read.Ok? && Accepts(validator, read.value)
    ensures var s' := LoadStep(s, read, validator).0;
      (s'.loaded ==> s'.value.Some?)
      && (LoadStep(s, read, validator).1.Pass? ==> GetStep(s') == Ok(read.value))
  {
  }

  /** Replays a sequence of loads from a state. */
  function LoadAll<T>(s: PropertyState<T>, loads: seq<Result<T>>, validator: Option<T -> bool>): PropertyState<T>
    decreases |loads|
  {
    if |loads| == 0 then s else LoadAll(LoadStep(s, loads[0], validator).0, loads[1..], validator)
  }

  /** Starting unloaded, `get` fails after any sequence of loads none of which
      succeeded, and succeeds after one that did: loading never unsets
      `loaded`. */
  lemma {:induction false} LoadedIffSomeLoadAccepted<T>(s: PropertyState<T>, loads: seq<Result<T>>, validator: Option<T -> bool>)
    ensures LoadAll(s, loads, validator).loaded <==>
      s.loaded || exists i :: 0 <= i < |loads| && loads[i].Ok? && Accepts(validator, loads[i].value)
    decreases |loads|
  {
    if |loads| > 0 {
      var next := LoadStep(s, loads[0], validator).0;
      LoadedIffSomeLoadAccepted(next, loads[1..], validator);
      assert forall i :: 1 <= i < |loads| ==> loads[i] == loads[1..][i - 1];
      if exists i :: 0 <= i < |loads| && loads[i].Ok? && Accepts(validator, loads[i].value) {
        var i :| 0 <= i < |loads| && loads[i].Ok? && Accepts(validator, loads[i].value);
        if i > 0 {
          assert loads[1..][i - 1] == loads[i];
        }
      }
    }
  }

  /** The inner class `Property<T>`; `reader` is the subclass's
      `loadFromProperties`. */
  class Property<T> {
    const key: string
    const validator: Option<T -> bool>
    const reader: (PropertiesTable, string) -> Result<T>
    var value: Option<T>
    var loaded: bool

    ghost predicate Valid()
      reads this
    {
      loaded ==> value.Some?
    }

    constructor (key: string, validator: Option<T -> bool>, reader: (PropertiesTable, string) -> Result<T>)
      ensures this.key == key && this.validator == validator && this.reader == reader
      ensures value == None && !loaded
      ensures Valid()
    {
      this.key, this.validator, this.reader := key, validator, reader;
      value, loaded := None, false;
    }

    /** `load()`, reading from the enclosing settings' table. */
    method Load(props: PropertiesTable) returns (o: Outcome)
      requires Valid()
      modifies this
      ensures Valid()
      ensures (PropertyState(value, loaded), o) == LoadStep(old(PropertyState(value, loaded)), reader(props, key), validator)
    {
      var read := reader(props, key);
      if read.Err? {
        return Fail(read.error);
      }
      value := Some(read.value);
      if validator.Some? && !validator.value(read.value) {
        return Fail(InvalidPropertiesFormatException);
      }
      loaded := true;
      return Pass;
    }

    /** `get()`. */
    method Get() returns (r: Result<T>)
      requires Valid()
      ensures r == GetStep(PropertyState(value, loaded))
      ensures !loaded ==> r == Err(IllegalStateException)
      ensures loaded ==> r == Ok(value.value)
    {
      if !loaded {
        return Err(IllegalStateException);
      }
      return Ok(value.value);
    }
  }

  /** `StringProperty.loadFromProperties`: the raw table entry. */
  function StringReader(t: PropertiesTable, key: string): (r: Result<string>)
    ensures r.Err? <==> GetProperty(t, key).None?
    ensures r.Err? ==> r.error == NoSuchElementException
    ensures r.Ok? ==> GetProperty(t, key) == Some(r.value)
  {
    GetStringProperty(t, key)
  }

  /** `IntegerProperty.loadFromProperties`: the entry as an `int`; an entry
      written by `Integer.toString(n)` loads as `n`. */
  function IntegerReader(t: PropertiesTable, key: string): (r: Result<Int32>)
    ensures GetProperty(t, key).None? ==> r == Err(NoSuchElementException)
    ensures GetProperty(t, key).Some? ==> r == ParseInt(GetProperty(t, key).value)
    ensures forall n: Int32 :: GetProperty(t, key) == Some(FormatInt(n)) ==> r == Ok(n)
  {
    FormatIntInjective();
    GetIntProperty(t, key)
  }

  /** `BooleanProperty.loadFromProperties`: only a missing entry fails, and any
      entry but a spelling of "true" is false. */
  function BooleanReader(t: PropertiesTable, key: string): (r: Result<bool>)
    ensures r.Err? <==> GetProperty(t, key).None?
    ensures r.Err? ==> r.error == NoSuchElementException
    ensures r.Ok? ==> (r.value <==> ParseBoolean(GetProperty(t, key).value))
  {
    GetBooleanProperty(t, key)
  }

  /** The idShort rule as a property validator. */
  function IdShortCheck(s: string): bool {
    IsValidIdShort(Some(s))
  }

  /** The validator of `applicationPort`. */
  function PortCheck(v: Int32): bool {
    v > 0
  }

  /** The port rule is the positive-integer rule. */
  lemma PortCheckIsPositive(v: Int32)
    ensures PortCheck(v) <==> IsValidPositive(Some(v)) == Ok(true)
    ensures PortCheck(v) <==> 1 <= v <= INT32_MAX
  {
  }

  /** The six predefined settings; `U` is the URI type and `parseUri` its
      constructor. */
  class AasProperties<U> {
    var properties: PropertiesTable
    const aasName: Property<string>
    const aasUri: Property<U>
    const assetName: Property<string>
    const assetUri: Property<U>
    const applicationPort: Property<Int32>
    const aplicationHostname: Property<string>

    /** `AasProperties(userFilePath)`: the defaults wrapped in an empty user table. */
    constructor (defaults: map<string, string>, parseUri: string -> Option<U>)
      ensures properties == PropertiesTable(map[], defaults)
      ensures aasName.key == "aas.name" && aasName.validator == Some(IdShortCheck)
      ensures aasUri.key == "aas.uri" && aasUri.validator == None
      ensures assetName.key == "asset.name" && assetName.validator == Some(IdShortCheck)
      ensures assetUri.key == "asset.uri" && assetUri.validator == None
      ensures applicationPort.key == "aas.listening_port" && applicationPort.validator == Some(PortCheck)
      ensures aplicationHostname.key == "aas.hostname" && aplicationHostname.validator == None
      ensures aasName.reader == StringReader && assetName.reader == StringReader
      ensures aplicationHostname.reader == StringReader && applicationPort.reader == IntegerReader
      ensures aasUri.reader == assetUri.reader == ((t, k) => LoadUri(t, k, parseUri))
      ensures fresh(aasName) && fresh(aasUri) && fresh(assetName) && fresh(assetUri)
      ensures fresh(applicationPort) && fresh(aplicationHostname)
      ensures !aasName.loaded && !aasUri.loaded && !assetName.loaded && !assetUri.loaded
      ensures !applicationPort.loaded && !aplicationHostname.loaded
    {
      properties := PropertiesTable(map[], defaults);
      var uriReader := (t, k) => LoadUri(t, k, parseUri);
      aasName := new Property("aas.name", Some(IdShortCheck), StringReader);
      aasUri := new Property("aas.uri", None, uriReader);
      assetName := new Property("asset.name", Some(IdShortCheck), StringReader);
      assetUri := new Property("asset.uri", None, uriReader);
      applicationPort := new Property("aas.listening_port", Some(PortCheck), IntegerReader);
      aplicationHostname := new Property("aas.hostname", None, StringReader);
    }
  }

  /** A port of 0 is rejected but kept; `get` still fails. A user entry
      shadows the default and loads. */
  method PortLoading() returns (zero: Outcome, zeroGet: Result<Int32>, user: Outcome, userGet: Result<Int32>)
    ensures zero == Fail(InvalidPropertiesFormatException) && zeroGet == Err(IllegalStateException)
    ensures user == Pass && userGet == Ok(8080)
  {
    var port := new Property("aas.listening_port", Some(PortCheck), IntegerReader);
    var defaults := map["aas.listening_port" := "0"];
    assert ParseInt("0") == Ok(0) by {
      assert AllDigits("0");
    }
    zero := port.Load(PropertiesTable(map[], defaults));
    zeroGet := port.Get();
    assert ParseInt("8080") == Ok(8080) by {
      assert AllDigits("8080");
      assert DigitsValue("8080") == 8080 by {
        assert "8080"[..3] == "808" && "808"[..2] == "80" && "80"[..1] == "8";
      }
    }
    user := port.Load(PropertiesTable(map["aas.listening_port" := "8080"], defaults));
    userGet := port.Get();
  }
}
