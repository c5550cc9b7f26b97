# p4m-helpers core, modelled in Dafny

This project models the core of the Papyrus4Manufacturing helper library. The
library connects the properties of an Asset Administration Shell (AAS), served
through Eclipse BaSyx, to the assets behind them. The model covers:

- **ConnectedProperty** (`ConnectedProperties`): a property whose value is read
  from named suppliers and written to named consumers. Several connections need
  a supply or consume filter.
- **OpcUaVariable** and its factory (`OpcUaVariables`,
  `OpcUaVariableFactories`): one OPC UA node read and written through a client.
  Reads are cached for a configurable duration, and unsigned protocol types are
  converted to wider JVM types. The factory keeps a registry keyed by client and
  node.
- **ValueDelegate** and **CollectionDelegate** (`ValueDelegates`): the handler
  map installed into an element's value slot. A collection's elements are keyed
  by idShort on the way out, and the map's values are passed on the way in.
- **SubmodelWrapper** (`SubmodelWrappers`): the BaSyx path strings built from
  idShorts.
- **AasProperties** (`AasConfiguration`): settings looked up in a properties
  table with defaults. Each setting is parsed by its kind (string, int, boolean,
  enum, URI), checked by an optional validator, and kept in a small load/get
  state machine.
- **IdShortValidator** and **PositiveIntegerValidator** (`Validators`).
- **CertificateProvider** and **DirectCertificateProvider**
  (`CertificateProviders`): a key pair and certificate loaded through an
  acyclic chain of fallback providers.

`lang.dfy` holds the shared `Option`, `Result`, `Outcome` and Java exception
types. `values.dfy` holds the Java and OPC UA values that cross the client
boundary. A Java exception is an `Err`/`Fail` value. A Java `null` is `None`
where the source handles it.

Outside effects are parameters:
- The clock is an integer `now` passed to each call.
- The OPC UA server's answer is a `response` argument. The client object logs
  every read and write.
- Suppliers, consumers, filters and handlers are Dafny function values.
- Lambda call logs are ghost multisets. HashMap iteration order is left open
  with `:|` choices.

Two places where the code does less than its names and javadoc suggest. The
model follows the code in both:
- The names `mapUnsignedToBaSyx` and `mapBaSyxToUnsigned` suggest a forward and
  a reverse map, but both bodies widen (OpcUaVariable.java:145-171). So a correctly typed unsigned value is handed to the
  client as the wider JVM class (`OpcUaVariables.WrittenUnsignedValueChangesClass`).
- `applyValue` refreshes the cache timestamp but not the cached value. A read
  inside the cache window after a write therefore returns the old value
  (`OpcUaVariables.CachedWriteThenRead`). The class javadoc speaks only of
  caching a value "after fetching".

## Model

Source paths are relative to the repository root.

| member | source | states |
|---|---|---|
| Values.ClassOf | src/main/java/com/festo/aas/p4m/connection/OpcUaVariable.java:173-175 | `getClass()` has no answer exactly for null |
| OpcUaVariables.CacheValid | src/main/java/com/festo/aas/p4m/connection/OpcUaVariable.java:126-128 | valid iff the stamp is set and the clock is before stamp + duration; so never for an unset stamp, expired at the end of the window, valid throughout it, and with a zero duration valid only when the clock is behind the stamp |
| OpcUaVariables.IsCorrectType | src/main/java/com/festo/aas/p4m/connection/OpcUaVariable.java:173-175 | a null value throws NullPointerException; otherwise true iff the runtime class is the configured one |
| OpcUaVariables.MapUnsignedToBaSyx | src/main/java/com/festo/aas/p4m/connection/OpcUaVariable.java:145-157 | each unsigned wrapper goes to the next wider signed class with the same number and stays in range; other classes pass unchanged |
| OpcUaVariables.MapBaSyxToUnsigned | src/main/java/com/festo/aas/p4m/connection/OpcUaVariable.java:159-171 | as written, the same widening: the class changes, the number does not |
| OpcUaVariables.WrittenUnsignedValueChangesClass | src/main/java/com/festo/aas/p4m/connection/OpcUaVariable.java:110-124 | the value written for an unsigned node equals the read conversion, and it no longer has the node's configured class |
| OpcUaVariables.Received | src/main/java/com/festo/aas/p4m/connection/OpcUaVariable.java:130-143 | a read error passes through; a null answer gives NullPointerException; a wrong class gives ProviderException; otherwise the converted value |
| OpcUaVariables.OpcUaClient.ReadValue | src/main/java/com/festo/aas/p4m/connection/OpcUaVariable.java:132 | returns the server's answer and logs exactly one read of that node |
| OpcUaVariables.OpcUaClient.WriteValue | src/main/java/com/festo/aas/p4m/connection/OpcUaVariable.java:121 | returns the server's outcome and logs exactly one write of that node and value |
| OpcUaVariables.OpcUaVariable.constructor | src/main/java/com/festo/aas/p4m/connection/OpcUaVariable.java:82-87 | stores client, node, class and duration; the stamp is Instant.MIN; no cached value |
| OpcUaVariables.OpcUaVariable.Uncached | src/main/java/com/festo/aas/p4m/connection/OpcUaVariable.java:65-67 | the three-argument constructor uses a zero duration |
| OpcUaVariables.OpcUaVariable.GetValue | src/main/java/com/festo/aas/p4m/connection/OpcUaVariable.java:98-108 | a valid cache answers without any server read; otherwise one read and the FetchValue outcome; never writes |
| OpcUaVariables.OpcUaVariable.FetchValue | src/main/java/com/festo/aas/p4m/connection/OpcUaVariable.java:130-143 | one read; on success caches the converted value stamped now; on failure cache and stamp unchanged |
| OpcUaVariables.OpcUaVariable.ApplyValue | src/main/java/com/festo/aas/p4m/connection/OpcUaVariable.java:110-124 | a mistyped or null value fails with no write; otherwise one write of the converted value; only a successful write restamps; the cached value never changes |
| OpcUaVariables.ReadTwiceWithinWindow | src/main/java/com/festo/aas/p4m/connection/OpcUaVariable.java:98-108 | two reads inside the window reach the server once and return the same value; a read after the window reaches it again |
| OpcUaVariables.MismatchedWriteContactsNoServer | src/main/java/com/festo/aas/p4m/connection/OpcUaVariable.java:110-118 | a wrongly typed write fails, writes nothing and leaves the stamp unset |
| OpcUaVariables.UncachedWriteThenRead | src/main/java/com/festo/aas/p4m/connection/OpcUaVariable.java:65-67 | without caching, a read after a write goes to the server and sees the written number |
| OpcUaVariables.CachedWriteThenRead | src/main/java/com/festo/aas/p4m/connection/OpcUaVariable.java:123 | with caching, a read right after a write returns the stale cached value without a server read |
| OpcUaVariables.UnsignedByteIsWidened | src/main/java/com/festo/aas/p4m/connection/OpcUaVariable.java:146-147 | an UnsignedByte read is returned as a Short of the same number |
| OpcUaVariableFactories.OpcUaVariableFactory.constructor | src/main/java/com/festo/aas/p4m/connection/OpcUaVariableFactory.java:29 | the registry starts empty |
| OpcUaVariableFactories.OpcUaVariableFactory.CreateIfNonexistent | src/main/java/com/festo/aas/p4m/connection/OpcUaVariableFactory.java:45-50 | the first registration of client and node wins: an existing one is returned unchanged; otherwise a fresh variable is added; every other entry is kept |
| OpcUaVariableFactories.OpcUaVariableFactory.Create | src/main/java/com/festo/aas/p4m/connection/OpcUaVariableFactory.java:66-68 | always a fresh, never-fetched variable with the given arguments |
| OpcUaVariableFactories.ExtendsTransitive | src/main/java/com/festo/aas/p4m/connection/OpcUaVariableFactory.java:45-50 | registrations are never lost over any sequence of calls |
| OpcUaVariableFactories.FirstRegistrationWins | src/main/java/com/festo/aas/p4m/connection/OpcUaVariableFactory.java:45-50 | a second request with another class and duration gets the first variable, configured as first requested |
| ConnectedProperties.ConnectedProperty.constructor | src/main/java/com/festo/aas/p4m/connection/ConnectedProperty.java:44-47 | no suppliers, no consumers, no filters |
| ConnectedProperties.ConnectedProperty.FetchConnectedValues | src/main/java/com/festo/aas/p4m/connection/ConnectedProperty.java:172-180 | each supplier is called at most once; on success all were called and the map holds each supplier's value under its name; an error comes from a supplier that was called |
| ConnectedProperties.ConnectedProperty.GetValue | src/main/java/com/festo/aas/p4m/connection/ConnectedProperty.java:69-89 | no supplier, or several without a filter, gives IllegalStateException with no supplier called; a single supplier without a filter gives its value; with a filter, the filter applied to the name-to-value map |
| ConnectedProperties.ConnectedProperty.ApplyValueToConsumer | src/main/java/com/festo/aas/p4m/connection/ConnectedProperty.java:182-188 | an unknown name gives IllegalArgumentException with no call; otherwise exactly one call of that consumer |
| ConnectedProperties.ConnectedProperty.Dispatch | src/main/java/com/festo/aas/p4m/connection/ConnectedProperty.java:104-106 | passes iff every entry names a consumer that accepts its value; then each entry is delivered exactly once and no other consumer is called; a failure is IllegalArgumentException for an unknown name or the error of a consumer of an entry |
| ConnectedProperties.ConnectedProperty.SetValue | src/main/java/com/festo/aas/p4m/connection/ConnectedProperty.java:91-108 | no consumer, or several without a filter, gives IllegalStateException with no consumer called; a single consumer gets the value; with a filter, a filter error is raised with no consumer called, and otherwise the filter's map is dispatched: it passes iff every entry is deliverable, each entry is delivered at most once (exactly once on a pass), and a failure is IllegalArgumentException for an entry naming no consumer or the error of an entry's consumer |
| ConnectedProperties.ConnectedProperty.AddPropertyValueSupplier | src/main/java/com/festo/aas/p4m/connection/ConnectedProperty.java:119-126 | a null name gives NullPointerException and a taken name IllegalArgumentException, both with the map unchanged; otherwise exactly that entry is added |
| ConnectedProperties.ConnectedProperty.AddPropertyValueConsumer | src/main/java/com/festo/aas/p4m/connection/ConnectedProperty.java:137-144 | as written: a name already used by a supplier is rejected; any other name, even a consumer's, is stored, replacing it |
| ConnectedProperties.ConnectedProperty.AddPropertyValueConsumerCorrected | src/main/java/com/festo/aas/p4m/connection/ConnectedProperty.java:137-144 | as documented: a name already used by a consumer is rejected; otherwise exactly that entry is added |
| ConnectedProperties.ConnectedProperty.SetSupplyFilter | src/main/java/com/festo/aas/p4m/connection/ConnectedProperty.java:152-154 | replaces the supply filter and nothing else |
| ConnectedProperties.ConnectedProperty.SetConsumeFilter | src/main/java/com/festo/aas/p4m/connection/ConnectedProperty.java:162-164 | replaces the consume filter and nothing else |
| ConnectedProperties.TwoSuppliersNeedAFilter | src/main/java/com/festo/aas/p4m/connection/ConnectedProperty.java:75-86 | two suppliers without a filter fail without a call; with a summing filter each is called once and the sum is returned |
| ConnectedProperties.SplitDeliversEachShare | src/main/java/com/festo/aas/p4m/connection/ConnectedProperty.java:102-106 | a 40:60 consume filter delivers each share once, to its consumer |
| ConnectedProperties.ConsumerNamesCheckedAgainstSuppliers | src/main/java/com/festo/aas/p4m/connection/ConnectedProperty.java:137-144 | as written, a consumer named like a supplier is refused and a repeated consumer name silently replaces the first consumer; the corrected method does the opposite |
| ValueDelegates.ValueDelegate.constructor | src/main/java/com/festo/aas/p4m/connection/ValueDelegate.java:54-66 | a fresh lambda map holding exactly the two throwing default handlers |
| ValueDelegates.ValueDelegate.SetGetHandler | src/main/java/com/festo/aas/p4m/connection/ValueDelegate.java:122-124 | replaces the getter and leaves every other entry alone |
| ValueDelegates.ValueDelegate.SetSetHandler | src/main/java/com/festo/aas/p4m/connection/ValueDelegate.java:131-133 | replaces the setter and leaves every other entry alone |
| ValueDelegates.ValueDelegate.InstallOn | src/main/java/com/festo/aas/p4m/connection/ValueDelegate.java:85-89 | the element's value slot becomes the new delegate's own map, the shared object and not a copy |
| ValueDelegates.ToIdShortMap | src/main/java/com/festo/aas/p4m/connection/CollectionDelegate.java:40-41 | succeeds iff idShorts are distinct, else IllegalStateException; the keys are exactly the idShorts and each element sits under its own idShort |
| ValueDelegates.ToIdShortMapKeepsElements | src/main/java/com/festo/aas/p4m/connection/CollectionDelegate.java:38-54 | the map's values are the list's elements, each exactly as often as in the list, so a read handed back by a write loses nothing |
| ValueDelegates.CollectedById | src/main/java/com/festo/aas/p4m/connection/CollectionDelegate.java:38-45 | the user's error passes through; duplicates give IllegalStateException; otherwise a map whose keys are the idShorts, with each element under its own idShort and every element as often as in the list |
| ValueDelegates.ValuesToHandler | src/main/java/com/festo/aas/p4m/connection/CollectionDelegate.java:48-54 | a map's values go to the user's setter; a null passes the cast and throws NullPointerException at `map.values()`; any other object fails the cast with ClassCastException |
| ValueDelegates.CollectionDelegate.constructor | src/main/java/com/festo/aas/p4m/connection/ValueDelegate.java:62-66 | the base constructor's handler calls dispatch to the overrides, so even the defaults are wrapped |
| ValueDelegates.CollectionDelegate.SetGetHandler | src/main/java/com/festo/aas/p4m/connection/CollectionDelegate.java:38-45 | puts the idShort-keying wrapper of the user's getter, and changes nothing else |
| ValueDelegates.CollectionDelegate.SetSetHandler | src/main/java/com/festo/aas/p4m/connection/CollectionDelegate.java:48-54 | puts the values-passing wrapper of the user's setter, and changes nothing else |
| ValueDelegates.CollectionDelegate.InstallOn | src/main/java/com/festo/aas/p4m/connection/ValueDelegate.java:110-115 | a collection's value slot becomes a fresh CollectionDelegate's map with the wrapped defaults |
| ValueDelegates.HandlerVisibleThroughElement | src/main/java/com/festo/aas/p4m/connection/ValueDelegate.java:85-89 | a getter set after installation is the one reached through the element; the setter still throws UnsupportedOperationException |
| ValueDelegates.CollectionReadThroughElement | src/main/java/com/festo/aas/p4m/connection/CollectionDelegate.java:38-45 | a read through a collection yields exactly the map from each idShort to its element; a repeated idShort makes the read fail with IllegalStateException |
| ValueDelegates.CollectionDefaultsThrow | src/main/java/com/festo/aas/p4m/connection/ValueDelegate.java:54-59 | before user handlers are set, a collection's read and write throw UnsupportedOperationException; a non-null non-map write fails the cast, and a null write throws NullPointerException (CollectionDelegate.java:49-50) |
| SubmodelWrappers.GeneratePath | src/main/java/com/festo/aas/p4m/connection/SubmodelWrapper.java:164-171 | a null prefix throws NullPointerException; otherwise prefix, idShorts joined by "/", then the suffix if any |
| SubmodelWrappers.SetValueMatchesGetValue | src/main/java/com/festo/aas/p4m/connection/SubmodelWrapper.java:139-158 | setValue writes the unchanged value to the path getValue reads: "submodelElements/" + joined idShorts + "/value" |
| SubmodelWrappers.ValuePathExamples | src/main/java/com/festo/aas/p4m/connection/SubmodelWrapper.java:139-142 | the value paths of one idShort and of none |
| SubmodelWrappers.SplitJoin | src/main/java/com/festo/aas/p4m/connection/SubmodelWrapper.java:166 | cutting the joined idShorts at every "/" gives them back |
| SubmodelWrappers.ValuePathRoundTrip | src/main/java/com/festo/aas/p4m/connection/SubmodelWrapper.java:139-142 | a value path determines the idShorts it was built from |
| SubmodelWrappers.GetValue | src/main/java/com/festo/aas/p4m/connection/SubmodelWrapper.java:139-142 | a read of "submodelElements/" + joined idShorts + "/value", from which separator-free idShorts can be read back |
| SubmodelWrappers.SetValue | src/main/java/com/festo/aas/p4m/connection/SubmodelWrapper.java:155-158 | a write of the unchanged value to the same value path, from which separator-free idShorts can be read back |
| SubmodelWrappers.ElementPath | src/main/java/com/festo/aas/p4m/connection/SubmodelWrapper.java:122-123 | as written, building the path for getSubmodelElement throws NullPointerException for every input |
| SubmodelWrappers.ElementPathAlwaysThrows | src/main/java/com/festo/aas/p4m/connection/SubmodelWrapper.java:160-162 | as written, the element path throws NullPointerException for every input, while the intended join succeeds and reads back |
| SubmodelWrappers.CorrectedElementPath | src/main/java/com/festo/aas/p4m/connection/SubmodelWrapper.java:160-162 | corrected: the idShorts joined by "/", from which they can be read back |
| Validators.RunAcceptsIdShorts | src/main/java/com/festo/aas/p4m/validators/IdShortValidator.java:15 | the left-to-right matcher accepts exactly the strings of one ASCII letter followed by word characters |
| Validators.IsValidIdShort | src/main/java/com/festo/aas/p4m/validators/IdShortValidator.java:22-24 | true iff the value is non-null and an idShort |
| Validators.IdShortExamples | src/main/java/com/festo/aas/p4m/validators/IdShortValidator.java:15 | null, empty, a leading digit and a hyphen are rejected; "m" and "Motor_1" are accepted |
| Validators.IdShortCorollaries | src/main/java/com/festo/aas/p4m/validators/IdShortValidator.java:15 | a non-word character anywhere, or a non-letter first, rejects; any single letter is accepted |
| Validators.IsValidPositive | src/main/java/com/festo/aas/p4m/validators/PositiveIntegerValidator.java:27-29 | null throws NullPointerException on unboxing; otherwise true iff 1 <= value <= the largest int |
| Validators.PositiveExamples | src/main/java/com/festo/aas/p4m/validators/PositiveIntegerValidator.java:27-29 | 0 and negatives are rejected; 1 and the largest int are accepted |
| AasConfiguration.GetProperty | src/main/java/com/festo/aas/p4m/configuration/AasProperties.java:96-100 | a user entry shadows the default; absent from both gives null |
| AasConfiguration.GetStringProperty | src/main/java/com/festo/aas/p4m/configuration/AasProperties.java:218-224 | a key set nowhere gives NoSuchElementException; otherwise the user's or else the default's string |
| AasConfiguration.ParseInt | src/main/java/com/festo/aas/p4m/configuration/AasProperties.java:239-241 | succeeds iff the string is an optional sign and at least one digit and nothing else, with a value within the int range, and then yields that value (a leading '+' included); anything else gives NumberFormatException |
| AasConfiguration.ParseFormatRoundTrip | src/main/java/com/festo/aas/p4m/configuration/AasProperties.java:239-241 | every int survives printing and parsing |
| AasConfiguration.ParseIntExamples | src/main/java/com/festo/aas/p4m/configuration/AasProperties.java:239-241 | empty, a lone sign, a space and one past the largest int are rejected; "+8080" is 8080 |
| AasConfiguration.GetIntProperty | src/main/java/com/festo/aas/p4m/configuration/AasProperties.java:239-241 | a missing key gives NoSuchElementException; otherwise the parse of the string, NumberFormatException included |
| AasConfiguration.ParseBoolean | src/main/java/com/festo/aas/p4m/configuration/AasProperties.java:254-256 | true iff "true" in any letter case |
| AasConfiguration.ParseBooleanExamples | src/main/java/com/festo/aas/p4m/configuration/AasProperties.java:254-256 | printed booleans parse back; "TRUE" and "True" are true; "yes", "1" and "" are false |
| AasConfiguration.GetBooleanProperty | src/main/java/com/festo/aas/p4m/configuration/AasProperties.java:254-256 | fails only for a missing key |
| AasConfiguration.LoadEnum | src/main/java/com/festo/aas/p4m/configuration/AasProperties.java:400-410 | a missing key gives NoSuchElementException; an unknown constant name gives InvalidPropertiesFormatException; succeeds iff the string names a constant, and then yields that constant |
| AasConfiguration.LoadUri | src/main/java/com/festo/aas/p4m/configuration/AasProperties.java:427-434 | a missing key gives NoSuchElementException; a syntax error gives InvalidPropertiesFormatException; a successful parse gives Ok of the parsed URI |
| AasConfiguration.StringReader | src/main/java/com/festo/aas/p4m/configuration/AasProperties.java:375-378 | NoSuchElementException iff the key is set nowhere; otherwise the table's entry |
| AasConfiguration.IntegerReader | src/main/java/com/festo/aas/p4m/configuration/AasProperties.java:355-358 | a missing key gives NoSuchElementException; otherwise the parse of the entry; an entry printed from an int loads as that int |
| AasConfiguration.BooleanReader | src/main/java/com/festo/aas/p4m/configuration/AasProperties.java:447-450 | NoSuchElementException iff the key is set nowhere; otherwise true iff the entry spells "true" |
| AasConfiguration.FormatIntInjective | src/main/java/com/festo/aas/p4m/configuration/AasProperties.java:239-241 | for every int at once, parsing its printed form gives it back |
| AasConfiguration.LoadThenGet | src/main/java/com/festo/aas/p4m/configuration/AasProperties.java:310-338 | a load passes iff the read succeeds and the validator accepts; afterwards get returns the value |
| AasConfiguration.LoadedIffSomeLoadAccepted | src/main/java/com/festo/aas/p4m/configuration/AasProperties.java:310-320 | after any sequence of loads, a setting is loaded iff it was loaded before or one load was read and accepted |
| AasConfiguration.Property.constructor | src/main/java/com/festo/aas/p4m/configuration/AasProperties.java:301-308 | key and validator stored; no value; not loaded |
| AasConfiguration.Property.Load | src/main/java/com/festo/aas/p4m/configuration/AasProperties.java:310-320 | a read error changes nothing; a rejected value is stored but loaded keeps its old value and InvalidPropertiesFormatException is raised; an accepted value is stored and loaded |
| AasConfiguration.Property.Get | src/main/java/com/festo/aas/p4m/configuration/AasProperties.java:332-338 | not loaded gives IllegalStateException; otherwise the stored value |
| AasConfiguration.PortCheckIsPositive | src/main/java/com/festo/aas/p4m/configuration/AasProperties.java:166-167 | the port validator accepts exactly what the positive-integer validator accepts |
| AasConfiguration.AasProperties.constructor | src/main/java/com/festo/aas/p4m/configuration/AasProperties.java:96-173 | an empty user table over the defaults; the six settings with their keys, kinds and validators, none loaded |
| AasConfiguration.PortLoading | src/main/java/com/festo/aas/p4m/configuration/AasProperties.java:166-167 | a default port of 0 is rejected, and get still fails; a user port of 8080 shadows it and loads |
| CertificateProviders.Assign | src/main/java/com/festo/aas/p4m/security/CertificateProvider.java:144-147 | passes iff both non-null; a null key pair assigns nothing; a null certificate is found after the key pair was assigned |
| CertificateProviders.ChainLoad | src/main/java/com/festo/aas/p4m/security/CertificateProvider.java:79-93 | loading never unsets loaded; a pass leaves the first provider loaded; a failure leaves its flag as it was |
| CertificateProviders.OwnLoadLeavesFallbacks | src/main/java/com/festo/aas/p4m/security/CertificateProvider.java:79-82 | if loadInternal does not throw a security exception, no fallback is touched and the hook is not called; a direct provider always passes and becomes loaded with its own pair; a storing provider has Assign's fields and outcome and becomes loaded exactly when that passes |
| CertificateProviders.FallbackTakesOver | src/main/java/com/festo/aas/p4m/security/CertificateProvider.java:83-86 | after a throw, a loaded fallback's pair is adopted, the hook is called once and loaded is set; a fallback failure propagates with this provider unchanged |
| CertificateProviders.AllFailing | src/main/java/com/festo/aas/p4m/security/CertificateProvider.java:87-89 | if every provider throws, the last one's exception is raised and nothing changes |
| CertificateProviders.DirectEndLoads | src/main/java/com/festo/aas/p4m/security/CertificateProvider.java:79-93 | throwing providers before a complete direct provider all end up loaded with its pair |
| CertificateProviders.CertificateProvider.constructor | src/main/java/com/festo/aas/p4m/security/CertificateProvider.java:35-38 | no pair, no fallback, not loaded |
| CertificateProviders.CertificateProvider.Direct | src/main/java/com/festo/aas/p4m/security/DirectCertificateProvider.java:27-31 | holds the given pair, does nothing on load, not yet loaded |
| CertificateProviders.CertificateProvider.GetCertificate | src/main/java/com/festo/aas/p4m/security/CertificateProvider.java:47-53 | IllegalStateException iff not loaded; otherwise the certificate field |
| CertificateProviders.CertificateProvider.GetKeyPair | src/main/java/com/festo/aas/p4m/security/CertificateProvider.java:62-68 | IllegalStateException iff not loaded; otherwise the key pair field |
| CertificateProviders.CertificateProvider.SetFallback | src/main/java/com/festo/aas/p4m/security/CertificateProvider.java:105-107 | replaces the fallback and changes nothing else |
| CertificateProviders.CertificateProvider.SetKeyPairAndCertificate | src/main/java/com/festo/aas/p4m/security/CertificateProvider.java:144-147 | the fields and outcome are those of Assign |
| CertificateProviders.CertificateProvider.Load | src/main/java/com/festo/aas/p4m/security/CertificateProvider.java:79-93 | the new states of the whole chain, and the outcome, are those of ChainLoad on its old states |
| CertificateProviders.CertificateProvider.LoadFallback | src/main/java/com/festo/aas/p4m/security/CertificateProvider.java:82-90 | the catch branch of load, again as ChainLoad |
| CertificateProviders.OfKeyPairAndCertificate | src/main/java/com/festo/aas/p4m/security/CertificateProvider.java:254-256 | NullPointerException iff an argument is null; otherwise a fresh direct provider holding them |
| CertificateProviders.FallbackToDirect | src/main/java/com/festo/aas/p4m/security/DirectCertificateProvider.java:34-36 | the getters fail before load; a failing provider whose fallback is direct loads and hands out the direct provider's pair |

## Left out

- Logging: every `logger` call is omitted. It has no effect on results.
- `synchronized` on `getValue`/`setValue`, and races on the factory's static registry, are left out. The model is single-threaded.
- `initializeHandlers` and the `ConnectedProperty(idShort, valueType)` constructor are left out, along with the BaSyx `Property` base class. Installing the delegate is modelled in `ValueDelegates`, not wired to this class.
- Suppliers, consumers and filters are pure functions: a supplier returns the same value on every call. Side effects on the asset are seen only through the ghost call logs.
- A null supplier or consumer object, and a consume filter that is null at call time, are not modelled. Only null names are.
- A consume filter fills the map passed to it. The model has it return the map, or an error.
- `ConnectedProperties.ConnectedProperty.FetchConnectedValues`: a supplier that throws stops the loop. The model states only that the error comes from a supplier that was called, not which suppliers ran before it, because HashMap order is left open.
- Time: `Instant.now()` is one integer `now` per call, and the cache duration is a `nat`. Negative durations and the overflow of `Instant.plus` are not modelled.
- `OpcUaVariables.OpcUaVariable.GetNodeId` is a plain accessor with no contract.
- The OPC UA and HTTP client factories are not part of this model. The client is only an object that logs reads and writes and returns a given server answer.
- BaSyx path resolution, `Submodel` storage and the `VABLambdaProvider` are external. Only the path strings and the calls handed to the provider are modelled.
- The value of `CollectionDelegate`'s user getter is modelled as a list of elements. Its setter receives a view of the map's values rather than a Java collection.
- The BaSyx key constants `Property.VALUE`, `VALUE_GET_SUFFIX` and `VALUE_SET_SUFFIX` are given their BaSyx spellings. Nothing depends on their exact text.
- `AasProperties.load` is left out: reflection over the annotated fields, `loadUserProperties` and `loadDefaults` are reflection and file I/O. The table is a value given to each load.
- A user collection getter that returns null, which makes `collection.stream()` throw NullPointerException, is not modelled: the getter returns a list or an error.
- `AasConfiguration.ParseInt` accepts ASCII digits only. `Integer.parseInt` also takes the other Unicode decimal digits.
- `AasConfiguration.LoadUri` takes the URI parser as a parameter and does not model the RFC 2396 grammar.
- `AasConfiguration.LoadEnum` returns the constant's position in the list of constant names in place of the enum object.
- `AasConfiguration.ParseBoolean` folds ASCII case only. This is exact for "true", whose letters have no other case variants.
- Exception messages are left out. Only the exception class, or a numeric code for a checked exception, is kept.
- `CertificateProviders.CertificateProvider.SetFallback` requires the chain to stay acyclic. The source accepts a cycle, which would recurse until the stack overflows when every provider fails. While a provider is part of another provider's chain, setting its fallback is not tracked for that other provider.
- `handleFallbackSuccessful` is modelled by one counter per provider. It is a no-op in `DirectCertificateProvider`, so on a direct provider only the count changes.
- `KeyStoreCertificateProvider`, `SelfSignedCertificateProvider` and `KeyStoreFactory` are left out: they are key store and file I/O, and a BaSyx certificate builder. Their `loadInternal` falls under the general `Stores` and `Fails` behaviours.
- `CommandLineOptions` is left out: it is Apache Commons CLI option construction.
- `UrlValidator` is left out: it delegates to Apache Commons.

## Findings

| source | as written | input that shows it | evidently intended | confidence | as-written member | corrected member |
|---|---|---|---|---|---|---|
| src/main/java/com/festo/aas/p4m/connection/SubmodelWrapper.java:160-162 | the one-argument `generatePath` passes a null prefix to the three-argument overload, and `new StringBuilder(null)` throws | `getSubmodelElement("motor")` throws NullPointerException | the idShorts joined by "/", with no prefix and no suffix | not executed | SubmodelWrappers.ElementPathAlwaysThrows | SubmodelWrappers.CorrectedElementPath |
| src/main/java/com/festo/aas/p4m/connection/ConnectedProperty.java:139 | `addPropertyValueConsumer` checks the suppliers map for the duplicate name | a supplier "a" then a consumer "a" is refused; two consumers "b" are both accepted and the second replaces the first | reject a name already used by a consumer, as the message says | not executed | ConnectedProperties.ConnectedProperty.AddPropertyValueConsumer | ConnectedProperties.ConnectedProperty.AddPropertyValueConsumerCorrected |
