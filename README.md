# CasterUnitCore material and energy-port wrappers, in Dafny

CasterUnitCore helps write CAPE-OPEN unit operations in C#. This project
models two of its stream wrappers.

- `MaterialObject11` wraps a CAPE-OPEN 1.1 thermodynamic material object.
  - It holds one handle per provider interface: material, context, phases,
    compounds, property routine, equilibrium routine and universal constants.
  - It binds to a material directly or through another wrapper.
  - After each bind it assigns the vapor and liquid phase roles from the
    allowed phase labels and re-reads the compound list.
  - It widens the present phases to the allowed ones before flashes and
    before writes to an absent phase.
  - It answers reads of absent phases with zeros.
  - It turns provider failures into `false` (flashes) or a swallowed
    exception (compound list, calculations before a read), exactly where the
    C# code does.
- `CapeEnergyPort` is a unit port whose connected object is a 1-based
  collection of parameters.
  - It reads `Work`, `TemperatureLow` and `TemperatureHigh` by lower-cased
    name.
  - It writes them back through an index search.

## Layout

- `common.dfy` (module `Common`):
  - null references, results and the exceptions that matter;
  - `SingleOrDefault`;
  - ordinal `string.Contains`;
  - ASCII `ToLower`.
- `provider.dfy` (module `ThermoProvider`) models the external thermodynamic
  provider.
  - It is a class with the interfaces it implements, its phase list,
    compound ids, compound constants and stored properties.
  - A set of calls is scripted to throw.
  - A ghost trace records every call made.
- `phases.dfy` (module `PhaseRoles`):
  - phases;
  - the shared vapor and liquid role table, which is static in the C# code;
  - role assignment after a bind.
- `material.dfy` (module `Material11`) holds the class `MaterialObject11`
  and the pure functions its methods are proved against.
  - The invariant `Valid()` says every interface handle is the cast of the
    material handle.
  - Every method states its result and its new state.
  - Every method keeps the provider's phase list, compound ids and compound
    constants. Reads that run no calculation also keep its stored properties.
  - Every method states, through the trace, the provider calls it makes on
    the bound provider. For `Duplicate` these are the calls on the original
    provider only; the calls made on the copy are not stated.
- `energy_port.dfy` (module `EnergyPort`):
  - the parameter collection;
  - the class `CapeEnergyPort`;
  - the name lookup and setter functions its methods are proved against.
- `scenarios.dfy` (module `Scenarios`) binds wrappers to new providers and
  connects ports to new collections. It drives them through their own
  methods and states what a caller then reads back.

Two behaviours of the code are worth stating:

- `string.Contains` in the role assignment is ordinal and case-sensitive.
  So "Vapor" takes no role; `PhaseRoles.CaseSensitiveRoles` proves it.
- All five named flashes return `false` when there is no equilibrium
  interface, and they do so before they widen the present phases.

## Model

| member | source | states |
|---|---|---|
| Material11.MaterialObject11.constructor | CasterUnitCore/Streams/MaterialObject11.cs:50-53 | a new wrapper is unbound (`IsValid()` is false, all handles null); binding null binds nothing |
| Material11.MaterialObject11.IsValid | CasterUnitCore/Streams/MaterialObject11.cs:89-92 | a wrapper is valid when its material handle is set; an invalid wrapper holds no interface handle at all, and a valid one holds the phase handle exactly when the material implements that interface |
| Material11.MaterialObject11.SetMaterial | CasterUnitCore/Streams/MaterialObject11.cs:94-125 | null returns false and changes neither the wrapper nor its provider; any other non-material type throws ArgumentException and changes neither; a material sets every handle to its cast; a wrapper binds its material handle, or keeps the current handles when that handle is null; both then assign the roles from the allowed phases, re-read the compound list and return true; the exact provider calls are stated; the bound provider keeps its phase list, compound ids, constants and stored properties; a previously bound provider that is replaced is left unchanged |
| Material11.MaterialObject11.BindHandles | CasterUnitCore/Streams/MaterialObject11.cs:98-108 | every interface handle becomes the material cast to that interface (null when it does not implement it), so `Valid()` holds |
| Material11.MaterialObject11.AssignPhaseRoles | CasterUnitCore/Streams/MaterialObject11.cs:117-122 | the shared role table becomes `AssignRoles` of the allowed phases and the previous roles |
| PhaseRoles.AssignRoles | CasterUnitCore/Streams/MaterialObject11.cs:117-122 | the vapor role is the first allowed phase containing "vap"; the liquid role is the first containing "solid", else the first containing "liq"; a role with no match keeps its value |
| PhaseRoles.FirstContaining | CasterUnitCore/Streams/MaterialObject11.cs:117-122 | `FirstOrDefault`: the index of a phase containing the pattern with no earlier one containing it, or none when no phase contains it |
| PhaseRoles.AssignRolesIdempotent | CasterUnitCore/Streams/MaterialObject11.cs:110-122 | assigning the roles a second time from the same phases (as a bind through a wrapper does) changes nothing |
| PhaseRoles.SolidTakesLiquidRole | CasterUnitCore/Streams/MaterialObject11.cs:119-122 | a "solid" label takes the liquid role even after a "liq" label |
| PhaseRoles.NoRolePattern | CasterUnitCore/Streams/MaterialObject11.cs:117-122 | a label without the letters v, l and s matches none of the three patterns |
| PhaseRoles.CaseSensitiveRoles | CasterUnitCore/Streams/MaterialObject11.cs:117-122 | labels "Vapor", "Liquid1", "Liquid2" leave both roles unchanged, because matching is case-sensitive |
| PhaseRoles.LowerCaseRoles | CasterUnitCore/Streams/MaterialObject11.cs:117-122 | labels "vapor", "liquid1", "liquid2" give the roles vapor and liquid1 |
| Common.ContainsIffOccurs | CasterUnitCore/Streams/MaterialObject11.cs:117 | the modelled `Contains` holds exactly when the pattern occurs at some offset |
| Common.OccursImpliesContains | CasterUnitCore/Streams/MaterialObject11.cs:117 | an occurrence at any offset is found by `Contains` |
| Common.ContainsImpliesOccurs | CasterUnitCore/Streams/MaterialObject11.cs:117 | `Contains` holds only when there is an occurrence, and yields its offset |
| Common.FirstCharAbsent | CasterUnitCore/Streams/MaterialObject11.cs:117 | a string lacking the pattern's first character does not contain the pattern |
| Material11.MaterialObject11.UpdateCompoundList | CasterUnitCore/Streams/MaterialObject11.cs:358-373 | the compound list becomes the compound ids the provider held before the call; it is null when the compound interface is missing, the call throws or the provider gives none; the exception is swallowed; the provider keeps its holdings and stored properties |
| Material11.MaterialObject11.Dispose | CasterUnitCore/Streams/MaterialObject11.cs:127-151 | all seven handles become null and the material is no longer valid; disposing an unbound material changes nothing |
| Material11.MaterialObject11.Duplicate | CasterUnitCore/Streams/MaterialObject11.cs:78-87 | a null handle gives NullReferenceException; otherwise it fails exactly when CreateMaterial or CopyFromMaterial throws; on success the result is a fresh valid wrapper bound to a fresh material of the same provider; that material has the same failing calls and holds the phase list, compound ids, constants and stored properties the original held before the call; the original provider sees one CreateMaterial call and keeps its data; the roles are unchanged |
| Material11.MaterialObject11.DoFlash | CasterUnitCore/Streams/MaterialObject11.cs:161-177 | the present phases become the allowed ones; the equilibrium calculation is requested once through the equilibrium handle; the result is true exactly when the handle exists and the call does not throw; the provider keeps its holdings, and without the equilibrium handle it is left entirely unchanged |
| Material11.MaterialObject11.NamedFlash | CasterUnitCore/Streams/MaterialObject11.cs:179-198 | with no equilibrium interface: false, and neither the wrapper nor its provider changes; otherwise the generic flash with the kind's fixed specifications |
| Material11.MaterialObject11.DoTPFlash | CasterUnitCore/Streams/MaterialObject11.cs:179-198 | TP flash with ("temperature", "", "Overall") and ("pressure", "", "Overall"); false without an equilibrium interface, with nothing changed; true exactly when the call does not throw; the provider keeps its holdings |
| Material11.MaterialObject11.DoPHFlash | CasterUnitCore/Streams/MaterialObject11.cs:200-219 | as TP with ("enthalpy", "", "Overall") and ("pressure", "", "Overall") |
| Material11.MaterialObject11.DoTHFlash | CasterUnitCore/Streams/MaterialObject11.cs:221-240 | as TP with ("temperature", null, "Overall") and ("enthalpy", null, "Overall") |
| Material11.MaterialObject11.DoTVFFlash | CasterUnitCore/Streams/MaterialObject11.cs:242-261 | as TP with ("temperature", null, "Overall") and ("phaseFraction", "Mole", "gas") |
| Material11.MaterialObject11.DoPVFlash | CasterUnitCore/Streams/MaterialObject11.cs:263-282 | as TP with ("pressure", null, "Overall") and ("phaseFraction", "Mole", "gas") |
| Material11.AllowedFromReply | CasterUnitCore/Streams/MaterialObject11.cs:288-310 | a failed phase-list call, or null labels, gives [Vapor, Liquid] with null aggregation and key compound; otherwise one phase per provider label, in order, with the provider's other two outputs; an empty label list gives no phases |
| PhaseRoles.PhasesOfLabels | CasterUnitCore/Streams/MaterialObject11.cs:306-308 | one phase per label, same length and order |
| Material11.MaterialObject11.GetListOfAllowedPhase | CasterUnitCore/Streams/MaterialObject11.cs:288-310 | the result is `AllowedFromReply` of what the phase interface answers before the call; a null interface counts as a thrown call; there is one provider call when the interface exists; the provider keeps its holdings and stored properties |
| Material11.MaterialObject11.GetOverallPropList | CasterUnitCore/Streams/MaterialObject11.cs:377-382 | the overall property stored for the name and basis before the call, null when absent, or the exception of the read; the provider is left as it was, apart from the recorded call |
| Material11.MaterialObject11.SetOverallPropList | CasterUnitCore/Streams/MaterialObject11.cs:384-389 | writes the values under the overall key for the name and basis; that is the only change to the stored properties, and a failed write changes none; the provider keeps its holdings |
| Material11.PairFractions | CasterUnitCore/Streams/MaterialObject11.cs:464-467 | the dictionary-building loop yields exactly `Pair` of the compound ids and the fractions |
| Material11.Pair | CasterUnitCore/Streams/MaterialObject11.cs:457-469 | a null fraction array with at least one compound throws NullReferenceException; fewer fractions than compounds throws; a successful pairing has exactly the compound ids as keys |
| Material11.PairSpec | CasterUnitCore/Streams/MaterialObject11.cs:457-469 | pairing succeeds exactly when the ids are distinct and there is a fraction for each; the dictionary then maps each id to the fraction at its position and holds no other key |
| Material11.PairErrorPersists | CasterUnitCore/Streams/MaterialObject11.cs:464-467 | once an `Add` throws, the loop's exception is the getter's result |
| Material11.DistinctSnoc | CasterUnitCore/Streams/MaterialObject11.cs:466 | appending an id keeps the list duplicate-free exactly when the id is new (a duplicate `Add` throws) |
| Material11.PairsWithSnoc | CasterUnitCore/Streams/MaterialObject11.cs:466 | adding a new id with the next fraction extends a correct pairing |
| Material11.MaterialObject11.GetComposition | CasterUnitCore/Streams/MaterialObject11.cs:457-469 | the overall mole fractions stored before the call, paired with the compound ids, or the exception of the read or of the pairing; the provider is left as it was |
| Material11.Reorder | CasterUnitCore/Streams/MaterialObject11.cs:472-476 | one entry per compound in compound order: the supplied fraction, or 0 when the map lacks that compound |
| Material11.CompositionVector | CasterUnitCore/Streams/MaterialObject11.cs:470-478 | succeeds exactly when CompoundNum is 0, or the map is not null and CompoundNum is at most the number of compounds; the error is NullReferenceException for a null map when there are compounds, else an index out of range; the vector has CompoundNum entries, each the fraction of the compound at that position |
| Material11.MaterialObject11.SetComposition | CasterUnitCore/Streams/MaterialObject11.cs:470-478 | the array loop builds `CompositionVector`: an index past the compound list throws before a null map does; otherwise the reordered fractions are written as the overall mole fractions, the only stored change; the provider keeps its holdings |
| Material11.CompositionRoundTrip | CasterUnitCore/Streams/MaterialObject11.cs:455-479 | for distinct compounds, pairing the reordered vector gives every compound its supplied fraction and 0 to the compounds the map lacks |
| Common.SingleOrDefault | CasterUnitCore/Streams/MaterialObject11.cs:442 | 0 for an empty array, the element for one, an exception for more |
| Material11.MaterialObject11.GetVaporFraction | CasterUnitCore/Streams/MaterialObject11.cs:435-443 | reads the vapor role's mole phase fraction stored before the call, with no present-phase check and no calculation: 0 when there is none, the single value, or an exception for several; the provider is left as it was |
| Material11.MaterialObject11.SetVaporFraction | CasterUnitCore/Streams/MaterialObject11.cs:444-452 | widens the present phases when the vapor role is not present; then writes the one-element vector under the vapor role's mole phase-fraction key, the only stored change; the provider keeps its holdings |
| Material11.MaterialObject11.GetSinglePhasePropList | CasterUnitCore/Streams/MaterialObject11.cs:490-506 | an absent phase gives CompoundNum zeros and no provider call; otherwise an optional calculation whose failure is ignored, then the read; without a calculation the stored properties are kept; the holdings are always kept |
| Material11.MaterialObject11.SetSinglePhasePropList | CasterUnitCore/Streams/MaterialObject11.cs:508-515 | widens the present phases when the phase is absent, then writes under the single-phase key, the only stored change; the provider keeps its holdings |
| Material11.MaterialObject11.GetTwoPhasePropList | CasterUnitCore/Streams/MaterialObject11.cs:526-546 | either phase absent gives zeros and no call; otherwise the two-phase calculation runs whatever `calculate` says, its failure ignored, then the read; without a calculation the stored properties are kept; the holdings are always kept |
| Material11.MaterialObject11.SetTwoPhasePropList | CasterUnitCore/Streams/MaterialObject11.cs:548-558 | widens when either phase is absent, then writes under the two-phase key, the only stored change; the provider keeps its holdings |
| Material11.CoerceConstant | CasterUnitCore/Streams/MaterialObject11.cs:584-598 | a single convertible scalar gives itself; else a single one-element double[] gives its element; anything else gives 0 |
| Material11.ConstantShapesAgree | CasterUnitCore/Streams/MaterialObject11.cs:584-598 | a scalar and a one-element double[] holding the same number read the same |
| Material11.MaterialObject11.GetCompoundConstPropDouble | CasterUnitCore/Streams/MaterialObject11.cs:584-598 | throws only when the compound interface is missing or the provider call throws; otherwise the coerced reply for the constant held before the call; the provider is left as it was |
| EnergyPort.CapeEnergyPort.constructor | CasterUnitCore/Streams/CapeEnergyPort.cs:38-40 | keeps name, direction, description and rename flag; not connected |
| EnergyPort.CapeEnergyPort.Disconnect | CasterUnitCore/Streams/CapeEnergyPort.cs:58-63 | the port is no longer connected; disconnecting a disconnected port changes nothing |
| EnergyPort.CapeEnergyPort.Connect | CasterUnitCore/Streams/CapeEnergyPort.cs:47-56 | a collection is connected; anything else throws ECapeBadArgumentException and leaves the port disconnected |
| EnergyPort.CapeEnergyPort.Clone | CasterUnitCore/Streams/CapeEnergyPort.cs:82-88 | a fresh port with the same name, direction, description and rename flag, sharing the same collection |
| EnergyPort.CapeEnergyPort.IsConnected | CasterUnitCore/Streams/CapeEnergyPort.cs:76-79 | connected exactly when `Count` answers; a disconnected port answers every indexer with NullReferenceException |
| EnergyPort.CapeEnergyPort.AtName | CasterUnitCore/Streams/CapeEnergyPort.cs:96-99 | a parameter named exactly `id`, present exactly when some parameter has that name; NullReferenceException when disconnected |
| EnergyPort.CapeEnergyPort.At | CasterUnitCore/Streams/CapeEnergyPort.cs:103-106 | `this[i]` is parameter i counted from 0 (collection item i + 1); out of range throws; NullReferenceException when disconnected |
| EnergyPort.CapeEnergyPort.Count | CasterUnitCore/Streams/CapeEnergyPort.cs:111-114 | the number of parameters; NullReferenceException when disconnected |
| EnergyPort.CapeEnergyPort.GetEnumerator | CasterUnitCore/Streams/CapeEnergyPort.cs:199-205 | exactly Count items, `this[0]` to `this[Count-1]` in order; NullReferenceException when disconnected |
| EnergyPort.SoleValueSpec | CasterUnitCore/Streams/CapeEnergyPort.cs:122-124 | the query `where Lower(name) == key select value` then `SingleOrDefault` gives 0 with no match, the value of a sole match, and throws with two matches |
| EnergyPort.MatchesNone | CasterUnitCore/Streams/CapeEnergyPort.cs:122-124 | with no matching name the query selects nothing |
| EnergyPort.MatchesSole | CasterUnitCore/Streams/CapeEnergyPort.cs:122-124 | with one matching name the query selects exactly its value |
| EnergyPort.MatchesAtLeastOne | CasterUnitCore/Streams/CapeEnergyPort.cs:122-124 | a matching name puts at least one value in the selection |
| EnergyPort.MatchesTwo | CasterUnitCore/Streams/CapeEnergyPort.cs:122-124 | two matching names put at least two values in the selection |
| EnergyPort.CapeEnergyPort.Lookup | CasterUnitCore/Streams/CapeEnergyPort.cs:120-125 | the getters' query: NullReferenceException when disconnected, otherwise 0 / sole value / exception as above |
| EnergyPort.CapeEnergyPort.Work | CasterUnitCore/Streams/CapeEnergyPort.cs:118-125 | the same three cases for the key "work" |
| EnergyPort.CapeEnergyPort.TemperatureLow | CasterUnitCore/Streams/CapeEnergyPort.cs:144-151 | the same three cases for the key "temperaturelow" |
| EnergyPort.CapeEnergyPort.TemperatureHigh | CasterUnitCore/Streams/CapeEnergyPort.cs:170-177 | the same three cases for the key "temperaturehigh" |
| Common.Lower | CasterUnitCore/Streams/CapeEnergyPort.cs:123 | same length, no upper-case ASCII letter left, each character kept or lowered by 32 |
| Common.LowerIdempotent | CasterUnitCore/Streams/CapeEnergyPort.cs:123 | lower-casing twice is lower-casing once |
| EnergyPort.FirstNamed | CasterUnitCore/Streams/CapeEnergyPort.cs:128-134 | the first position whose lower-cased name is the key, with no earlier one; none exactly when no name matches |
| EnergyPort.CapeEnergyPort.FindNamed | CasterUnitCore/Streams/CapeEnergyPort.cs:128-134 | the search loop with `break` (Count re-read each round) finds `FirstNamed`; NullReferenceException when disconnected |
| EnergyPort.SetAsWritten | CasterUnitCore/Streams/CapeEnergyPort.cs:128-138 | no match throws ECapeInvalidOperationException; a first match at position 0 makes `Item(0)` throw; a first match at k > 0 writes position k - 1 |
| EnergyPort.CapeEnergyPort.SetNamedAsWritten | CasterUnitCore/Streams/CapeEnergyPort.cs:126-139 | the setter as written leaves the collection as `SetAsWritten` says and returns its exception |
| EnergyPort.SetIntended | CasterUnitCore/Streams/CapeEnergyPort.cs:126-139 | throws ECapeInvalidOperationException exactly when no name matches; otherwise writes the first match |
| EnergyPort.CapeEnergyPort.SetNamed | CasterUnitCore/Streams/CapeEnergyPort.cs:126-139 | the setter writing `Item(index + 1)` leaves the collection as `SetIntended` says |
| EnergyPort.SetIntendedWritesFirstMatch | CasterUnitCore/Streams/CapeEnergyPort.cs:126-139 | the intended setter keeps length and names, sets the first match to the value and changes nothing else |
| EnergyPort.SetThenGet | CasterUnitCore/Streams/CapeEnergyPort.cs:118-139 | setting a name that occurs once and then reading it gives the value set |
| EnergyPort.SetAsWrittenMissesTarget | CasterUnitCore/Streams/CapeEnergyPort.cs:135-136 | with parameters [T, Work] the as-written Work setter changes T and the Work getter still reads the old value; with Work alone it throws; the intended setter writes Work |
| EnergyPort.CapeEnergyPort.SetWork | CasterUnitCore/Streams/CapeEnergyPort.cs:126-139 | the `Work` setter as written leaves the collection as `SetAsWritten` says for "work": no match throws, a first-position match throws, any other match writes the parameter before it (see Findings) |
| EnergyPort.CapeEnergyPort.SetTemperatureLow | CasterUnitCore/Streams/CapeEnergyPort.cs:152-165 | as `SetWork`, for "temperaturelow" |
| EnergyPort.CapeEnergyPort.SetTemperatureHigh | CasterUnitCore/Streams/CapeEnergyPort.cs:178-191 | as `SetWork`, for "temperaturehigh" |
| EnergyPort.ParamCollection.Item | CasterUnitCore/Streams/CapeEnergyPort.cs:105 | `Item(k)` is parameter k counted from 1, and throws outside 1..Count |
| EnergyPort.ParamCollection.SetValue | CasterUnitCore/Streams/CapeEnergyPort.cs:136 | assigning `Item(k).value` changes only parameter k's value, and throws outside 1..Count |
| Scenarios.BindThenCompounds | CasterUnitCore/Streams/MaterialObject11.cs:94-125 | binding a fresh provider makes the compound list its compound ids; it is null without the compound interface or when the list call throws |
| Scenarios.AllowedPhasesFromLabels | CasterUnitCore/Streams/MaterialObject11.cs:288-310 | the allowed phases are one phase per provider label, in order; null labels give the Vapor and Liquid roles |
| Scenarios.OneVaporLabel | CasterUnitCore/Streams/MaterialObject11.cs:288-310 | the single label "vapor" gives the single phase "vapor" |
| Scenarios.TPFlash | CasterUnitCore/Streams/MaterialObject11.cs:179-198 | a TP flash returns true exactly when the provider implements the equilibrium interface and does not fail the request; with the interface the allowed phases become present, without it nothing changes |
| Scenarios.OverallSetThenGet | CasterUnitCore/Streams/MaterialObject11.cs:377-389 | an overall property written is read back unchanged |
| Scenarios.CompositionSetThenGet | CasterUnitCore/Streams/MaterialObject11.cs:455-479 | for distinct compounds, a composition written and read back maps each compound to its supplied fraction, or to 0 when the supplied map lacks it |
| Scenarios.SinglePhaseSetThenGet | CasterUnitCore/Streams/MaterialObject11.cs:490-515 | a single-phase property written for an allowed phase is read back; without a property routine `calculate` changes nothing |
| Scenarios.SinglePhaseOutsideAllowed | CasterUnitCore/Streams/MaterialObject11.cs:490-515 | a write for a phase that is not allowed passes, but the read gives CompoundNum zeros, because the phase never becomes present |
| Scenarios.TwoPhaseSetThenGet | CasterUnitCore/Streams/MaterialObject11.cs:526-558 | a two-phase property written for two allowed phases is read back |
| Scenarios.VaporFractionSetThenGet | CasterUnitCore/Streams/MaterialObject11.cs:435-452 | the vapor fraction written is the one read back |
| Scenarios.VaporFractionUnset | CasterUnitCore/Streams/MaterialObject11.cs:435-443 | with nothing stored, the vapor fraction reads 0 |
| Scenarios.ConstantRead | CasterUnitCore/Streams/MaterialObject11.cs:584-598 | a constant stored as a boxed number, or as a one-element double[], reads as that number; without the compound interface the read throws NullReferenceException |
| Scenarios.WaterMolecularWeight | CasterUnitCore/Streams/MaterialObject11.cs:584-598 | a stored molecular weight of 18.02 for "Water" reads 18.02 |
| Scenarios.DuplicateKeepsProperty | CasterUnitCore/Streams/MaterialObject11.cs:78-87 | an overall property written before `Duplicate` is read back from both the copy and the original |
| Scenarios.SetWorkAfterTemperature | CasterUnitCore/Streams/CapeEnergyPort.cs:126-139 | with parameters [T, Work], the `Work` setter as written sets T to the new value; Work keeps its value and the getter still reads it |
| Scenarios.SetWorkFirst | CasterUnitCore/Streams/CapeEnergyPort.cs:126-139 | with "Work" as the only parameter, the `Work` setter as written throws and leaves the collection as it was |
| Scenarios.SetNamedWork | CasterUnitCore/Streams/CapeEnergyPort.cs:126-139 | the intended setter, on the same parameters, writes Work itself |

## Left out

- The COM lifetime calls (`Marshal.FinalReleaseComObject`) in `Dispose` and `Disconnect` are not modelled; only the nulling of the handles is.
- The provider is modelled as an external object. Its thermodynamics are not: a calculation or flash may change its stored properties in any way.
- Failures of a provider call are scripted per call.
- Message boxes and debug output (`showWarning`, `Debug.WriteLine`, `Debug.Assert`) are I/O and are left out.
- Numbers are mathematical reals, not IEEE doubles.
- `ToLower` is modelled on ASCII letters only.
- The `MaterialObject` base-class state is modelled as plain fields that the wrapper reads: `PresentPhases`, `AllowedPhases`, `Compounds`, `CompoundNum` and the compound alias list. The base class is not part of this model, so whatever its getters compute is not modelled.
- `SetVaporFraction` calls the base-class `SetSinglePhasePropDouble`. The model takes that call to be `SetSinglePhasePropList` with a one-element vector, and `Contains(Phases.Vapor)` to compare phases by value.
- `MaterialObjectVersion`, `CapeThermoMaterialObject` and `ClearAllProperties` are not modelled.
- `CheckEquilibriumSpec`, `GetListOfPresentPhases`, `SetListOfPresentPhases` and `Formulas` are not modelled.
- `T`, `P` and `TotalFlow` are not modelled.
- The `Available*Prop` lists, `GetCompoundTDependentProp`, `GetCompoundPDependentProp` and `GetUniversalConstProp` are not modelled.
- The constructor taking an object is `new MaterialObject11` followed by `SetMaterial`, and is not a separate member.
- `GetListOfAllowedPhase` assumes a phase-list object is a `string[]` when it is not null. Another array type makes the C# query throw; the model does not cover that case.
- `Material11.MaterialObject11.Duplicate` does not state the new wrapper's base-class state (it starts empty), its compound list, or the calls made on the copied material.
- A null `value` list passed to `SetOverallPropList`, `SetSinglePhasePropList` or `SetTwoPhasePropList` is not modelled. The code calls `value.ToArray()` at MaterialObject11.cs lines 386, 512 and 554, which would throw; the model's value lists are never null.
- A null parameter `ComponentName` in the energy port's name lookup is not modelled. The code calls `ToLower()` on it at CapeEnergyPort.cs lines 123 and 131, which would throw; the model's names are never null.
- `EnergyPort.ParamCollection.Item`: the collection belongs to the simulator, and an index outside 1..Count is assumed to throw.
- `EnergyPort.ParamCollection.ItemNamed`: a missing name is assumed to throw, and the first parameter with that exact name is taken.
- The energy port's `connectedObject` getter just returns the handle and is not modelled separately.

## Findings

| source | as written | input that shows it | evidently intended | confidence | as-written member | corrected member |
|---|---|---|---|---|---|---|
| CasterUnitCore/Streams/CapeEnergyPort.cs:135-136 | the setters find the first match at 0-based `index` (read via `Item(index + 1)`) but write `paramCollection.Item(index)`, which is 1-based | parameters [("T", 1.0), ("Work", 2.0)], setting `Work` to 5.0: T becomes 5.0 and `Work` still reads 2.0; with "Work" as the only parameter `Item(0)` throws | write `Item(index + 1)`, the matched parameter | high, not executed | EnergyPort.SetAsWrittenMissesTarget | EnergyPort.SetThenGet |

The same off-by-one is at lines 161-162 and 187-188. In the model, `SetWork`,
`SetTemperatureLow` and `SetTemperatureHigh` keep the code as written: they
call `SetNamedAsWritten`, and their contracts go through `SetAsWritten`.
`SetIntended`, `SetNamed` and `SetThenGet` are the corrected write and its
proof; `Scenarios.SetNamedWork` shows it on the same parameters.
