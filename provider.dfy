/** The external CAPE-OPEN 1.1 thermodynamic material object the wrapper binds
    to. Its computations are not modelled: each routine either returns what the
    provider holds or fails, and the failing calls are named up front in
    `failing`. A ghost `trace` records every routine call in order, so that the
    wrapper's contracts can say which calls it makes and which it does not. */
module ThermoProvider {
  import opened Common

  /** The CAPE-OPEN 1.1 interfaces a material object may implement besides
      ICapeThermoMaterial. */
  datatype Capability =
    | MaterialContext      // ICapeThermoMaterialContext
    | PhaseEnumeration     // ICapeThermoPhases
    | CompoundEnumeration  // ICapeThermoCompounds
    | PropertyRoutine      // ICapeThermoPropertyRoutine
    | EquilibriumRoutine   // ICapeThermoEquilibriumRoutine
    | UniversalConstant    // ICapeThermoUniversalConstant

  /** `PropertyBasis`, passed to the provider as its name. */
  datatype Basis = Mole | Mass | Undefined

  function BasisToken(b: Basis): string {
    match b
    case Mole => "Mole"
    case Mass => "Mass"
    case Undefined => "Undefined"
  }

  /** One equilibrium specification `{property, basis, phase}`; the basis may be
      an empty string or null, and the source uses both. */
  datatype FlashSpec = FlashSpec(property: string, basis: Option<string>, phase: string)

  /** Where a property value is stored: overall, for one phase, or for a phase pair. */
  datatype PropKey =
    | OverallKey(prop: string, basis: string)
    | SinglePhaseKey(prop: string, phase: string, basis: string)
    | TwoPhaseKey(prop: string, phases: seq<string>, basis: string)

  /** One element of the object[] that GetCompoundConstant returns, by what
      Convert.ToDouble does with it. */
  datatype Boxed =
    | NullBox                          // null: converts to 0
    | Convertible(asDouble: real)      // a boxed number, or anything Convert.ToDouble accepts
    | DoubleArray(elements: seq<real>) // a double[]: Convert.ToDouble throws on it
    | Inconvertible                    // anything else Convert.ToDouble throws on

  /** The three outputs of GetPhaseList. For the aggregation list and the key
      compound, None stands for null or for a value of another type (the
      wrapper's `as` cast yields null); for the labels it stands for null only. */
  datatype PhaseListReply = PhaseListReply(
    labels: Option<seq<string>>, aggregation: Option<seq<string>>, keyCompound: Option<string>)

  /** A provider routine call with its arguments. */
  datatype Call =
    | GetPhaseList
    | GetCompoundList
    | CalcEquilibrium(spec1: FlashSpec, spec2: FlashSpec, solutionType: string)
    | CalcSinglePhaseProp(props: seq<string>, phase: string)
    | CalcTwoPhaseProp(props: seq<string>, phases: seq<string>)
    | GetProp(key: PropKey)
    | SetProp(key: PropKey, values: seq<real>)
    | GetCompoundConstant(props: seq<string>, compoundIds: seq<string>)
    | CreateMaterial
    | CopyFromMaterial

  /** The stored value of a property, or null when the provider has none. */
  function Lookup(store: map<PropKey, seq<real>>, key: PropKey): Option<seq<real>> {
    if key in store then Some(store[key]) else None
  }

  /** What a material object holds besides its stored properties. */
  datatype Holdings = Holdings(
    phaseList: PhaseListReply, compoundIds: Option<seq<string>>, constants: map<(string, string), seq<Boxed>>)

  class Provider {
    const capabilities: set<Capability>
    const failing: set<Call>
    var phaseList: PhaseListReply
    var compoundIds: Option<seq<string>>
    var constants: map<(string, string), seq<Boxed>>
    var store: map<PropKey, seq<real>>
    ghost var trace: seq<Call>

    function Held(): Holdings
      reads this
    {
      Holdings(phaseList, compoundIds, constants)
    }

    constructor (capabilities: set<Capability>, failing: set<Call>)
      ensures this.capabilities == capabilities && this.failing == failing
      ensures phaseList == PhaseListReply(None, None, None) && compoundIds == None
      ensures constants == map[] && store == map[] && trace == []
    {
      this.capabilities := capabilities;
      this.failing := failing;
      phaseList := PhaseListReply(None, None, None);
      compoundIds := None;
      constants := map[];
      store := map[];
      trace := [];
    }

    /** Records call `c`; it completes unless it is one of the failing calls. */
    method Issue(c: Call) returns (ok: bool)
      modifies this`trace
      ensures trace == old(trace) + [c]
      ensures ok == (c !in failing)
    {
      trace := trace + [c];
      ok := c !in failing;
    }

    method GetPhaseList() returns (r: Result<PhaseListReply>)
      modifies this`trace
      ensures trace == old(trace) + [Call.GetPhaseList]
      ensures r == if Call.GetPhaseList in failing then Err(ProviderFailure) else Ok(phaseList)
    {
      var ok := Issue(Call.GetPhaseList);
      r := if ok then Ok(phaseList) else Err(ProviderFailure);
    }

    /** The compound identifiers (the other five outputs are not used by the wrapper). */
    method GetCompoundList() returns (r: Result<Option<seq<string>>>)
      modifies this`trace
      ensures trace == old(trace) + [Call.GetCompoundList]
      ensures r == if Call.GetCompoundList in failing then Err(ProviderFailure) else Ok(compoundIds)
    {
      var ok := Issue(Call.GetCompoundList);
      r := if ok then Ok(compoundIds) else Err(ProviderFailure);
    }

    /** Any calculation may change any stored property: callers learn nothing
        about `store` afterwards. */
    method Calculate(c: Call) returns (r: Outcome)
      requires c.CalcEquilibrium? || c.CalcSinglePhaseProp? || c.CalcTwoPhaseProp?
      modifies this`trace, this`store
      ensures trace == old(trace) + [c]
      ensures r == if c in failing then Fail(ProviderFailure) else Pass
    {
      var ok := Issue(c);
      r := if ok then Pass else Fail(ProviderFailure);
    }

    method GetProp(key: PropKey) returns (r: Result<Option<seq<real>>>)
      modifies this`trace
      ensures trace == old(trace) + [Call.GetProp(key)]
      ensures r == if Call.GetProp(key) in failing then Err(ProviderFailure) else Ok(Lookup(store, key))
    {
      var ok := Issue(Call.GetProp(key));
      r := if ok then Ok(Lookup(store, key)) else Err(ProviderFailure);
    }

    method SetProp(key: PropKey, values: seq<real>) returns (r: Outcome)
      modifies this`trace, this`store
      ensures trace == old(trace) + [Call.SetProp(key, values)]
      ensures r == if Call.SetProp(key, values) in failing then Fail(ProviderFailure) else Pass
      ensures store == if r.Pass? then old(store)[key := values] else old(store)
    {
      var ok := Issue(Call.SetProp(key, values));
      if ok {
        store := store[key := values];
        r := Pass;
      } else {
        r := Fail(ProviderFailure);
      }
    }

    /** The constant of one property for one compound; null when the provider
        has no entry. */
    method GetCompoundConstant(prop: string, compoundId: string) returns (r: Result<Option<seq<Boxed>>>)
      modifies this`trace
      ensures trace == old(trace) + [Call.GetCompoundConstant([prop], [compoundId])]
      ensures r == if Call.GetCompoundConstant([prop], [compoundId]) in failing then Err(ProviderFailure)
                   else if (prop, compoundId) in constants then Ok(Some(constants[(prop, compoundId)]))
                   else Ok(None)
    {
      var ok := Issue(Call.GetCompoundConstant([prop], [compoundId]));
      r := if !ok then Err(ProviderFailure)
           else if (prop, compoundId) in constants then Ok(Some(constants[(prop, compoundId)]))
           else Ok(None);
    }

    /** A new, empty material object of the same provider. */
    method CreateMaterial() returns (r: Result<Provider>)
      modifies this`trace
      ensures trace == old(trace) + [Call.CreateMaterial]
      ensures r.Err? <==> Call.CreateMaterial in failing
      ensures r.Ok? ==> fresh(r.value) && r.value.capabilities == capabilities && r.value.failing == failing
      ensures r.Ok? ==> r.value.trace == []
    {
      var ok := Issue(Call.CreateMaterial);
      if ok {
        var p := new Provider(capabilities, failing);
        r := Ok(p);
      } else {
        r := Err(ProviderFailure);
      }
    }

    /** Copies the data of `source` into this material object. */
    method CopyFromMaterial(source: Provider) returns (r: Outcome)
      requires source != this
      modifies this`phaseList, this`compoundIds, this`constants, this`store, this`trace
      ensures trace == old(trace) + [Call.CopyFromMaterial]
      ensures r == if Call.CopyFromMaterial in failing then Fail(ProviderFailure) else Pass
      ensures r.Pass? ==> phaseList == source.phaseList && compoundIds == source.compoundIds &&
                          constants == source.constants && store == source.store
      ensures r.Fail? ==> Held() == old(Held()) && store == old(store)
    {
      var ok := Issue(Call.CopyFromMaterial);
      if ok {
        phaseList, compoundIds := source.phaseList, source.compoundIds;
        constants, store := source.constants, source.store;
        r := Pass;
      } else {
        r := Fail(ProviderFailure);
      }
    }
  }
}
